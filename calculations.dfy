/**
 * `Calculations`: the GDT-based product-impact calculator, the temporal damage
 * simulator and the fixed quadratic base curve it is built on.
 */
module Calculations {
  import opened Numeric
  import opened Productos

  // ----- Product impact -----

  /** Quality weight of each product when the grain is undamaged. */
  function PesoBase(p: Producto): real {
    match p
    case AceiteDeSoya => 0.9
    case HarinaDeSoya => 0.85
    case ProteinaDeSoya => 0.8
    case Lecitina => 0.95
    case Biodiesel => 0.75
  }

  /** The quality factor `max(0.05, 1 - gdt/100)`: it falls linearly with the damage
      and is held at a 5% floor from GDT 95 on. */
  function FactorCalidad(gdt: real): (f: real)
    ensures f >= 0.05
    ensures f >= 1.0 - gdt / 100.0
    ensures gdt <= 95.0 ==> f == 1.0 - gdt / 100.0
    ensures gdt >= 95.0 ==> f == 0.05
  {
    Max(0.05, 1.0 - gdt / 100.0)
  }

  /** Quality of each derived product for a total damage GDT: every product is
      present, scaled from its base weight by the quality factor, and strictly
      positive because it never falls below 5% of its weight. */
  function CalcularImpactoProductos(gdt: real): (r: map<Producto, real>)
    ensures r.Keys == Todos
    ensures forall p :: p in r ==> r[p] == FactorCalidad(gdt) * PesoBase(p)
    ensures forall p :: p in r ==> 0.0 < 0.05 * PesoBase(p) <= r[p]
  {
    var factorCalidad := Max(0.05, 1.0 - gdt / 100.0);
    map[AceiteDeSoya := factorCalidad * 0.9,
        HarinaDeSoya := factorCalidad * 0.85,
        ProteinaDeSoya := factorCalidad * 0.8,
        Lecitina := factorCalidad * 0.95,
        Biodiesel := factorCalidad * 0.75]
  }

  /** Undamaged grain keeps every product at exactly its base weight. */
  lemma ImpactoSinDano()
    ensures forall p :: p in CalcularImpactoProductos(0.0) ==> CalcularImpactoProductos(0.0)[p] == PesoBase(p)
  {
  }

  /** More damage never improves a product, and from GDT 95 on every product is
      held at 5% of its weight. */
  lemma ImpactoNoCreciente(gdt1: real, gdt2: real)
    requires gdt1 <= gdt2
    ensures forall p :: p in Todos ==> CalcularImpactoProductos(gdt2)[p] <= CalcularImpactoProductos(gdt1)[p]
    ensures gdt1 >= 95.0 ==> CalcularImpactoProductos(gdt1) == CalcularImpactoProductos(gdt2)
  {
    forall p | p in Todos
      ensures CalcularImpactoProductos(gdt2)[p] <= CalcularImpactoProductos(gdt1)[p]
    {
      assert FactorCalidad(gdt2) <= FactorCalidad(gdt1);
    }
  }

  // ----- Base damage curve -----

  /** The month at which the base curve is lowest, about 5.3. */
  const Vertice: real := 0.7741 / (2.0 * 0.0730)

  /** The lowest value of the base curve, about 12.79%. */
  const MinimoCurva: real := 14.8443 - 0.7741 * 0.7741 / (4.0 * 0.0730)

  /** Fitted grain damage (%) after `tiempo` months: `0.0730t² - 0.7741t + 14.8443`.
      It never falls below its value at the vertex, so the damage it predicts is
      always positive; at month 0 it is 14.8443. */
  function EcuacionDanoGrano(tiempo: real): (e: real)
    ensures e >= MinimoCurva > 0.0
    ensures tiempo == 0.0 ==> e == 14.8443
  {
    FormaCanonica(tiempo);
    ProductoNoNegativo(tiempo - Vertice, tiempo - Vertice);
    0.0730 * tiempo * tiempo - 0.7741 * tiempo + 14.8443
  }

  /** The base curve in vertex form: a parabola opening upwards, lowest at `Vertice`. */
  lemma FormaCanonica(tiempo: real)
    ensures 0.0730 * tiempo * tiempo - 0.7741 * tiempo + 14.8443
         == 0.0730 * (tiempo - Vertice) * (tiempo - Vertice) + MinimoCurva
  {
  }

  /** The change of the base curve between two times factors through their gap:
      its slope between them is `0.0730 (t1 + t2) - 0.7741`. */
  lemma DiferenciaDeLaCurva(t1: real, t2: real)
    ensures EcuacionDanoGrano(t2) - EcuacionDanoGrano(t1) == (t2 - t1) * (0.0730 * (t1 + t2) - 0.7741)
  {
  }

  /** The base curve falls until its vertex... */
  lemma {:induction false} DecreceHastaElVertice(t1: real, t2: real)
    requires t1 < t2 <= Vertice
    ensures EcuacionDanoGrano(t2) < EcuacionDanoGrano(t1)
  {
    var pendiente := 0.0730 * (t1 + t2) - 0.7741;
    DiferenciaDeLaCurva(t1, t2);
    assert pendiente < 0.0;
    ProductoPositivo(t2 - t1, -pendiente);
    assert (t2 - t1) * pendiente == -((t2 - t1) * -pendiente);
  }

  /** ...and rises after it. */
  lemma {:induction false} CreceDesdeElVertice(t1: real, t2: real)
    requires Vertice <= t1 < t2
    ensures EcuacionDanoGrano(t1) < EcuacionDanoGrano(t2)
  {
    var pendiente := 0.0730 * (t1 + t2) - 0.7741;
    DiferenciaDeLaCurva(t1, t2);
    assert pendiente > 0.0;
    ProductoPositivo(t2 - t1, pendiente);
  }

  /** The description of the base curve the dashboards display. */
  datatype EcuacionBase = EcuacionBase(coeficientes: seq<real>, ecuacion: string, descripcion: string)

  /** A quadratic given by its coefficients, highest degree first. */
  function EvaluarCuadratica(coeficientes: seq<real>, t: real): real
    requires |coeficientes| == 3
  {
    coeficientes[0] * t * t + coeficientes[1] * t + coeficientes[2]
  }

  /** The published coefficients are exactly those of the curve the simulator uses. */
  function ObtenerEcuacionBase(): (e: EcuacionBase)
    ensures |e.coeficientes| == 3
    ensures forall t :: EvaluarCuadratica(e.coeficientes, t) == EcuacionDanoGrano(t)
  {
    EcuacionBase([0.0730, -0.7741, 14.8443],
                 "y = 0.0730x² - 0.7741x + 14.8443",
                 "Ecuación cuadrática del daño del grano vs tiempo")
  }

  // ----- Temporal simulation -----

  /** The k-th sample time, every half month. */
  function Paso(k: nat): real {
    k as real * 0.5
  }

  /** `np.arange(0, meses + 1, 0.5)` for a whole number of months. */
  function Tiempos(meses: nat): (ts: seq<real>)
    ensures |ts| == 2 * meses + 2
    ensures forall k :: 0 <= k < |ts| ==> ts[k] == Paso(k)
  {
    seq(2 * meses + 2, k requires 0 <= k => Paso(k))
  }

  /** The sample times are exactly the half-month multiples below the stop value
      `meses + 1`, in strictly increasing order, from 0 to `meses + 0.5`. */
  lemma TiemposEsArange(meses: nat)
    ensures forall k: nat :: k < |Tiempos(meses)| <==> Paso(k) < meses as real + 1.0
    ensures forall i, j :: 0 <= i < j < |Tiempos(meses)| ==> Tiempos(meses)[i] < Tiempos(meses)[j]
    ensures Tiempos(meses)[0] == 0.0
    ensures Tiempos(meses)[|Tiempos(meses)| - 1] == meses as real + 0.5
  {
  }

  /** Temperature multiplier: 2% per °C above 20 °C. */
  function FactorTemp(temperatura: real): (f: real)
    ensures temperatura == 20.0 ==> f == 1.0
    ensures f > 0.0 <==> temperatura > -30.0
  {
    1.0 + (temperatura - 20.0) * 0.02
  }

  /** Humidity multiplier: 1% per point of relative humidity above 50%. */
  function FactorHum(humedad: real): (f: real)
    ensures humedad == 50.0 ==> f == 1.0
    ensures f > 0.0 <==> humedad > -50.0
  {
    1.0 + (humedad - 50.0) * 0.01
  }

  /** Thermal damage at time t before clamping. */
  function GdcSinLimite(temperatura: real, gdcIni: real, t: real): real {
    gdcIni + EcuacionDanoGrano(t) * FactorTemp(temperatura)
  }

  /** Fungal damage at time t before clamping: 60% of the base curve, scaled by humidity. */
  function GdhSinLimite(humedad: real, gdhIni: real, t: real): real {
    gdhIni + EcuacionDanoGrano(t) * 0.6 * FactorHum(humedad)
  }

  /** Simulated thermal damage at time t, clamped to [0, 100]. */
  function GdcPunto(temperatura: real, gdcIni: real, t: real): (g: real)
    ensures 0.0 <= g <= 100.0
    ensures 0.0 <= GdcSinLimite(temperatura, gdcIni, t) <= 100.0 ==> g == GdcSinLimite(temperatura, gdcIni, t)
    ensures GdcSinLimite(temperatura, gdcIni, t) > 100.0 ==> g == 100.0
    ensures GdcSinLimite(temperatura, gdcIni, t) < 0.0 ==> g == 0.0
  {
    Max(0.0, Min(GdcSinLimite(temperatura, gdcIni, t), 100.0))
  }

  /** Simulated fungal damage at time t, clamped to [0, 50]. */
  function GdhPunto(humedad: real, gdhIni: real, t: real): (g: real)
    ensures 0.0 <= g <= 50.0
    ensures 0.0 <= GdhSinLimite(humedad, gdhIni, t) <= 50.0 ==> g == GdhSinLimite(humedad, gdhIni, t)
    ensures GdhSinLimite(humedad, gdhIni, t) > 50.0 ==> g == 50.0
    ensures GdhSinLimite(humedad, gdhIni, t) < 0.0 ==> g == 0.0
  {
    Max(0.0, Min(GdhSinLimite(humedad, gdhIni, t), 50.0))
  }

  /** The GDC loop: one clamped point per sample time, each from its own time alone. */
  method EvolucionGdc(temperatura: real, gdcIni: real, tiempos: seq<real>) returns (gdcEvol: seq<real>)
    ensures |gdcEvol| == |tiempos|
    ensures forall i :: 0 <= i < |tiempos| ==> gdcEvol[i] == GdcPunto(temperatura, gdcIni, tiempos[i])
  {
    var factorTemp := 1.0 + (temperatura - 20.0) * 0.02;
    gdcEvol := [];
    for i := 0 to |tiempos|
      invariant |gdcEvol| == i
      invariant forall k :: 0 <= k < i ==> gdcEvol[k] == GdcPunto(temperatura, gdcIni, tiempos[k])
    {
      var danoBase := EcuacionDanoGrano(tiempos[i]);
      var danoAjustado := danoBase * factorTemp;
      var gdcFinal := Min(gdcIni + danoAjustado, 100.0);
      gdcEvol := gdcEvol + [Max(0.0, gdcFinal)];
    }
  }

  /** The GDH loop: likewise, from 60% of the base curve scaled by humidity. */
  method EvolucionGdh(humedad: real, gdhIni: real, tiempos: seq<real>) returns (gdhEvol: seq<real>)
    ensures |gdhEvol| == |tiempos|
    ensures forall i :: 0 <= i < |tiempos| ==> gdhEvol[i] == GdhPunto(humedad, gdhIni, tiempos[i])
  {
    var factorHum := 1.0 + (humedad - 50.0) * 0.01;
    gdhEvol := [];
    for i := 0 to |tiempos|
      invariant |gdhEvol| == i
      invariant forall k :: 0 <= k < i ==> gdhEvol[k] == GdhPunto(humedad, gdhIni, tiempos[k])
    {
      var danoHongosBase := EcuacionDanoGrano(tiempos[i]) * 0.6;
      var danoHongosAjustado := danoHongosBase * factorHum;
      var gdhFinal := Min(gdhIni + danoHongosAjustado, 50.0);
      gdhEvol := gdhEvol + [Max(0.0, gdhFinal)];
    }
  }

  /** GDC, GDH and GDT every half month over `meses` months of storage. The four
      series are aligned; each point is computed from its own time alone (clamping
      one point never affects another); GDC stays in [0, 100], GDH in [0, 50], and
      GDT is their sum. */
  method SimularEvolucionTemporal(temperatura: real, humedad: real, gdcIni: real, gdhIni: real, meses: nat)
    returns (tiempos: seq<real>, gdcEvol: seq<real>, gdhEvol: seq<real>, gdtEvol: seq<real>)
    ensures tiempos == Tiempos(meses)
    ensures |gdcEvol| == |tiempos| && |gdhEvol| == |tiempos| && |gdtEvol| == |tiempos|
    ensures forall i :: 0 <= i < |tiempos| ==> gdcEvol[i] == GdcPunto(temperatura, gdcIni, tiempos[i])
    ensures forall i :: 0 <= i < |tiempos| ==> gdhEvol[i] == GdhPunto(humedad, gdhIni, tiempos[i])
    ensures forall i :: 0 <= i < |tiempos| ==> gdtEvol[i] == gdcEvol[i] + gdhEvol[i]
    ensures forall i :: 0 <= i < |tiempos| ==> 0.0 <= gdcEvol[i] <= 100.0 && 0.0 <= gdhEvol[i] <= 50.0
  {
    tiempos := Tiempos(meses);
    gdcEvol := EvolucionGdc(temperatura, gdcIni, tiempos);
    gdhEvol := EvolucionGdh(humedad, gdhIni, tiempos);
    gdtEvol := seq(|gdcEvol|, i requires 0 <= i < |gdcEvol| => gdcEvol[i] + gdhEvol[i]);
  }
}
