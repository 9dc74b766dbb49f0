/**
 * The main dashboard script: its own copies of the estimators (calling the model
 * positionally, with no retry), of the product-impact calculator and of the
 * temporal simulator, which here also derives acidity and protein series; and the
 * three-tier GDT verdict with the recommendation that follows it.
 */
module SoyaInsights {
  import opened Results
  import opened Numeric
  import opened Predictor
  import opened Productos
  import Tiers
  import ModelService
  import Calculations

  /** Total damage from the sidebar sliders. */
  function Gdt(gdc: real, gdh: real): (gdt: real)
    ensures 0.0 <= gdc <= 100.0 && 0.0 <= gdh <= 50.0 ==> 0.0 <= gdt <= 150.0
    ensures gdt - gdh == gdc
  {
    gdc + gdh
  }

  /** Acidity from (GDC, GDH): the service's fallback formula without a model,
      otherwise a single positional `predict` call whose error reaches the caller. */
  function CalcularAcidezReal(gdc: real, gdh: real, model: Model): (r: Result<real, Error>)
    ensures model.Absent? ==> r == Ok(ModelService.FallbackAcidez(gdc, gdh))
    ensures model.Present? ==> r == PredictFirst(model.predict, ModelService.ArregloAcidez(gdc, gdh))
  {
    match model
    case Absent =>
      var acidezBase := 0.5;
      var incrementoAcidez := (gdc + gdh) * 0.02;
      Ok(acidezBase + incrementoAcidez)
    case Present(predict) =>
      PredictFirst(predict, Positional([[gdc, gdh]]))
  }

  /** Soluble protein from GDT, with the same structure. */
  function CalcularProteinaReal(gdt: real, model: Model): (r: Result<real, Error>)
    ensures model.Absent? ==> r == Ok(ModelService.FallbackProteina(gdt))
    ensures model.Present? ==> r == PredictFirst(model.predict, ModelService.ArregloProteina(gdt))
  {
    match model
    case Absent =>
      var proteinaBase := 70.0;
      var perdidaProteina := gdt * 0.3;
      Ok(Max(proteinaBase - perdidaProteina, 30.0))
    case Present(predict) =>
      PredictFirst(predict, Positional([[gdt]]))
  }

  /** The script and the service agree whenever the service's named-frame attempt is
      not the one that answers: always without a model, and whenever the model
      refuses the named frame. */
  lemma EstimadoresCoincidenConServicio(gdc: real, gdh: real, gdt: real, model: Model)
    ensures model.Absent? || PredictFirst(model.predict, ModelService.FrameAcidez(gdc, gdh)).Err? ==>
              CalcularAcidezReal(gdc, gdh, model) == ModelService.PredictAcidez(gdc, gdh, model)
    ensures model.Absent? || PredictFirst(model.predict, ModelService.FrameProteina(gdt)).Err? ==>
              CalcularProteinaReal(gdt, model) == ModelService.PredictProteina(gdt, model)
  {
  }

  /** In the acidity-versus-GDT sweep each GDT value is split 70/30 into GDC/GDH,
      so without a model the curve is the straight line 0.5 + 0.02 GDT. */
  lemma BarridoAcidez(gdtVal: real)
    ensures CalcularAcidezReal(gdtVal * 0.7, gdtVal * 0.3, Absent) == Ok(0.5 + 0.02 * gdtVal)
  {
  }

  /** The script's copy of the product-impact calculator returns the same dictionary
      as `Calculations.calcular_impacto_productos`. */
  function CalcularImpactoProductos(gdt: real): (r: map<Producto, real>)
    ensures r == Calculations.CalcularImpactoProductos(gdt)
  {
    var factorCalidad := Max(0.05, 1.0 - gdt / 100.0);
    map[AceiteDeSoya := factorCalidad * 0.9,
        HarinaDeSoya := factorCalidad * 0.85,
        ProteinaDeSoya := factorCalidad * 0.8,
        Lecitina := factorCalidad * 0.95,
        Biodiesel := factorCalidad * 0.75]
  }

  /** Remaining quality `max(0, 100 - gdt)`: never negative, and exactly 100 - gdt
      while GDT does not exceed 100. */
  function CalidadRemanente(gdt: real): (c: real)
    ensures c >= 0.0
    ensures c >= 100.0 - gdt
    ensures gdt <= 100.0 ==> c == 100.0 - gdt
  {
    Max(0.0, 100.0 - gdt)
  }

  // ----- GDT verdict -----

  /** The three GDT quality tiers. */
  datatype NivelGdt = Excelente | Moderada | Critica {
    function Severidad(): nat {
      match this
      case Excelente => 0
      case Moderada => 1
      case Critica => 2
    }
  }

  /** The GDT cut points: below 15 excellent, below 35 moderate. */
  const CortesGdt: seq<real> := [15.0, 35.0]

  /** The summary verdict: half-open, lower-inclusive tiers over `CortesGdt`. */
  function NivelCalidad(gdt: real): (n: NivelGdt)
    ensures n.Severidad() == Tiers.Rango(CortesGdt, gdt, true)
  {
    Tiers.RangoDos(15.0, 35.0, gdt, true);
    if gdt < 15.0 then Excelente
    else if gdt < 35.0 then Moderada
    else Critica
  }

  /** The summary verdict at its boundaries, and for the reference sample
      GDC 25 / GDH 10, which sits exactly on the critical boundary. */
  lemma FronterasNivelCalidad()
    ensures NivelCalidad(14.999) == Excelente && NivelCalidad(15.0) == Moderada
    ensures NivelCalidad(34.999) == Moderada && NivelCalidad(35.0) == Critica
    ensures NivelCalidad(Gdt(25.0, 10.0)) == Critica
    ensures CalcularAcidezReal(25.0, 10.0, Absent) == Ok(1.2)
    ensures CalcularProteinaReal(Gdt(25.0, 10.0), Absent) == Ok(59.5)
  {
  }

  /** More damage never gives a better verdict. */
  lemma {:induction false} NivelCalidadMonotono(gdt1: real, gdt2: real)
    requires gdt1 <= gdt2
    ensures NivelCalidad(gdt1).Severidad() <= NivelCalidad(gdt2).Severidad()
  {
    Tiers.RangoMonotono(CortesGdt, gdt1, gdt2, true);
  }

  /** The recommendation shown at the end of the page. */
  datatype Recomendacion = MantenerCondiciones | ImplementarMejoras | AccionUrgente

  /** The recommendation follows the same cut points as the summary verdict. */
  function RecomendacionPorGdt(gdt: real): (rec: Recomendacion)
    ensures rec == MantenerCondiciones <==> NivelCalidad(gdt) == Excelente
    ensures rec == ImplementarMejoras <==> NivelCalidad(gdt) == Moderada
    ensures rec == AccionUrgente <==> NivelCalidad(gdt) == Critica
  {
    if gdt < 15.0 then MantenerCondiciones
    else if gdt < 35.0 then ImplementarMejoras
    else AccionUrgente
  }

  // ----- Temporal simulation with derived quality -----

  /** Acidity at every point of a (GDC, GDH) series; the first failing prediction
      aborts the whole list. */
  function SerieAcidez(gdc: seq<real>, gdh: seq<real>, model: Model): (r: Result<seq<real>, Error>)
    requires |gdc| == |gdh|
    ensures r.Ok? <==> forall i :: 0 <= i < |gdc| ==> CalcularAcidezReal(gdc[i], gdh[i], model).Ok?
    ensures r.Ok? ==>
              |r.value| == |gdc|
              && forall i :: 0 <= i < |gdc| ==> CalcularAcidezReal(gdc[i], gdh[i], model) == Ok(r.value[i])
    ensures r.Err? ==>
              exists i :: 0 <= i < |gdc|
                && (forall j :: 0 <= j < i ==> CalcularAcidezReal(gdc[j], gdh[j], model).Ok?)
                && CalcularAcidezReal(gdc[i], gdh[i], model) == Err(r.error)
  {
    if gdc == [] then Ok([])
    else
      match CalcularAcidezReal(gdc[0], gdh[0], model)
      case Err(e) => Err(e)
      case Ok(a) =>
        match SerieAcidez(gdc[1..], gdh[1..], model)
        case Err(e) => Err(e)
        case Ok(resto) => Ok([a] + resto)
  }

  /** Protein at every point of a GDT series, likewise. */
  function SerieProteina(gdt: seq<real>, model: Model): (r: Result<seq<real>, Error>)
    ensures r.Ok? <==> forall i :: 0 <= i < |gdt| ==> CalcularProteinaReal(gdt[i], model).Ok?
    ensures r.Ok? ==>
              |r.value| == |gdt|
              && forall i :: 0 <= i < |gdt| ==> CalcularProteinaReal(gdt[i], model) == Ok(r.value[i])
    ensures r.Err? ==>
              exists i :: 0 <= i < |gdt|
                && (forall j :: 0 <= j < i ==> CalcularProteinaReal(gdt[j], model).Ok?)
                && CalcularProteinaReal(gdt[i], model) == Err(r.error)
  {
    if gdt == [] then Ok([])
    else
      match CalcularProteinaReal(gdt[0], model)
      case Err(e) => Err(e)
      case Ok(p) =>
        match SerieProteina(gdt[1..], model)
        case Err(e) => Err(e)
        case Ok(resto) => Ok([p] + resto)
  }

  /** The script's GDC loop, with its own copy of the base curve: one clamped point
      per sample time, equal to the calculations module's point. */
  method EvolucionGdc(temperatura: real, gdcIni: real, tiempos: seq<real>) returns (gdcEvol: seq<real>)
    ensures |gdcEvol| == |tiempos|
    ensures forall i :: 0 <= i < |tiempos| ==> gdcEvol[i] == Calculations.GdcPunto(temperatura, gdcIni, tiempos[i])
  {
    var factorTemp := 1.0 + (temperatura - 20.0) * 0.02;
    gdcEvol := [];
    for i := 0 to |tiempos|
      invariant |gdcEvol| == i
      invariant forall k :: 0 <= k < i ==> gdcEvol[k] == Calculations.GdcPunto(temperatura, gdcIni, tiempos[k])
    {
      var t := tiempos[i];
      var danoBase := 0.0730 * t * t - 0.7741 * t + 14.8443;
      var danoAjustado := danoBase * factorTemp;
      var gdcFinal := Min(gdcIni + danoAjustado, 100.0);
      gdcEvol := gdcEvol + [Max(0.0, gdcFinal)];
    }
  }

  /** The script's GDH loop, likewise. */
  method EvolucionGdh(humedad: real, gdhIni: real, tiempos: seq<real>) returns (gdhEvol: seq<real>)
    ensures |gdhEvol| == |tiempos|
    ensures forall i :: 0 <= i < |tiempos| ==> gdhEvol[i] == Calculations.GdhPunto(humedad, gdhIni, tiempos[i])
  {
    var factorHum := 1.0 + (humedad - 50.0) * 0.01;
    gdhEvol := [];
    for i := 0 to |tiempos|
      invariant |gdhEvol| == i
      invariant forall k :: 0 <= k < i ==> gdhEvol[k] == Calculations.GdhPunto(humedad, gdhIni, tiempos[k])
    {
      var t := tiempos[i];
      var danoHongosBase := (0.0730 * t * t - 0.7741 * t + 14.8443) * 0.6;
      var danoHongosAjustado := danoHongosBase * factorHum;
      var gdhFinal := Min(gdhIni + danoHongosAjustado, 50.0);
      gdhEvol := gdhEvol + [Max(0.0, gdhFinal)];
    }
  }

  /** The simulated GDC points at the sample times of `meses` months. */
  function PuntosGdc(temperatura: real, gdcIni: real, meses: nat): (g: seq<real>)
    ensures |g| == |Calculations.Tiempos(meses)|
    ensures forall i :: 0 <= i < |g| ==> g[i] == Calculations.GdcPunto(temperatura, gdcIni, Calculations.Tiempos(meses)[i])
  {
    var ts := Calculations.Tiempos(meses);
    seq(|ts|, i requires 0 <= i < |ts| => Calculations.GdcPunto(temperatura, gdcIni, ts[i]))
  }

  /** The simulated GDH points, likewise. */
  function PuntosGdh(humedad: real, gdhIni: real, meses: nat): (g: seq<real>)
    ensures |g| == |Calculations.Tiempos(meses)|
    ensures forall i :: 0 <= i < |g| ==> g[i] == Calculations.GdhPunto(humedad, gdhIni, Calculations.Tiempos(meses)[i])
  {
    var ts := Calculations.Tiempos(meses);
    seq(|ts|, i requires 0 <= i < |ts| => Calculations.GdhPunto(humedad, gdhIni, ts[i]))
  }

  /** The simulated GDT points: GDC plus GDH at each sample time. */
  function PuntosGdt(temperatura: real, humedad: real, gdcIni: real, gdhIni: real, meses: nat): (g: seq<real>)
    ensures |g| == |Calculations.Tiempos(meses)|
    ensures forall i :: 0 <= i < |g| ==>
              g[i] == PuntosGdc(temperatura, gdcIni, meses)[i] + PuntosGdh(humedad, gdhIni, meses)[i]
  {
    var ts := Calculations.Tiempos(meses);
    seq(|ts|, i requires 0 <= i < |ts| =>
      Calculations.GdcPunto(temperatura, gdcIni, ts[i]) + Calculations.GdhPunto(humedad, gdhIni, ts[i]))
  }

  /** Series that agree with the simulated points index by index are those points. */
  lemma SonLosPuntos(temperatura: real, humedad: real, gdcIni: real, gdhIni: real, meses: nat,
                     gdc: seq<real>, gdh: seq<real>, gdt: seq<real>)
    requires |gdc| == |gdh| == |gdt| == |Calculations.Tiempos(meses)|
    requires forall i :: 0 <= i < |gdc| ==> gdc[i] == Calculations.GdcPunto(temperatura, gdcIni, Calculations.Tiempos(meses)[i])
    requires forall i :: 0 <= i < |gdh| ==> gdh[i] == Calculations.GdhPunto(humedad, gdhIni, Calculations.Tiempos(meses)[i])
    requires forall i :: 0 <= i < |gdt| ==> gdt[i] == gdc[i] + gdh[i]
    ensures gdc == PuntosGdc(temperatura, gdcIni, meses)
    ensures gdh == PuntosGdh(humedad, gdhIni, meses)
    ensures gdt == PuntosGdt(temperatura, humedad, gdcIni, gdhIni, meses)
  {
  }

  /** The six series the script plots. */
  datatype Evolucion = Evolucion(tiempos: seq<real>, gdc: seq<real>, gdh: seq<real>, gdt: seq<real>,
                                 acidez: seq<real>, proteina: seq<real>)

  /** The script's copy of the simulator. Its GDC, GDH and GDT series are the
      simulated points of `Calculations` at every sample time; acidity and protein
      are the series estimated from them point by point. It fails exactly when one
      of those two series fails, that is when the estimate of some point fails, so
      never without models; the error is then the acidity series' own, or failing
      that the protein series', each the error of its first failing point. */
  method SimularEvolucionTemporal(temperatura: real, humedad: real, gdcIni: real, gdhIni: real, meses: nat,
                                  modeloAcidez: Model, modeloProteina: Model)
    returns (r: Result<Evolucion, Error>)
    ensures modeloAcidez.Absent? && modeloProteina.Absent? ==> r.Ok?
    ensures r.Err? <==>
              || SerieAcidez(PuntosGdc(temperatura, gdcIni, meses), PuntosGdh(humedad, gdhIni, meses), modeloAcidez).Err?
              || SerieProteina(PuntosGdt(temperatura, humedad, gdcIni, gdhIni, meses), modeloProteina).Err?
    ensures r.Err? ==>
              var acidez := SerieAcidez(PuntosGdc(temperatura, gdcIni, meses), PuntosGdh(humedad, gdhIni, meses), modeloAcidez);
              r.error == if acidez.Err? then acidez.error
                         else SerieProteina(PuntosGdt(temperatura, humedad, gdcIni, gdhIni, meses), modeloProteina).error
    ensures r.Ok? ==>
              var e := r.value;
              && e.tiempos == Calculations.Tiempos(meses)
              && e.gdc == PuntosGdc(temperatura, gdcIni, meses)
              && e.gdh == PuntosGdh(humedad, gdhIni, meses)
              && e.gdt == PuntosGdt(temperatura, humedad, gdcIni, gdhIni, meses)
              && SerieAcidez(e.gdc, e.gdh, modeloAcidez) == Ok(e.acidez)
              && SerieProteina(e.gdt, modeloProteina) == Ok(e.proteina)
  {
    var tiempos := Calculations.Tiempos(meses);
    var gdcEvol := EvolucionGdc(temperatura, gdcIni, tiempos);
    var gdhEvol := EvolucionGdh(humedad, gdhIni, tiempos);
    var gdtEvol := seq(|gdcEvol|, i requires 0 <= i < |gdcEvol| => gdcEvol[i] + gdhEvol[i]);
    SonLosPuntos(temperatura, humedad, gdcIni, gdhIni, meses, gdcEvol, gdhEvol, gdtEvol);
    var acidezEvol := SerieAcidez(gdcEvol, gdhEvol, modeloAcidez);
    if acidezEvol.Err? {
      return Err(acidezEvol.error);
    }
    var proteinaEvol := SerieProteina(gdtEvol, modeloProteina);
    if proteinaEvol.Err? {
      return Err(proteinaEvol.error);
    }
    r := Ok(Evolucion(tiempos, gdcEvol, gdhEvol, gdtEvol, acidezEvol.value, proteinaEvol.value));
  }
}
