/**
 * The degradation dashboard: a linear degradation law in storage days, the
 * degradation-based product, acidity and protein laws, and the verdicts it shows.
 */
module App {
  import opened Numeric
  import opened Productos
  import Tiers

  /** The sidebar's temperature (°C) and humidity (%) ranges. */
  predicate EnRangosSliders(temperatura: real, humedad: real) {
    15.0 <= temperatura <= 40.0 && 40.0 <= humedad <= 90.0
  }

  /** Degradation fraction after `tiempo` days: 0.001 per day, scaled by 5% per °C
      above 20 °C and 2% per point of humidity above 50%, capped at 0.95. */
  function CalcularDegradacion(temperatura: real, humedad: real, tiempo: real): (d: real)
    ensures d <= 0.95
    ensures tiempo == 0.0 ==> d == 0.0
    ensures EnRangosSliders(temperatura, humedad) && tiempo >= 0.0 ==> d >= 0.0
  {
    var factorTemp := 1.0 + (temperatura - 20.0) * 0.05;
    var factorHumedad := 1.0 + (humedad - 50.0) * 0.02;
    var degradacionBase := tiempo * 0.001;
    var degradacionTotal := degradacionBase * factorTemp * factorHumedad;
    ProductoNoNegativo(factorTemp, factorHumedad);
    ProductoNoNegativo(degradacionBase, factorTemp * factorHumedad);
    Min(degradacionTotal, 0.95)
  }

  /** Within the sliders' ranges degradation never decreases with storage time. */
  lemma {:induction false} DegradacionMonotona(temperatura: real, humedad: real, tiempo1: real, tiempo2: real)
    requires EnRangosSliders(temperatura, humedad)
    requires 0.0 <= tiempo1 <= tiempo2
    ensures CalcularDegradacion(temperatura, humedad, tiempo1) <= CalcularDegradacion(temperatura, humedad, tiempo2)
  {
    var factores := (1.0 + (temperatura - 20.0) * 0.05) * (1.0 + (humedad - 50.0) * 0.02);
    ProductoNoNegativo(1.0 + (temperatura - 20.0) * 0.05, 1.0 + (humedad - 50.0) * 0.02);
    var escala := 0.001 * factores;
    assert tiempo2 * escala - tiempo1 * escala == (tiempo2 - tiempo1) * escala;
  }

  /** How strongly degradation erodes each product. */
  function Sensibilidad(p: Producto): real {
    match p
    case AceiteDeSoya => 0.3
    case HarinaDeSoya => 0.5
    case ProteinaDeSoya => 0.7
    case Lecitina => 0.4
    case Biodiesel => 0.6
  }

  /** Quality of each product for a degradation fraction: every product is present;
      all are 1 for sound grain; over the reachable degradations [0, 0.95] each stays
      in [1 - 0.95 * 0.7, 1], the lower end being soy protein's. */
  function CalcularImpactoProductos(degradacion: real): (r: map<Producto, real>)
    ensures r.Keys == Todos
    ensures forall p :: p in r ==> r[p] == 1.0 - degradacion * Sensibilidad(p)
    ensures degradacion == 0.0 ==> forall p :: p in r ==> r[p] == 1.0
    ensures 0.0 <= degradacion <= 0.95 ==> forall p :: p in r ==> 1.0 - 0.95 * 0.7 <= r[p] <= 1.0
  {
    map[AceiteDeSoya := 1.0 - degradacion * 0.3,
        HarinaDeSoya := 1.0 - degradacion * 0.5,
        ProteinaDeSoya := 1.0 - degradacion * 0.7,
        Lecitina := 1.0 - degradacion * 0.4,
        Biodiesel := 1.0 - degradacion * 0.6]
  }

  /** More degradation never improves a product. */
  lemma ImpactoNoCreciente(d1: real, d2: real)
    requires d1 <= d2
    ensures forall p :: p in Todos ==> CalcularImpactoProductos(d2)[p] <= CalcularImpactoProductos(d1)[p]
  {
  }

  /** Acidity (mg KOH/g) from degradation: base 0.5 plus 2 per unit, at most 2.4 for
      any reachable degradation. */
  function CalcularAcidez(degradacion: real): (a: real)
    ensures degradacion >= 0.0 ==> a >= 0.5
    ensures degradacion <= 0.95 ==> a <= 2.4
    ensures a - 0.5 == 2.0 * degradacion
  {
    var acidezBase := 0.5;
    var incrementoAcidez := degradacion * 2.0;
    acidezBase + incrementoAcidez
  }

  /** Protein (%) from degradation: 40 minus 15 per unit, floored at 25; for any
      reachable degradation the floor is never reached. */
  function CalcularProteina(degradacion: real): (p: real)
    ensures p >= 25.0
    ensures degradacion >= 0.0 ==> p <= 40.0
    ensures 0.0 <= degradacion <= 0.95 ==> p == 40.0 - 15.0 * degradacion && p > 25.0
  {
    var proteinaBase := 40.0;
    var perdidaProteina := degradacion * 15.0;
    Max(proteinaBase - perdidaProteina, 25.0)
  }

  // ----- Verdicts -----

  /** The acidity status of the monthly calculator. */
  datatype EstadoAcidez = AcidezNormal | AcidezElevada | AcidezCritica {
    function Severidad(): nat {
      match this
      case AcidezNormal => 0
      case AcidezElevada => 1
      case AcidezCritica => 2
    }
  }

  /** Normal below 1.0, elevated below 2.0, critical from 2.0 up. */
  function EstadoDeAcidez(acidez: real): (e: EstadoAcidez)
    ensures e.Severidad() == Tiers.Rango([1.0, 2.0], acidez, true)
  {
    Tiers.RangoDos(1.0, 2.0, acidez, true);
    if acidez < 1.0 then AcidezNormal
    else if acidez < 2.0 then AcidezElevada
    else AcidezCritica
  }

  /** The protein status of the monthly calculator. */
  datatype EstadoProteina = ProteinaExcelente | ProteinaBuena | ProteinaReducida {
    function Severidad(): nat {
      match this
      case ProteinaExcelente => 0
      case ProteinaBuena => 1
      case ProteinaReducida => 2
    }
  }

  /** Excellent above 35, good above 30, reduced otherwise: strict comparisons, so
      exactly 35 is good and exactly 30 is reduced. */
  function EstadoDeProteina(proteina: real): (e: EstadoProteina)
    ensures e.Severidad() == 2 - Tiers.Rango([30.0, 35.0], proteina, false)
  {
    Tiers.RangoDos(30.0, 35.0, proteina, false);
    if proteina > 35.0 then ProteinaExcelente
    else if proteina > 30.0 then ProteinaBuena
    else ProteinaReducida
  }

  /** The quality column of the monthly results table: excellent below 0.1, good
      below 0.2, moderate below 0.4, critical otherwise. */
  function CalidadTabla(degradacion: real): (g: Tiers.Grado)
    ensures g.Severidad() == Tiers.Rango([0.1, 0.2, 0.4], degradacion, true)
  {
    Tiers.RangoTres(0.1, 0.2, 0.4, degradacion, true);
    if degradacion < 0.1 then Tiers.Excelente
    else if degradacion < 0.2 then Tiers.Buena
    else if degradacion < 0.4 then Tiers.Moderada
    else Tiers.Critica
  }

  /** The headline summary of the current degradation. */
  datatype ResumenDegradacion = CondicionesOptimas | DegradacionModerada | DegradacionCritica {
    function Severidad(): nat {
      match this
      case CondicionesOptimas => 0
      case DegradacionModerada => 1
      case DegradacionCritica => 2
    }
  }

  /** The summary uses its own cut set: optimal below 0.1, moderate below 0.3. */
  function Resumen(degradacion: real): (s: ResumenDegradacion)
    ensures s.Severidad() == Tiers.Rango([0.1, 0.3], degradacion, true)
  {
    Tiers.RangoDos(0.1, 0.3, degradacion, true);
    if degradacion < 0.1 then CondicionesOptimas
    else if degradacion < 0.3 then DegradacionModerada
    else DegradacionCritica
  }

  /** The summary and the table use different cut sets: the summary already reads
      critical while the table still reads moderate exactly on [0.3, 0.4), and the
      summary reads moderate while the table reads good exactly on [0.1, 0.2); so
      some degradation is rated differently by the two. Below 0.1 both read best. */
  lemma ResumenYTablaUsanCortesDistintos()
    ensures forall d :: (CalidadTabla(d) == Tiers.Moderada && Resumen(d) == DegradacionCritica) <==> 0.3 <= d < 0.4
    ensures forall d :: (CalidadTabla(d) == Tiers.Buena && Resumen(d) == DegradacionModerada) <==> 0.1 <= d < 0.2
    ensures exists d :: CalidadTabla(d) == Tiers.Moderada && Resumen(d) == DegradacionCritica
    ensures forall d :: d < 0.1 ==> CalidadTabla(d) == Tiers.Excelente && Resumen(d) == CondicionesOptimas
  {
    assert CalidadTabla(0.35) == Tiers.Moderada && Resumen(0.35) == DegradacionCritica;
  }
}
