/**
 * The degradation model page: degradation `D = k · t · Fₜ · Fₕ` after t days of
 * storage, with sensitivities chosen on sliders, capped at 0.95, and its verdict table.
 */
module DegradationPage {
  import opened Numeric
  import Tiers
  import App

  /** The sidebar's ranges: temperature (°C), humidity (%), temperature and humidity
      sensitivities, and the base rate per day. */
  predicate EnRangosSliders(temperatura: real, humedad: real, factorTemp: real, factorHumedad: real,
                            constanteBase: real)
  {
    && 15.0 <= temperatura <= 40.0 && 40.0 <= humedad <= 90.0
    && 0.01 <= factorTemp <= 0.10 && 0.005 <= factorHumedad <= 0.05
    && 0.0005 <= constanteBase <= 0.002
  }

  /** Temperature effect relative to 20 °C; at least 0.5 over the sliders' ranges. */
  function FactorTemperatura(temperatura: real, factorTemp: real): (f: real)
    ensures temperatura == 20.0 ==> f == 1.0
    ensures 15.0 <= temperatura <= 40.0 && 0.0 <= factorTemp <= 0.10 ==> f >= 0.5
  {
    ProductoNoNegativo(temperatura - 15.0, factorTemp);
    1.0 + (temperatura - 20.0) * factorTemp
  }

  /** Humidity effect relative to 50%; at least 0.5 over the sliders' ranges. */
  function FactorHumedad(humedad: real, factorHumedad: real): (f: real)
    ensures humedad == 50.0 ==> f == 1.0
    ensures 40.0 <= humedad <= 90.0 && 0.0 <= factorHumedad <= 0.05 ==> f >= 0.5
  {
    ProductoNoNegativo(humedad - 40.0, factorHumedad);
    1.0 + (humedad - 50.0) * factorHumedad
  }

  /** The law before the cap. */
  function DegradacionSinLimite(temperatura: real, humedad: real, tiempoDias: real,
                                factorTemp: real, factorHumedad: real, constanteBase: real): real
  {
    constanteBase * tiempoDias * FactorTemperatura(temperatura, factorTemp) * FactorHumedad(humedad, factorHumedad)
  }

  /** Degradation fraction after `tiempoDias` days: never above 0.95; the uncapped
      law wherever that stays within the cap, and the cap itself beyond it; nothing
      on day 0; never negative over the sliders' ranges. */
  function ModeloDegradacionCientifico(temperatura: real, humedad: real, tiempoDias: real,
                                       factorTemp: real, factorHumedad: real, constanteBase: real): (d: real)
    ensures d <= 0.95
    ensures DegradacionSinLimite(temperatura, humedad, tiempoDias, factorTemp, factorHumedad, constanteBase) <= 0.95
            ==> d == DegradacionSinLimite(temperatura, humedad, tiempoDias, factorTemp, factorHumedad, constanteBase)
    ensures DegradacionSinLimite(temperatura, humedad, tiempoDias, factorTemp, factorHumedad, constanteBase) >= 0.95
            ==> d == 0.95
    ensures tiempoDias == 0.0 ==> d == 0.0
    ensures EnRangosSliders(temperatura, humedad, factorTemp, factorHumedad, constanteBase) && tiempoDias >= 0.0
            ==> d >= 0.0
  {
    var tempRef := 20.0;
    var humRef := 50.0;
    var factorTempEfecto := 1.0 + (temperatura - tempRef) * factorTemp;
    var factorHumedadEfecto := 1.0 + (humedad - humRef) * factorHumedad;
    var degradacionBase := constanteBase * tiempoDias;
    var degradacionTotal := degradacionBase * factorTempEfecto * factorHumedadEfecto;
    assert factorTempEfecto == FactorTemperatura(temperatura, factorTemp);
    assert factorHumedadEfecto == FactorHumedad(humedad, factorHumedad);
    ProductoNoNegativo(constanteBase, tiempoDias);
    ProductoNoNegativo(factorTempEfecto, factorHumedadEfecto);
    ProductoNoNegativo(degradacionBase, factorTempEfecto * factorHumedadEfecto);
    Min(degradacionTotal, 0.95)
  }

  /** Over the sliders' ranges degradation never decreases with storage time. */
  lemma {:induction false} DegradacionMonotonaEnDias(temperatura: real, humedad: real, dias1: real, dias2: real,
                                                     factorTemp: real, factorHumedad: real, constanteBase: real)
    requires EnRangosSliders(temperatura, humedad, factorTemp, factorHumedad, constanteBase)
    requires 0.0 <= dias1 <= dias2
    ensures ModeloDegradacionCientifico(temperatura, humedad, dias1, factorTemp, factorHumedad, constanteBase)
         <= ModeloDegradacionCientifico(temperatura, humedad, dias2, factorTemp, factorHumedad, constanteBase)
  {
    var ft := FactorTemperatura(temperatura, factorTemp);
    var fh := FactorHumedad(humedad, factorHumedad);
    ProductoNoNegativo(ft, fh);
    ProductoNoNegativo(constanteBase, ft * fh);
    var escala := constanteBase * (ft * fh);
    ProductoNoNegativo(dias2 - dias1, escala);
    assert DegradacionSinLimite(temperatura, humedad, dias2, factorTemp, factorHumedad, constanteBase)
         - DegradacionSinLimite(temperatura, humedad, dias1, factorTemp, factorHumedad, constanteBase)
        == (dias2 - dias1) * escala;
  }

  /** With the sliders at their defaults (sensitivities 0.05 and 0.02, base rate
      0.001 per day) the page's law is the main dashboard's. */
  lemma CoincideConElTablero(temperatura: real, humedad: real, tiempoDias: real)
    ensures ModeloDegradacionCientifico(temperatura, humedad, tiempoDias, 0.05, 0.02, 0.001)
         == App.CalcularDegradacion(temperatura, humedad, tiempoDias)
  {
  }

  /** The quality column `1 - degradation` of the results table never drops below 5%. */
  lemma CalidadAlMenosCincoPorCiento(temperatura: real, humedad: real, tiempoDias: real,
                                     factorTemp: real, factorHumedad: real, constanteBase: real)
    ensures 1.0 - ModeloDegradacionCientifico(temperatura, humedad, tiempoDias, factorTemp, factorHumedad, constanteBase)
         >= 0.05
  {
  }

  /** The degradation cut points: below 0.1 excellent, below 0.2 good, below 0.4 moderate. */
  const CortesDegradacion: seq<real> := [0.1, 0.2, 0.4]

  /** The `Estado` column of the results table, half-open over `CortesDegradacion`,
      matching the bands the page documents (10%, 20%, 40%). */
  function Estado(degradacion: real): (g: Tiers.Grado)
    ensures g.Severidad() == Tiers.Rango(CortesDegradacion, degradacion, true)
  {
    Tiers.RangoTres(0.1, 0.2, 0.4, degradacion, true);
    if degradacion < 0.1 then Tiers.Excelente
    else if degradacion < 0.2 then Tiers.Buena
    else if degradacion < 0.4 then Tiers.Moderada
    else Tiers.Critica
  }

  /** The `Estado` verdict and the main dashboard's table column are the same. */
  lemma EstadoComoElTablero(degradacion: real)
    ensures Estado(degradacion) == App.CalidadTabla(degradacion)
  {
  }

  /** More degradation never gives a better `Estado`. */
  lemma {:induction false} EstadoMonotono(d1: real, d2: real)
    requires d1 <= d2
    ensures Estado(d1).Severidad() <= Estado(d2).Severidad()
  {
    Tiers.RangoMonotono(CortesDegradacion, d1, d2, true);
  }
}
