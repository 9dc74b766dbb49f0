/**
 * The acidity model page: oil acidity (mg KOH/g) as a function of grain
 * degradation, `A₀ + D·α·Fₜ` capped at 5.0, and its four-tier quality table.
 */
module AcidityPage {
  import opened Numeric
  import Tiers

  /** The sidebar's ranges: base acidity, increment factor, temperature (°C) and
      temperature effect. */
  predicate EnRangosSliders(acidezBase: real, factorAcidez: real, temperatura: real, factorTemp: real)
  {
    && 0.1 <= acidezBase <= 1.0 && 1.0 <= factorAcidez <= 5.0
    && 15.0 <= temperatura <= 40.0 && 0.1 <= factorTemp <= 1.0
  }

  /** Temperature effect relative to 20 °C, in hundredths; at least 0.95 over the
      sliders' ranges, hence positive. */
  function FactorTemperatura(temperatura: real, factorTemp: real): (f: real)
    ensures temperatura == 20.0 ==> f == 1.0
    ensures 15.0 <= temperatura <= 40.0 && 0.0 <= factorTemp <= 1.0 ==> f >= 0.95
  {
    ProductoNoNegativo(temperatura - 15.0, factorTemp);
    1.0 + (temperatura - 20.0) * factorTemp * 0.01
  }

  /** The law before the cap. */
  function AcidezSinLimite(degradacion: real, acidezBase: real, factorAcidez: real,
                           temperatura: real, factorTemp: real): real
  {
    acidezBase + degradacion * factorAcidez * FactorTemperatura(temperatura, factorTemp)
  }

  /** Acidity for a degradation fraction: never above 5.0; the uncapped law wherever
      that stays within the cap, and the cap itself beyond it; the base acidity
      itself when nothing is degraded. */
  function ModeloAcidezCientifico(degradacion: real, acidezBase: real, factorAcidez: real,
                                  temperatura: real, factorTemp: real): (a: real)
    ensures a <= 5.0
    ensures AcidezSinLimite(degradacion, acidezBase, factorAcidez, temperatura, factorTemp) <= 5.0
            ==> a == AcidezSinLimite(degradacion, acidezBase, factorAcidez, temperatura, factorTemp)
    ensures AcidezSinLimite(degradacion, acidezBase, factorAcidez, temperatura, factorTemp) >= 5.0 ==> a == 5.0
    ensures degradacion == 0.0 && acidezBase <= 5.0 ==> a == acidezBase
  {
    var tempRef := 20.0;
    var factorTempEfecto := 1.0 + (temperatura - tempRef) * factorTemp * 0.01;
    var incrementoAcidez := degradacion * factorAcidez * factorTempEfecto;
    var acidezTotal := acidezBase + incrementoAcidez;
    Min(acidezTotal, 5.0)
  }

  /** Over the sliders' ranges, more degradation never lowers acidity. */
  lemma {:induction false} MonotonaEnDegradacion(d1: real, d2: real, acidezBase: real, factorAcidez: real,
                                                 temperatura: real, factorTemp: real)
    requires EnRangosSliders(acidezBase, factorAcidez, temperatura, factorTemp)
    requires d1 <= d2
    ensures ModeloAcidezCientifico(d1, acidezBase, factorAcidez, temperatura, factorTemp)
         <= ModeloAcidezCientifico(d2, acidezBase, factorAcidez, temperatura, factorTemp)
  {
    var ft := FactorTemperatura(temperatura, factorTemp);
    ProductoNoNegativo(factorAcidez, ft);
    ProductoNoNegativo(d2 - d1, factorAcidez * ft);
    assert AcidezSinLimite(d2, acidezBase, factorAcidez, temperatura, factorTemp)
         - AcidezSinLimite(d1, acidezBase, factorAcidez, temperatura, factorTemp)
        == (d2 - d1) * (factorAcidez * ft);
  }

  /** Over the sliders' ranges and for a non-negative degradation, a more sensitive
      grain (larger increment factor) never has lower acidity. */
  lemma {:induction false} MonotonaEnFactor(degradacion: real, acidezBase: real, alfa1: real, alfa2: real,
                                            temperatura: real, factorTemp: real)
    requires EnRangosSliders(acidezBase, alfa1, temperatura, factorTemp)
    requires EnRangosSliders(acidezBase, alfa2, temperatura, factorTemp)
    requires 0.0 <= degradacion && alfa1 <= alfa2
    ensures ModeloAcidezCientifico(degradacion, acidezBase, alfa1, temperatura, factorTemp)
         <= ModeloAcidezCientifico(degradacion, acidezBase, alfa2, temperatura, factorTemp)
  {
    var ft := FactorTemperatura(temperatura, factorTemp);
    ProductoNoNegativo(degradacion, ft);
    ProductoNoNegativo(alfa2 - alfa1, degradacion * ft);
    assert AcidezSinLimite(degradacion, acidezBase, alfa2, temperatura, factorTemp)
         - AcidezSinLimite(degradacion, acidezBase, alfa1, temperatura, factorTemp)
        == (alfa2 - alfa1) * (degradacion * ft);
  }

  /** The `incremento` column of the results table, `acidez - acidez_base`, lies in
      [0, 5 - acidez_base] over the sliders' ranges for a non-negative degradation. */
  lemma IncrementoAcotado(degradacion: real, acidezBase: real, factorAcidez: real,
                          temperatura: real, factorTemp: real)
    requires EnRangosSliders(acidezBase, factorAcidez, temperatura, factorTemp)
    requires 0.0 <= degradacion
    ensures var incremento := ModeloAcidezCientifico(degradacion, acidezBase, factorAcidez, temperatura, factorTemp)
                              - acidezBase;
            0.0 <= incremento <= 5.0 - acidezBase
  {
    MonotonaEnDegradacion(0.0, degradacion, acidezBase, factorAcidez, temperatura, factorTemp);
  }

  /** The acidity cut points: below 1.0 excellent, below 2.0 good, below 3.0 moderate. */
  const CortesAcidez: seq<real> := [1.0, 2.0, 3.0]

  /** The quality tier shared by the results table and the calculator panel. */
  function CalidadAcidez(acidez: real): (g: Tiers.Grado)
    ensures g.Severidad() == Tiers.Rango(CortesAcidez, acidez, true)
  {
    Tiers.RangoTres(1.0, 2.0, 3.0, acidez, true);
    if acidez < 1.0 then Tiers.Excelente
    else if acidez < 2.0 then Tiers.Buena
    else if acidez < 3.0 then Tiers.Moderada
    else Tiers.Critica
  }

  /** Higher acidity never gives a better tier. */
  lemma {:induction false} CalidadAcidezMonotona(a1: real, a2: real)
    requires a1 <= a2
    ensures CalidadAcidez(a1).Severidad() <= CalidadAcidez(a2).Severidad()
  {
    Tiers.RangoMonotono(CortesAcidez, a1, a2, true);
  }

  /** Over the sliders' ranges, more degradation never gives a better acidity tier. */
  lemma CalidadEmpeoraConDegradacion(d1: real, d2: real, acidezBase: real, factorAcidez: real,
                                     temperatura: real, factorTemp: real)
    requires EnRangosSliders(acidezBase, factorAcidez, temperatura, factorTemp)
    requires d1 <= d2
    ensures CalidadAcidez(ModeloAcidezCientifico(d1, acidezBase, factorAcidez, temperatura, factorTemp)).Severidad()
         <= CalidadAcidez(ModeloAcidezCientifico(d2, acidezBase, factorAcidez, temperatura, factorTemp)).Severidad()
  {
    MonotonaEnDegradacion(d1, d2, acidezBase, factorAcidez, temperatura, factorTemp);
    CalidadAcidezMonotona(ModeloAcidezCientifico(d1, acidezBase, factorAcidez, temperatura, factorTemp),
                          ModeloAcidezCientifico(d2, acidezBase, factorAcidez, temperatura, factorTemp));
  }
}
