/**
 * The soluble-protein model page: protein content (%) as a function of grain
 * degradation, `P₀ − D·α·Fₜ·(1 + 0.5·D)` floored at a minimum, and its four-tier
 * quality table.
 */
module ProteinPage {
  import opened Numeric
  import Tiers

  /** The sidebar's ranges: base protein, loss factor, temperature (°C), temperature
      effect and minimum protein. */
  predicate EnRangosSliders(proteinaBase: real, factorPerdida: real, temperatura: real, factorTemp: real,
                            proteinaMin: real)
  {
    && 35.0 <= proteinaBase <= 45.0 && 10.0 <= factorPerdida <= 25.0
    && 15.0 <= temperatura <= 40.0 && 0.1 <= factorTemp <= 1.0
    && 20.0 <= proteinaMin <= 30.0
  }

  /** Temperature effect relative to 20 °C, in hundredths; at least 0.95 over the
      sliders' ranges, hence positive. */
  function FactorTemperatura(temperatura: real, factorTemp: real): (f: real)
    ensures temperatura == 20.0 ==> f == 1.0
    ensures 15.0 <= temperatura <= 40.0 && 0.0 <= factorTemp <= 1.0 ==> f >= 0.95
  {
    ProductoNoNegativo(temperatura - 15.0, factorTemp);
    1.0 + (temperatura - 20.0) * factorTemp * 0.01
  }

  /** Protein lost to degradation before the floor is applied. */
  function PerdidaProteina(degradacion: real, factorPerdida: real, temperatura: real, factorTemp: real): real
  {
    degradacion * factorPerdida * FactorTemperatura(temperatura, factorTemp) * (1.0 + degradacion * 0.5)
  }

  /** Protein for a degradation fraction: never below the minimum; the unfloored law
      wherever that stays above the minimum, and the minimum itself below it; the
      base content itself when nothing is degraded. */
  function ModeloProteinaCientifico(degradacion: real, proteinaBase: real, factorPerdida: real,
                                    temperatura: real, factorTemp: real, proteinaMin: real): (p: real)
    ensures p >= proteinaMin
    ensures proteinaBase - PerdidaProteina(degradacion, factorPerdida, temperatura, factorTemp) >= proteinaMin
            ==> p == proteinaBase - PerdidaProteina(degradacion, factorPerdida, temperatura, factorTemp)
    ensures proteinaBase - PerdidaProteina(degradacion, factorPerdida, temperatura, factorTemp) <= proteinaMin
            ==> p == proteinaMin
    ensures degradacion == 0.0 && proteinaMin <= proteinaBase ==> p == proteinaBase
  {
    var tempRef := 20.0;
    var factorTempEfecto := 1.0 + (temperatura - tempRef) * factorTemp * 0.01;
    var perdidaProteina := degradacion * factorPerdida * factorTempEfecto * (1.0 + degradacion * 0.5);
    var proteinaTotal := proteinaBase - perdidaProteina;
    Max(proteinaTotal, proteinaMin)
  }

  /** Over the sliders' ranges the loss never decreases with a non-negative degradation. */
  lemma {:induction false} PerdidaMonotona(d1: real, d2: real, factorPerdida: real, temperatura: real, factorTemp: real)
    requires 10.0 <= factorPerdida <= 25.0 && 15.0 <= temperatura <= 40.0 && 0.1 <= factorTemp <= 1.0
    requires 0.0 <= d1 <= d2
    ensures 0.0 <= PerdidaProteina(d1, factorPerdida, temperatura, factorTemp)
                <= PerdidaProteina(d2, factorPerdida, temperatura, factorTemp)
  {
    var ft := FactorTemperatura(temperatura, factorTemp);
    var escala := factorPerdida * ft;
    ProductoNoNegativo(factorPerdida, ft);
    // loss(d) = escala · d · (1 + d/2), so the difference factors through (d2 − d1).
    var paso := (d2 - d1) * (1.0 + 0.5 * (d1 + d2));
    ProductoNoNegativo(d2 - d1, 1.0 + 0.5 * (d1 + d2));
    ProductoNoNegativo(escala, paso);
    var inicio := d1 * (1.0 + d1 * 0.5);
    ProductoNoNegativo(d1, 1.0 + d1 * 0.5);
    ProductoNoNegativo(escala, inicio);
    assert PerdidaProteina(d1, factorPerdida, temperatura, factorTemp) == escala * inicio;
    assert PerdidaProteina(d2, factorPerdida, temperatura, factorTemp) == escala * inicio + escala * paso;
  }

  /** Over the sliders' ranges, protein never increases with a non-negative degradation. */
  lemma NoCrecienteEnDegradacion(d1: real, d2: real, proteinaBase: real, factorPerdida: real,
                                 temperatura: real, factorTemp: real, proteinaMin: real)
    requires EnRangosSliders(proteinaBase, factorPerdida, temperatura, factorTemp, proteinaMin)
    requires 0.0 <= d1 <= d2
    ensures ModeloProteinaCientifico(d2, proteinaBase, factorPerdida, temperatura, factorTemp, proteinaMin)
         <= ModeloProteinaCientifico(d1, proteinaBase, factorPerdida, temperatura, factorTemp, proteinaMin)
  {
    PerdidaMonotona(d1, d2, factorPerdida, temperatura, factorTemp);
  }

  /** The `perdida` column of the results table, `proteina_base - proteina`, lies in
      [0, proteina_base - proteina_min] over the sliders' ranges. */
  lemma PerdidaAcotada(degradacion: real, proteinaBase: real, factorPerdida: real,
                       temperatura: real, factorTemp: real, proteinaMin: real)
    requires EnRangosSliders(proteinaBase, factorPerdida, temperatura, factorTemp, proteinaMin)
    requires 0.0 <= degradacion
    ensures var perdida := proteinaBase
                           - ModeloProteinaCientifico(degradacion, proteinaBase, factorPerdida, temperatura, factorTemp, proteinaMin);
            0.0 <= perdida <= proteinaBase - proteinaMin
  {
    PerdidaMonotona(0.0, degradacion, factorPerdida, temperatura, factorTemp);
  }

  /** The protein cut points, lower-inclusive: 30 moderate, 35 good, 38 excellent. */
  const CortesProteina: seq<real> := [30.0, 35.0, 38.0]

  /** The quality tier shared by the results table and the calculator panel: each cut
      passed improves the tier by one. */
  function CalidadProteina(proteina: real): (g: Tiers.Grado)
    ensures g.Severidad() == 3 - Tiers.Rango(CortesProteina, proteina, true)
  {
    Tiers.RangoTres(30.0, 35.0, 38.0, proteina, true);
    if proteina >= 38.0 then Tiers.Excelente
    else if proteina >= 35.0 then Tiers.Buena
    else if proteina >= 30.0 then Tiers.Moderada
    else Tiers.Critica
  }

  /** Lower protein never gives a better tier. */
  lemma {:induction false} CalidadProteinaMonotona(p1: real, p2: real)
    requires p1 <= p2
    ensures CalidadProteina(p2).Severidad() <= CalidadProteina(p1).Severidad()
  {
    Tiers.RangoMonotono(CortesProteina, p1, p2, true);
  }

  /** Over the sliders' ranges, more degradation never gives a better protein tier. */
  lemma CalidadEmpeoraConDegradacion(d1: real, d2: real, proteinaBase: real, factorPerdida: real,
                                     temperatura: real, factorTemp: real, proteinaMin: real)
    requires EnRangosSliders(proteinaBase, factorPerdida, temperatura, factorTemp, proteinaMin)
    requires 0.0 <= d1 <= d2
    ensures CalidadProteina(ModeloProteinaCientifico(d1, proteinaBase, factorPerdida, temperatura, factorTemp, proteinaMin)).Severidad()
         <= CalidadProteina(ModeloProteinaCientifico(d2, proteinaBase, factorPerdida, temperatura, factorTemp, proteinaMin)).Severidad()
  {
    NoCrecienteEnDegradacion(d1, d2, proteinaBase, factorPerdida, temperatura, factorTemp, proteinaMin);
    CalidadProteinaMonotona(ModeloProteinaCientifico(d2, proteinaBase, factorPerdida, temperatura, factorTemp, proteinaMin),
                            ModeloProteinaCientifico(d1, proteinaBase, factorPerdida, temperatura, factorTemp, proteinaMin));
  }
}
