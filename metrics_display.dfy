/**
 * The value decisions of the metrics panel: the number each metric shows, whether
 * a delta is shown beside it and with what magnitude, and the summary tier. The
 * rendering itself is not modelled.
 */
module MetricsDisplay {
  import opened Results
  import opened Constants
  import SoyaInsights
  import ModelService

  /** What a metric shows: its value and, optionally, the magnitude of its delta. */
  datatype Metrica = Metrica(valor: real, delta: Option<real>)

  /** Total damage, with a delta over the excellent limit only when it is exceeded. */
  function MetricaGdt(gdt: real): (m: Metrica)
    ensures m.valor == gdt
    ensures m.delta.Some? <==> gdt > GdtExcelente
    ensures m.delta.Some? ==> m.delta.value == gdt - GdtExcelente && m.delta.value > 0.0
  {
    Metrica(gdt, if gdt > GdtExcelente then Some(gdt - GdtExcelente) else None)
  }

  /** Remaining quality, never negative, with a delta over the reference only while
      the damage is still excellent; that delta is then positive. */
  function MetricaCalidadRemanente(gdt: real): (m: Metrica)
    ensures m.valor == SoyaInsights.CalidadRemanente(gdt) && m.valor >= 0.0
    ensures m.delta.Some? <==> gdt < GdtExcelente
    ensures m.delta.Some? ==> m.delta.value == (100.0 - gdt) - CalidadRemanenteBase && m.delta.value > 0.0
  {
    var calidadRemanente := SoyaInsights.CalidadRemanente(gdt);
    Metrica(calidadRemanente,
            if gdt < GdtExcelente then Some((100.0 - gdt) - CalidadRemanenteBase) else None)
  }

  /** Acidity, with a positive delta over the base value only when it is exceeded. */
  function MetricaAcidez(acidez: real): (m: Metrica)
    ensures m.valor == acidez
    ensures m.delta.Some? <==> acidez > AcidezBase
    ensures m.delta.Some? ==> m.delta.value == acidez - AcidezBase && m.delta.value > 0.0
  {
    Metrica(acidez, if acidez > AcidezBase then Some(acidez - AcidezBase) else None)
  }

  /** Soluble protein, with the (positive) shortfall from the base value shown as a
      negative delta only when there is one. */
  function MetricaProteina(proteina: real): (m: Metrica)
    ensures m.valor == proteina
    ensures m.delta.Some? <==> proteina < ProteinaBase
    ensures m.delta.Some? ==> m.delta.value == ProteinaBase - proteina && m.delta.value > 0.0
  {
    Metrica(proteina, if proteina < ProteinaBase then Some(ProteinaBase - proteina) else None)
  }

  /** The summary tier, chosen from the shared constants; it is the dashboard's GDT
      verdict. */
  function ResumenCalidad(gdt: real): (n: SoyaInsights.NivelGdt)
    ensures n == SoyaInsights.NivelCalidad(gdt)
  {
    if gdt < GdtExcelente then SoyaInsights.Excelente
    else if gdt < GdtModerado then SoyaInsights.Moderada
    else SoyaInsights.Critica
  }

  /** The GDT delta and the remaining-quality delta are never shown together; apart
      from the boundary value itself, exactly one of them is. The remaining-quality
      delta appears exactly when the summary says excellent. */
  lemma DeltasComplementarios(gdt: real)
    ensures !(MetricaGdt(gdt).delta.Some? && MetricaCalidadRemanente(gdt).delta.Some?)
    ensures gdt != GdtExcelente ==> MetricaGdt(gdt).delta.Some? || MetricaCalidadRemanente(gdt).delta.Some?
    ensures MetricaCalidadRemanente(gdt).delta.Some? <==> ResumenCalidad(gdt) == SoyaInsights.Excelente
  {
  }

  /** With no model loaded, the acidity delta is shown exactly when there is any
      damage, and the protein delta exactly when the total damage is positive. */
  lemma DeltasConEstimadoresDeRespaldo(gdc: real, gdh: real)
    ensures MetricaAcidez(ModelService.FallbackAcidez(gdc, gdh)).delta.Some? <==> gdc + gdh > 0.0
    ensures MetricaProteina(ModelService.FallbackProteina(gdc + gdh)).delta.Some? <==> gdc + gdh > 0.0
  {
  }
}
