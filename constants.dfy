/** Quality parameters shared by the dashboard components. */
module Constants {

  /** GDT below this is excellent quality (%). */
  const GdtExcelente: real := 15.0
  /** GDT below this, and at least `GdtExcelente`, is moderate quality (%). */
  const GdtModerado: real := 35.0
  /** Acidity of sound grain (mg KOH/g). */
  const AcidezBase: real := 0.5
  /** Highest acceptable acidity (mg KOH/g). */
  const AcidezMaxima: real := 2.0
  /** Soluble protein of sound grain (%). */
  const ProteinaBase: real := 70.0
  /** Lowest acceptable soluble protein (%). */
  const ProteinaMinima: real := 50.0
  /** Remaining quality taken as the reference (%). */
  const CalidadRemanenteBase: real := 85.0

  /** The parameters are mutually consistent: the GDT tiers are ordered and non-empty,
      each base value sits on the good side of its limit, and the reference remaining
      quality is what is left at the excellent-GDT boundary. */
  lemma ParametrosCoherentes()
    ensures 0.0 < GdtExcelente < GdtModerado
    ensures AcidezBase < AcidezMaxima
    ensures ProteinaMinima < ProteinaBase
    ensures CalidadRemanenteBase == 100.0 - GdtExcelente
  {
  }
}
