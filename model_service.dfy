/**
 * `ModelService.predict_acidez` and `ModelService.predict_proteina`: a closed-form
 * fallback when no model is loaded, otherwise the model's prediction, asked first
 * with a named-column frame and, if that raises, once more with a positional array.
 */
module ModelService {
  import opened Results
  import opened Numeric
  import opened Predictor

  /** Fallback acidity (mg KOH/g): base 0.5 plus 0.02 per point of total damage. */
  function FallbackAcidez(gdc: real, gdh: real): (a: real)
    ensures gdc + gdh >= 0.0 ==> a >= 0.5
  {
    0.5 + (gdc + gdh) * 0.02
  }

  /** The fallback acidity depends on the damage only through gdc + gdh, and grows with it. */
  lemma FallbackAcidezPorDanoTotal(gdc1: real, gdh1: real, gdc2: real, gdh2: real)
    ensures gdc1 + gdh1 == gdc2 + gdh2 ==> FallbackAcidez(gdc1, gdh1) == FallbackAcidez(gdc2, gdh2)
    ensures gdc1 + gdh1 <= gdc2 + gdh2 ==> FallbackAcidez(gdc1, gdh1) <= FallbackAcidez(gdc2, gdh2)
  {
  }

  /** Fallback soluble protein (%): 70 minus 0.3 per point of GDT, never below 30. */
  function FallbackProteina(gdt: real): (p: real)
    ensures p >= 30.0
    ensures gdt >= 0.0 ==> p <= 70.0
    ensures gdt == 0.0 ==> p == 70.0
    ensures p == 30.0 <==> gdt >= 400.0 / 3.0
  {
    Max(70.0 - gdt * 0.3, 30.0)
  }

  /** The fallback protein never grows with the damage. */
  lemma FallbackProteinaNoCreciente(gdt1: real, gdt2: real)
    requires gdt1 <= gdt2
    ensures FallbackProteina(gdt2) <= FallbackProteina(gdt1)
  {
  }

  /** The single-row frame of the first attempt, with the service's column names. */
  function FrameAcidez(gdc: real, gdh: real): Frame {
    Named(["GDC", "GDH"], [[gdc, gdh]])
  }

  /** The same row as a positional array, for the retry. */
  function ArregloAcidez(gdc: real, gdh: real): Frame {
    Positional([[gdc, gdh]])
  }

  function FrameProteina(gdt: real): Frame {
    Named(["GDT"], [[gdt]])
  }

  function ArregloProteina(gdt: real): Frame {
    Positional([[gdt]])
  }

  /** Acidity estimate for (GDC, GDH). Without a model it is the fallback formula;
      with one it is always the model's own prediction, unclamped: that of the named
      frame when it succeeds, otherwise that of the positional retry, whose own error, if
      it raises too, is the one that reaches the caller. */
  function PredictAcidez(gdc: real, gdh: real, model: Model): (r: Result<real, Error>)
    ensures model.Absent? ==> r == Ok(FallbackAcidez(gdc, gdh))
    ensures model.Present? ==>
              r == PredictFirst(model.predict, FrameAcidez(gdc, gdh))
              || r == PredictFirst(model.predict, ArregloAcidez(gdc, gdh))
    ensures model.Present? && PredictFirst(model.predict, FrameAcidez(gdc, gdh)).Ok? ==>
              r == PredictFirst(model.predict, FrameAcidez(gdc, gdh))
    ensures model.Present? && PredictFirst(model.predict, FrameAcidez(gdc, gdh)).Err? ==>
              r == PredictFirst(model.predict, ArregloAcidez(gdc, gdh))
    ensures r.Err? <==>
              model.Present?
              && PredictFirst(model.predict, FrameAcidez(gdc, gdh)).Err?
              && PredictFirst(model.predict, ArregloAcidez(gdc, gdh)).Err?
  {
    match model
    case Absent =>
      var acidezBase := 0.5;
      var incrementoAcidez := (gdc + gdh) * 0.02;
      Ok(acidezBase + incrementoAcidez)
    case Present(predict) =>
      var intento := PredictFirst(predict, Named(["GDC", "GDH"], [[gdc, gdh]]));
      if intento.Ok? then intento else PredictFirst(predict, Positional([[gdc, gdh]]))
  }

  /** Soluble-protein estimate for GDT, with the same fallback and retry discipline. */
  function PredictProteina(gdt: real, model: Model): (r: Result<real, Error>)
    ensures model.Absent? ==> r == Ok(FallbackProteina(gdt))
    ensures model.Present? ==>
              r == PredictFirst(model.predict, FrameProteina(gdt))
              || r == PredictFirst(model.predict, ArregloProteina(gdt))
    ensures model.Present? && PredictFirst(model.predict, FrameProteina(gdt)).Ok? ==>
              r == PredictFirst(model.predict, FrameProteina(gdt))
    ensures model.Present? && PredictFirst(model.predict, FrameProteina(gdt)).Err? ==>
              r == PredictFirst(model.predict, ArregloProteina(gdt))
    ensures r.Err? <==>
              model.Present?
              && PredictFirst(model.predict, FrameProteina(gdt)).Err?
              && PredictFirst(model.predict, ArregloProteina(gdt)).Err?
  {
    match model
    case Absent =>
      var proteinaBase := 70.0;
      var perdidaProteina := gdt * 0.3;
      Ok(Max(proteinaBase - perdidaProteina, 30.0))
    case Present(predict) =>
      var intento := PredictFirst(predict, Named(["GDT"], [[gdt]]));
      if intento.Ok? then intento else PredictFirst(predict, Positional([[gdt]]))
  }

  /** The acidity model is fitted on a frame whose columns are `gdc_mean_in` and
      `gdh_mean_in`, so it refuses the service's `GDC`/`GDH` frame: the value
      returned is always the one of the positional retry. */
  lemma AcidezUsaElReintento(gdc: real, gdh: real, onRows: seq<seq<real>> -> Result<seq<real>, Error>)
    ensures var predict := ChecksFeatureNames(["gdc_mean_in", "gdh_mean_in"], onRows);
            PredictAcidez(gdc, gdh, Present(predict)) == PredictFirst(predict, ArregloAcidez(gdc, gdh))
  {
    var predict := ChecksFeatureNames(["gdc_mean_in", "gdh_mean_in"], onRows);
    assert ["GDC", "GDH"] != ["gdc_mean_in", "gdh_mean_in"] by {
      assert ["GDC", "GDH"][0] != ["gdc_mean_in", "gdh_mean_in"][0];
    }
    assert predict(FrameAcidez(gdc, gdh)).Err?;
    assert predict(ArregloAcidez(gdc, gdh)) == onRows([[gdc, gdh]]);
  }

  /** Both attempts hand the model the same row in the same order: a model that
      ignores column names answers the service exactly as the bare positional call. */
  lemma ReintentoConLaMismaFila(gdc: real, gdh: real, gdt: real, onRows: seq<seq<real>> -> Result<seq<real>, Error>)
    ensures var predict := IgnoresFeatureNames(onRows);
            PredictAcidez(gdc, gdh, Present(predict)) == PredictFirst(predict, ArregloAcidez(gdc, gdh))
    ensures var predict := IgnoresFeatureNames(onRows);
            PredictProteina(gdt, Present(predict)) == PredictFirst(predict, ArregloProteina(gdt))
  {
  }

  /** A model that always raises is never replaced by the fallback formula: the
      error reaches the caller. */
  lemma FalloDelModeloSePropaga(gdc: real, gdh: real, gdt: real, reason: string)
    ensures PredictAcidez(gdc, gdh, Present((f: Frame) => Err(Raised(reason)))) == Err(Raised(reason))
    ensures PredictProteina(gdt, Present((f: Frame) => Err(Raised(reason)))) == Err(Raised(reason))
  {
  }

  /** No clamping is applied to a model's output: whatever it predicts, even outside
      the fallback's range, is what the caller gets. */
  lemma PrediccionSinRecorte(gdc: real, gdh: real, gdt: real, v: real)
    ensures PredictAcidez(gdc, gdh, Present((f: Frame) => Ok([v]))) == Ok(v)
    ensures PredictProteina(gdt, Present((f: Frame) => Ok([v]))) == Ok(v)
  {
  }
}
