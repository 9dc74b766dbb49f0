# Soya Insights — a Dafny model of the quality formulas

Soya Insights is a set of dashboards for stored soybean. From the grain damage
measured in a sample — thermal damage (GDC), fungal damage (GDH) and their sum, the
total damage (GDT) — it estimates the acidity of the oil and the soluble protein of
the meal. It rates the quality of five derived products, simulates how damage
evolves during storage, and offers three parametric laws (degradation, acidity,
protein) with their own verdict tables.

This project models the computational core of those dashboards:

- the damage-to-quality estimators. Each uses a fitted model when one is loaded
  and a fixed fallback formula when none is. The service version first offers the
  model a named-column frame and retries once with a positional array;
- the temporal damage simulator, built on a fixed quadratic base curve, and its
  second copy in the main script, which also derives acidity and protein series;
- the two product-impact calculators: one driven by GDT with a 5% floor, and one
  driven by degradation;
- the degradation, acidity and protein laws of the model pages and of the
  degradation dashboard;
- every threshold classifier that turns a value into a verdict;
- the shared quality constants and the value decisions of the metrics panel:
  which number each card shows and when a delta is shown.

One Dafny module per source file: `Calculations`, `ModelService`, `SoyaInsights`,
`App`, `DegradationPage`, `AcidityPage`, `ProteinPage`, `Constants` and
`MetricsDisplay`. Small shared modules support them:

- `Results`: `Option` and `Result`;
- `Numeric`: Python's two-argument `min` and `max`;
- `Predictor`: the fitted model, described by its `predict` call only;
- `Productos`: the five products;
- `Tiers`: threshold tables.

All arithmetic is over `real`.

Every verdict in the dashboards is an if/elif chain over fixed cut points. Each is
written as the chain the source has and proved equal to `Tiers.Rango`, the number of
cut points the value has passed in its table. `Tiers.RangoSemiabierto` shows that
over an ascending table this count selects half-open intervals.
`Tiers.RangoMonotono` shows that a larger value never lands in a better tier.

A fitted model is a function from a feature frame to either a list of predictions
or an error. The frame is either named columns or a positional array. Two model
behaviours are given concretely:

- one that, like a scikit-learn estimator fitted on a data frame, refuses a named
  frame whose columns differ from its training columns;
- one that ignores column names.

The metric cards of the main script (Soya_Insights.py:127-156) take the same
decisions as the metrics panel, with literal values equal to the shared constants.
The `MetricsDisplay.Metrica*` functions stand for both. The acidity page's table
(pages/2_Modelo_Acidez.py:206-217) and its calculator panel
(pages/2_Modelo_Acidez.py:293-300) use one chain; it is modelled once, as
`AcidityPage.CalidadAcidez`. The same holds for the protein page
(pages/3_Modelo_Proteina.py:219-230 and 312-319, `ProteinPage.CalidadProteina`).

Where the documentation and the code disagree, the model follows the code:

- The GDT legend (Soya_Insights.py:526-528) reads "15-35% moderate, > 35%
  critical". The code rates exactly 35 as critical (`gdt < 35` fails), and so does
  `SoyaInsights.NivelCalidad`.
- The service's named frame uses the columns `GDC`/`GDH`. The acidity model is
  trained on `gdc_mean_in`/`gdh_mean_in` (models/train_acidez_model.py:35). For
  that model the positional retry is therefore the path that answers
  (`ModelService.AcidezUsaElReintento`).

## Model

| member | source | states |
|---|---|---|
| Tiers.RangoSemiabierto | pages/1_Modelo_Degradacion.py:205 | a general fact about every verdict chain proved equal to `Rango` (the one cited is one instance): over an ascending cut table, a value has passed exactly the first `Rango` cut points and none of the rest, so each tier of a `<`-chain (or `>=`-chain) is a half-open interval |
| Tiers.RangoMonotono | pages/1_Modelo_Degradacion.py:205 | a larger value never has passed fewer cut points, so never lands in a better tier |
| Calculations.FactorCalidad | src/utils/calculations.py:11 | the quality factor is at least 0.05 and at least 1 − gdt/100; it is 1 − gdt/100 up to GDT 95 and exactly 0.05 from 95 on |
| Calculations.CalcularImpactoProductos | src/utils/calculations.py:8-20 | all five products are present, each is the quality factor times its base weight, and each is at least 5% of its weight, hence strictly positive |
| Calculations.ImpactoSinDano | src/utils/calculations.py:11-19 | at GDT 0 every product equals its base weight (0.9, 0.85, 0.8, 0.95, 0.75) |
| Calculations.ImpactoNoCreciente | src/utils/calculations.py:10-19 | more damage never raises any product, and from GDT 95 on the whole dictionary is constant |
| Calculations.EcuacionDanoGrano | src/utils/calculations.py:32-33 | the fitted quadratic 0.0730t² − 0.7741t + 14.8443 never falls below its vertex value (about 12.79), so the predicted damage is always positive; it is 14.8443 at month 0 |
| Calculations.FormaCanonica | src/utils/calculations.py:32-33 | the fitted quadratic equals 0.0730·(t − vertex)² plus its minimum: a parabola opening upwards, lowest at 0.7741/(2·0.0730) |
| Calculations.DiferenciaDeLaCurva | src/utils/calculations.py:32-33 | the change of the curve between two times is their gap times the slope 0.0730·(t1 + t2) − 0.7741 |
| Calculations.DecreceHastaElVertice | src/utils/calculations.py:32-33 | the base curve strictly decreases up to its vertex at 0.7741/(2·0.0730) months |
| Calculations.CreceDesdeElVertice | src/utils/calculations.py:32-33 | the base curve strictly increases after its vertex |
| Calculations.ObtenerEcuacionBase | src/utils/calculations.py:57-63 | the published coefficients, evaluated as a quadratic, give exactly the curve the simulator uses, at every time |
| Calculations.Tiempos | src/utils/calculations.py:25 | for a whole number of months m there are 2m + 2 sample times and the k-th is 0.5·k |
| Calculations.TiemposEsArange | src/utils/calculations.py:25 | the sample times are exactly the half-month multiples below the stop value m + 1, strictly increasing, from 0 to m + 0.5 |
| Calculations.FactorTemp | src/utils/calculations.py:28 | the temperature factor is 1 at 20 °C and positive exactly above −30 °C |
| Calculations.FactorHum | src/utils/calculations.py:29 | the humidity factor is 1 at 50% and positive exactly above −50% |
| Calculations.GdcPunto | src/utils/calculations.py:37-41 | a GDC point lies in [0, 100]; it is the unclamped value when that is in range, 100 above and 0 below |
| Calculations.GdhPunto | src/utils/calculations.py:45-49 | a GDH point lies in [0, 50]; it is the unclamped value (60% of the curve, humidity-scaled) when in range, 50 above and 0 below |
| Calculations.EvolucionGdc | src/utils/calculations.py:36-41 | the GDC loop yields one value per sample time, each the clamped point of its own time |
| Calculations.EvolucionGdh | src/utils/calculations.py:44-49 | the GDH loop yields one value per sample time, each the clamped point of its own time |
| Calculations.SimularEvolucionTemporal | src/utils/calculations.py:23-54 | the four returned series have the sample times' length; each GDC/GDH point is computed from its own time alone; GDC stays in [0, 100], GDH in [0, 50], and GDT is their pointwise sum |
| Predictor.PredictFirst | src/services/model_service.py:85 | `predict(frame)[0]` succeeds exactly when `predict` succeeds with at least one row, and is then the first row's prediction; it returns `predict`'s own error when that raises, and an index error when `predict` returns no rows |
| ModelService.FallbackAcidez | src/services/model_service.py:76-80 | the fallback acidity is at least 0.5 for non-negative damage |
| ModelService.FallbackAcidezPorDanoTotal | src/services/model_service.py:79-80 | the fallback acidity depends on (GDC, GDH) only through their sum and never decreases with it |
| ModelService.FallbackProteina | src/services/model_service.py:94-98 | the fallback protein is at least 30, at most 70 for non-negative GDT, 70 at GDT 0, and 30 exactly when GDT ≥ 400/3 |
| ModelService.FallbackProteinaNoCreciente | src/services/model_service.py:97-98 | the fallback protein never increases with GDT |
| ModelService.PredictAcidez | src/services/model_service.py:74-89 | without a model the result is the fallback; with one it is the model's unclamped prediction: the named frame's when that succeeds, otherwise the positional retry's; it fails exactly when a model is present and both attempts raise, and the error it then returns is the retry's |
| ModelService.PredictProteina | src/services/model_service.py:92-107 | the same fallback and retry discipline for protein from GDT: the named frame's prediction when it succeeds, otherwise the positional retry's result, error included |
| ModelService.AcidezUsaElReintento | src/services/model_service.py:83-89 | a model fitted on the columns `gdc_mean_in`/`gdh_mean_in` refuses the `GDC`/`GDH` frame, so the service always returns the positional retry's result |
| ModelService.ReintentoConLaMismaFila | src/services/model_service.py:83-89 | both attempts pass the same row in the same order: a model that ignores column names answers as the bare positional call, for acidity and for protein |
| ModelService.FalloDelModeloSePropaga | src/services/model_service.py:86-89 | when the model raises on both attempts the error reaches the caller; the fallback formula is never substituted |
| ModelService.PrediccionSinRecorte | src/services/model_service.py:85-89 | whatever value the model predicts is returned as is, with no clamping |
| SoyaInsights.Gdt | Soya_Insights.py:34-36 | GDT is GDC + GDH, and lies in [0, 150] within the sliders' ranges |
| SoyaInsights.CalcularAcidezReal | Soya_Insights.py:76-86 | without a model the result is the service's fallback acidity; with one it is a single positional prediction, whose error reaches the caller |
| SoyaInsights.CalcularProteinaReal | Soya_Insights.py:89-99 | the same for protein from GDT |
| SoyaInsights.EstimadoresCoincidenConServicio | Soya_Insights.py:76-99 | the script's estimators and the service's agree without a model, and whenever the model refuses the service's named frame |
| SoyaInsights.BarridoAcidez | Soya_Insights.py:223 | in the GDT sweep, splitting GDT 70/30 into GDC/GDH gives a fallback acidity of exactly 0.5 + 0.02·GDT |
| SoyaInsights.CalcularImpactoProductos | Soya_Insights.py:102-114 | the script's copy of the product-impact calculator returns the same dictionary as the calculations module's |
| SoyaInsights.CalidadRemanente | Soya_Insights.py:136 | remaining quality is never negative, never below 100 − GDT, and equals 100 − GDT while GDT ≤ 100 |
| SoyaInsights.NivelCalidad | Soya_Insights.py:163-198 | the GDT tier is the rank in the table [15, 35], lower-inclusive: excellent below 15, moderate below 35, critical from 35 |
| SoyaInsights.FronterasNivelCalidad | Soya_Insights.py:163-198 | the tier changes exactly at 15 and at 35; the default sample (25, 10) is critical, with fallback acidity 1.2 and protein 59.5 |
| SoyaInsights.NivelCalidadMonotono | Soya_Insights.py:163-198 | more damage never gives a better GDT tier |
| SoyaInsights.RecomendacionPorGdt | Soya_Insights.py:494-506 | each recommendation is given exactly for its GDT tier: the recommendations use the verdict's cut points |
| SoyaInsights.SerieAcidez | Soya_Insights.py:365-366 | the acidity series succeeds exactly when every point's estimate does, and is then the pointwise estimate; on failure its error is that of the first failing point, every earlier point having succeeded |
| SoyaInsights.SerieProteina | Soya_Insights.py:367-368 | the protein series succeeds exactly when every point's estimate does, and is then the pointwise estimate; on failure its error is that of the first failing point, every earlier point having succeeded |
| SoyaInsights.EvolucionGdc | Soya_Insights.py:346-352 | the script's GDC loop, with its own copy of the base curve, yields exactly the calculations module's GDC point at every sample time |
| SoyaInsights.EvolucionGdh | Soya_Insights.py:355-361 | the script's GDH loop yields exactly the calculations module's GDH point at every sample time |
| SoyaInsights.SimularEvolucionTemporal | Soya_Insights.py:332-370 | without models it always succeeds, and it fails exactly when the acidity or protein series over the simulated points fails (by `SerieAcidez`/`SerieProteina`, exactly when the estimate of some sample point fails), and its error is then the acidity series' error if that series fails, else the protein series'; its six series are aligned, its GDC, GDH and GDT agree point for point with the calculations module's simulator, and acidity and protein are derived from each point's own damage |
| App.CalcularDegradacion | app.py:37-44 | degradation never exceeds 0.95, is 0 at day 0, and is non-negative within the sliders' ranges |
| App.DegradacionMonotona | app.py:37-44 | within the sliders' ranges degradation never decreases with storage time |
| App.CalcularImpactoProductos | app.py:47-55 | all five products are present, each is 1 − degradation × its sensitivity, all are 1 for sound grain and lie in [1 − 0.95·0.7, 1] for degradation in [0, 0.95] |
| App.ImpactoNoCreciente | app.py:47-55 | more degradation never raises any product |
| App.CalcularAcidez | app.py:58-62 | acidity is 0.5 plus twice the degradation: at least 0.5 for non-negative degradation and at most 2.4 up to 0.95 |
| App.CalcularProteina | app.py:65-69 | protein is at least 25, at most 40 for non-negative degradation, and for degradation in [0, 0.95] it is 40 − 15·degradation, above the floor |
| App.EstadoDeAcidez | app.py:186 | the acidity status is the lower-inclusive rank in [1, 2]: normal below 1, elevated below 2, critical from 2 |
| App.EstadoDeProteina | app.py:194 | the protein status is given by strict comparisons with [30, 35]: excellent above 35, good above 30, reduced otherwise |
| App.CalidadTabla | app.py:269 | the table's quality is the lower-inclusive rank in [0.1, 0.2, 0.4] |
| App.Resumen | app.py:117-139 | the headline summary is the lower-inclusive rank in [0.1, 0.3] |
| App.ResumenYTablaUsanCortesDistintos | app.py:117-128 | the summary reads critical while the table reads moderate exactly for degradation in [0.3, 0.4), and moderate while the table reads good exactly in [0.1, 0.2), so some degradation is rated differently; below 0.1 both read best |
| DegradationPage.FactorTemperatura | pages/1_Modelo_Degradacion.py:56 | the temperature effect is 1 at 20 °C and at least 0.5 over the sliders' ranges |
| DegradationPage.FactorHumedad | pages/1_Modelo_Degradacion.py:59 | the humidity effect is 1 at 50% and at least 0.5 over the sliders' ranges |
| DegradationPage.ModeloDegradacionCientifico | pages/1_Modelo_Degradacion.py:35-68 | degradation never exceeds 0.95, equals k·t·Fₜ·Fₕ wherever that is at most 0.95 and is exactly 0.95 wherever it is more, is 0 at day 0, and is non-negative over the sliders' ranges |
| DegradationPage.DegradacionMonotonaEnDias | pages/1_Modelo_Degradacion.py:62-68 | over the sliders' ranges degradation never decreases with days |
| DegradationPage.CoincideConElTablero | pages/1_Modelo_Degradacion.py:35-68 | at the slider defaults (0.05, 0.02, 0.001) the page's law equals the degradation dashboard's, for every input |
| DegradationPage.CalidadAlMenosCincoPorCiento | pages/1_Modelo_Degradacion.py:198 | the quality 1 − degradation is always at least 0.05 |
| DegradationPage.Estado | pages/1_Modelo_Degradacion.py:205 | the verdict is the lower-inclusive rank in [0.1, 0.2, 0.4], matching the documented 10/20/40% bands |
| DegradationPage.EstadoComoElTablero | pages/1_Modelo_Degradacion.py:205 | the page's verdict equals the degradation dashboard's table verdict at every degradation |
| DegradationPage.EstadoMonotono | pages/1_Modelo_Degradacion.py:205 | more degradation never gives a better verdict |
| AcidityPage.FactorTemperatura | pages/2_Modelo_Acidez.py:51 | the temperature effect is 1 at 20 °C and at least 0.95 over the sliders' ranges |
| AcidityPage.ModeloAcidezCientifico | pages/2_Modelo_Acidez.py:34-60 | acidity never exceeds 5.0, equals A₀ + D·α·Fₜ wherever that is at most 5.0 and is exactly 5.0 wherever it is more, and equals the base acidity at degradation 0 |
| AcidityPage.MonotonaEnDegradacion | pages/2_Modelo_Acidez.py:51-60 | over the sliders' ranges acidity never decreases with degradation |
| AcidityPage.MonotonaEnFactor | pages/2_Modelo_Acidez.py:51-60 | over the sliders' ranges and for non-negative degradation, acidity never decreases with the increment factor |
| AcidityPage.IncrementoAcotado | pages/2_Modelo_Acidez.py:202-203 | the table's increment over the base acidity lies in [0, 5 − base] |
| AcidityPage.CalidadAcidez | pages/2_Modelo_Acidez.py:206-217 | the tier is the lower-inclusive rank in [1, 2, 3], for the table and the calculator alike |
| AcidityPage.CalidadAcidezMonotona | pages/2_Modelo_Acidez.py:206-217 | higher acidity never gives a better tier |
| AcidityPage.CalidadEmpeoraConDegradacion | pages/2_Modelo_Acidez.py:201-217 | over the sliders' ranges, more degradation never gives a better acidity tier |
| ProteinPage.FactorTemperatura | pages/3_Modelo_Proteina.py:54 | the temperature effect is 1 at 20 °C and at least 0.95 over the sliders' ranges |
| ProteinPage.ModeloProteinaCientifico | pages/3_Modelo_Proteina.py:36-64 | protein is never below the minimum, equals P₀ − D·α·Fₜ·(1 + 0.5·D) wherever that is at least the minimum and is exactly the minimum wherever it is less, and equals the base protein at degradation 0 |
| ProteinPage.PerdidaMonotona | pages/3_Modelo_Proteina.py:58 | over the sliders' ranges the loss is non-negative and never decreases with non-negative degradation |
| ProteinPage.NoCrecienteEnDegradacion | pages/3_Modelo_Proteina.py:54-64 | over the sliders' ranges protein never increases with non-negative degradation |
| ProteinPage.PerdidaAcotada | pages/3_Modelo_Proteina.py:215-216 | the table's loss lies in [0, base − minimum] |
| ProteinPage.CalidadProteina | pages/3_Modelo_Proteina.py:219-230 | the tier improves by one for each of 30, 35, 38 reached (lower-inclusive), for the table and the calculator alike |
| ProteinPage.CalidadProteinaMonotona | pages/3_Modelo_Proteina.py:219-230 | lower protein never gives a better tier |
| ProteinPage.CalidadEmpeoraConDegradacion | pages/3_Modelo_Proteina.py:214-230 | over the sliders' ranges, more degradation never gives a better protein tier |
| Constants.ParametrosCoherentes | src/config/constants.py:29-35 | the GDT limits are ordered, each base value is on the good side of its limit, and the reference remaining quality is 100 − the excellent-GDT limit |
| MetricsDisplay.MetricaGdt | src/components/metrics_display.py:11-17 | the GDT card shows GDT, and a delta exactly when GDT exceeds the excellent limit, equal to the excess and positive |
| MetricsDisplay.MetricaCalidadRemanente | src/components/metrics_display.py:20-27 | the card shows the non-negative remaining quality, and a delta exactly when GDT is below the excellent limit, equal to (100 − GDT) − 85 and positive |
| MetricsDisplay.MetricaAcidez | src/components/metrics_display.py:31-37 | the acidity delta is shown exactly above the base acidity, and is the positive excess |
| MetricsDisplay.MetricaProteina | src/components/metrics_display.py:41-47 | the protein delta is shown exactly below the base protein, and is the positive shortfall |
| MetricsDisplay.ResumenCalidad | src/components/metrics_display.py:51-86 | the summary tier, chosen from the shared constants, is the main script's GDT tier |
| MetricsDisplay.DeltasComplementarios | src/components/metrics_display.py:16-26 | the GDT and remaining-quality deltas are never shown together, one of them is shown at every GDT but 15, and the latter is shown exactly when the summary reads excellent |
| MetricsDisplay.DeltasConEstimadoresDeRespaldo | src/components/metrics_display.py:36-46 | with the fallback estimators, the acidity and protein deltas are shown exactly when the total damage is positive |

## Left out

- Rendering: Streamlit widgets, captions, markdown, Plotly figures and data frames
  built only for display. Slider ranges appear only as preconditions.
- Model and data loading and caching: `load_models` (Soya_Insights.py:47-70), the
  loaders of src/services/model_service.py:17-71, and src/services/data_service.py.
  These are file I/O, caching and a runtime regression fit. A loaded model is a
  parameter; a missing one is `Absent`.
- The fitted regression models themselves. A model is any function from a frame
  to predictions or an error. Only its refusal of mismatched column names is given
  concretely.
- The training, outlier-filtering, quantile-regression, SHAP and environment
  scripts under models/, utils.py and setup_xgboost_env.py are not part of this
  model. They are offline statistics and plotting.
- src/utils/__init__.py and src/models/__init__.py only re-export names.
- IEEE-754 rounding: all arithmetic is over exact reals.
- Calculations.Tiempos: `np.arange(0, meses + 1, 0.5)` is modelled for a whole,
  non-negative number of months only, as the dashboard passes 36. Fractional
  months and float step accumulation are not modelled.
- The list comprehensions that feed the charts (day-by-day degradation, the GDT
  sweep, the sensitivity curves) are not modelled as lists. Each is a map of a
  modelled function over fixed sample points.
- The metric deltas of the degradation dashboard (app.py:84-110) are not modelled.
  They are display-only and feed no verdict.
- The fixed-coefficient protein law `70.828 − 0.225·x` of
  pages/3_Modelo_Proteína_Soluble.py (lines 33, 59 and 187) is outside the core
  modelled here: that page is a separate variant of the protein page and
  is not part of this model.
