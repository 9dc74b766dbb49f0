/**
 * The fitted regression models (a random forest for acidity, a linear fit for
 * protein) are outside this model. What the estimators rely on is only their
 * `predict` call: it takes a feature matrix and returns one prediction per row,
 * or raises.
 */
module Predictor {
  import opened Results

  /** A feature matrix handed to `predict`: a pandas frame with named columns, or
      a bare positional numpy array. */
  datatype Frame = Named(columns: seq<string>, rows: seq<seq<real>>) | Positional(rows: seq<seq<real>>)

  /** What `predict` or the `[0]` that follows it can raise. */
  datatype Error = Raised(reason: string) | IndexOutOfRange

  /** A loaded model, or `None` when none could be loaded. */
  datatype Model = Absent | Present(predict: Frame -> Result<seq<real>, Error>)

  /** `model.predict(frame)[0]`: the first row's prediction, raising when `predict`
      raises or returns no rows. */
  function PredictFirst(predict: Frame -> Result<seq<real>, Error>, frame: Frame): (r: Result<real, Error>)
    ensures r.Ok? <==> predict(frame).Ok? && |predict(frame).value| > 0
    ensures r.Ok? ==> r.value == predict(frame).value[0]
    ensures predict(frame).Err? ==> r == Err(predict(frame).error)
    ensures predict(frame) == Ok([]) ==> r == Err(IndexOutOfRange)
  {
    match predict(frame)
    case Err(e) => Err(e)
    case Ok(ys) => if |ys| == 0 then Err(IndexOutOfRange) else Ok(ys[0])
  }

  /** A model fitted on a frame with columns `trained`: like scikit-learn, it
      refuses a named frame whose columns differ and accepts any positional array. */
  function ChecksFeatureNames(trained: seq<string>, onRows: seq<seq<real>> -> Result<seq<real>, Error>)
    : Frame -> Result<seq<real>, Error>
  {
    (f: Frame) =>
      match f
      case Named(columns, rows) =>
        if columns == trained then onRows(rows) else Err(Raised("feature names mismatch"))
      case Positional(rows) => onRows(rows)
  }

  /** A model fitted on a plain array: column names are ignored. */
  function IgnoresFeatureNames(onRows: seq<seq<real>> -> Result<seq<real>, Error>)
    : Frame -> Result<seq<real>, Error>
  {
    (f: Frame) => onRows(f.rows)
  }
}
