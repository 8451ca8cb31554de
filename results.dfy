/** The failures the two pipelines can meet, and the success-or-error wrapper that
    carries them to the call boundary. */
module Results {
  import opened Numerals

  /** What went wrong inside a pipeline call. Each kind but `NotText` corresponds to an
      exception the Python libraries raise on that input; `NotText` only keeps the frame
      functions total on a Geography cell that is not text, which the form never produces. */
  datatype Error =
    | UnknownCategory(value: string)          // one-hot transform of a value outside the fitted categories
    | UnseenLabel                             // label encoder given a value it was not fitted on
    | NotText(column: string)                 // a Geography cell that is not text (never arises from the form)
    | MissingColumn(column: string)           // selection or drop of a column that is not in the frame
    | NotNumeric(column: string)              // a text cell reaching the scaler
    | FeatureNamesUnavailable                 // the encoder cannot report its output column names
    | DenseOutput                             // `.toarray()` on an encoder output that is already dense
    | SchemaMismatch(expected: nat, actual: nat)  // the scaler gets a row of the wrong width

  datatype Option<+T> = None | Some(value: T)

  datatype Result<+T> = Ok(value: T) | Err(error: Error) {
    predicate IsFailure() { Err? }

    function PropagateFailure<U>(): Result<U>
      requires Err?
    {
      Err(error)
    }

    function Extract(): T
      requires Ok?
    {
      value
    }
  }

  /** Human-readable cause, shown after the pipeline's own error prefix. */
  function Describe(e: Error): (s: string)
    ensures |s| > 0
  {
    match e
    case UnknownCategory(v) => "Found unknown categories ['" + v + "'] during transform"
    case UnseenLabel => "y contains previously unseen labels"
    case NotText(c) => "column '" + c + "' does not hold text"
    case MissingColumn(c) => "['" + c + "'] not in index"
    case NotNumeric(c) => "could not convert column '" + c + "' to float"
    case FeatureNamesUnavailable => "feature names are not available"
    case DenseOutput => "'numpy.ndarray' object has no attribute 'toarray'"
    case SchemaMismatch(expected, actual) =>
      "X has " + NatToString(actual) + " features, but the scaler is expecting "
      + NatToString(expected) + " features as input"
  }
}
