/** The fitted scaler and the trained network, as opaque artifacts passed to the pipelines. */
module Inference {
  import opened Results

  /** `scaler.transform` on one row: its arithmetic is the artifact's, but it always
      returns as many values as it is given. */
  type RowTransform = f: seq<real> -> seq<real> | forall v :: |f(v)| == |v|
    witness (v: seq<real>) => v

  /** A fitted scaler expects rows of exactly `width` features. */
  datatype Scaler = Scaler(width: nat, transform: RowTransform)

  /** `model.predict(row)[0][0]`: the network's single output on a one-row batch. */
  type Model = seq<real> -> real

  /** The scaler adapter: a row of the wrong width is a schema mismatch, never truncated or
      padded; a row of the right width is transformed into a row of the same width. */
  function Scale(s: Scaler, row: seq<real>): (r: Result<seq<real>>)
    ensures r.Ok? <==> |row| == s.width
    ensures r.Err? ==> r.error == SchemaMismatch(s.width, |row|)
    ensures r.Ok? ==> |r.value| == |row| && r.value == s.transform(row)
  {
    if |row| != s.width then Err(SchemaMismatch(s.width, |row|)) else Ok(s.transform(row))
  }

  /** A row one feature short of the scaler's width, 11 against 12, is rejected. */
  lemma ScaleRejectsShortRow(s: Scaler, row: seq<real>)
    requires s.width == 12 && |row| == 11
    ensures Scale(s, row) == Err(SchemaMismatch(12, 11))
  {
  }
}
