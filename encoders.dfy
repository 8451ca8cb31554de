/** The fitted one-hot encoder for Geography, treated as an artifact: its learned
    categories, how it treats a value it was not fitted on, and the column names it reports. */
module Encoders {
  import opened Seqs
  import opened Numerals
  import opened Results

  /** What `get_feature_names_out(["Geography"])` does on this artifact: it reports the
      names, it raises a ValueError (input features that differ from the fitted ones), or it
      raises another exception (an AttributeError on a library without the method). */
  datatype Introspection = Reports | RaisesValueError | RaisesOther

  /** `categories` is `categories_[0]`; `ignoreUnknown` is the encoder's
      `handle_unknown='ignore'` setting (the default, `'error'`, raises on an unknown value);
      `sparseOutput` is its `sparse_output` setting (true by default), without which the
      transformed value is a dense array that has no `.toarray()`; `namesOut` is how
      `get_feature_names_out` behaves. */
  datatype GeoEncoder = GeoEncoder(
    categories: seq<string>, ignoreUnknown: bool, sparseOutput: bool, namesOut: Introspection)

  /** An all-zero row of width `n`. */
  function Zeros(n: nat): (r: seq<real>)
    ensures |r| == n && forall i :: 0 <= i < n ==> r[i] == 0.0
  {
    seq(n, i => 0.0)
  }

  /** What the encoder's `transform` produces for a value it knows: a 1 in the column of
      that category and 0 in every other column. */
  function Indicator(categories: seq<string>, v: string): (r: seq<real>)
    requires v in categories
    ensures |r| == |categories|
    ensures r[IndexOf(categories, v)] == 1.0
    ensures forall i :: 0 <= i < |r| && i != IndexOf(categories, v) ==> r[i] == 0.0
  {
    var k := IndexOf(categories, v);
    seq(|categories|, i requires 0 <= i < |categories| => if i == k then 1.0 else 0.0)
  }

  /** Over a fitted vocabulary (no category twice), the 1s of the indicator sit exactly in
      the columns of the encoded category. */
  lemma IndicatorExact(categories: seq<string>, v: string)
    requires v in categories && Distinct(categories)
    ensures forall i :: 0 <= i < |categories| ==>
      (Indicator(categories, v)[i] == 1.0 <==> categories[i] == v)
    ensures forall i :: 0 <= i < |categories| ==>
      (Indicator(categories, v)[i] == 0.0 || Indicator(categories, v)[i] == 1.0)
  {
    forall i | 0 <= i < |categories| && categories[i] == v
      ensures i == IndexOf(categories, v)
    {
      DistinctIndexOf(categories, i);
    }
  }

  /** `encoder.transform([[v]])` under the encoder's unknown-value policy. */
  function Transform(enc: GeoEncoder, v: string): (r: Result<seq<real>>)
    ensures r.Ok? <==> v in enc.categories || enc.ignoreUnknown
    ensures r.Ok? ==> |r.value| == |enc.categories|
    ensures r.Ok? && v in enc.categories ==> r.value == Indicator(enc.categories, v)
    ensures r.Ok? && v !in enc.categories ==> r.value == Zeros(|enc.categories|)
    ensures r.Err? ==> r.error == UnknownCategory(v)
  {
    if v in enc.categories then Ok(Indicator(enc.categories, v))
    else if enc.ignoreUnknown then Ok(Zeros(|enc.categories|))
    else Err(UnknownCategory(v))
  }

  /** `.toarray()` on the transformed value: the same row when the encoder produced a
      sparse matrix, an AttributeError on a dense array. */
  function ToArray(enc: GeoEncoder, row: seq<real>): (r: Result<seq<real>>)
    ensures r.Ok? <==> enc.sparseOutput
    ensures r.Ok? ==> r.value == row
    ensures r.Err? ==> r.error == DenseOutput
  {
    if enc.sparseOutput then Ok(row) else Err(DenseOutput)
  }

  /** Reads an encoded row back: the category of the first column holding a 1, or nothing
      when no column does. */
  function Decode(categories: seq<string>, row: seq<real>): Option<string> {
    var k := IndexOf(row, 1.0);
    if k < |row| && k < |categories| then Some(categories[k]) else None
  }

  /** Decoding the position of the single 1 gives back the encoded category. */
  lemma DecodeIndicator(categories: seq<string>, v: string)
    requires v in categories
    ensures Decode(categories, Indicator(categories, v)) == Some(v)
  {
    var row := Indicator(categories, v);
    var k, k0 := IndexOf(row, 1.0), IndexOf(categories, v);
    assert row[k0] == 1.0;
    assert k == k0;
  }

  /** An all-zero row decodes to no category at all. */
  lemma DecodeZeros(categories: seq<string>)
    ensures Decode(categories, Zeros(|categories|)) == None
  {
    var row := Zeros(|categories|);
    assert 1.0 !in row;
  }

  /** `get_feature_names_out([feature])`: the input feature name, an underscore and the
      category, one name per category in vocabulary order. */
  function FeatureNamesOut(feature: string, categories: seq<string>): (r: seq<string>)
    ensures |r| == |categories|
    ensures forall i :: 0 <= i < |r| ==> r[i] == feature + "_" + categories[i]
  {
    seq(|categories|, i requires 0 <= i < |categories| => feature + "_" + categories[i])
  }

  lemma PrefixCancel(p: string, a: string, b: string)
    requires p + a == p + b
    ensures a == b
  {
    assert a == (p + a)[|p|..];
    assert b == (p + b)[|p|..];
  }

  /** Distinct categories give distinct column names. */
  lemma FeatureNamesOutDistinct(feature: string, categories: seq<string>)
    requires Distinct(categories)
    ensures Distinct(FeatureNamesOut(feature, categories))
  {
    var r := FeatureNamesOut(feature, categories);
    forall i, j | 0 <= i < j < |r| ensures r[i] != r[j] {
      if r[i] == r[j] {
        PrefixCancel(feature + "_", categories[i], categories[j]);
      }
    }
  }

  /** The names `geo_0`, ..., `geo_{n-1}` used when the encoder cannot name its columns. */
  function SyntheticNames(n: nat): (r: seq<string>)
    ensures |r| == n
  {
    seq(n, i requires 0 <= i < n => "geo_" + NatToString(i))
  }

  /** The synthetic names are exactly `geo_i` for each column index i, and no two coincide. */
  lemma SyntheticNamesExact(n: nat)
    ensures forall i :: 0 <= i < n ==> SyntheticNames(n)[i] == "geo_" + NatToString(i)
    ensures Distinct(SyntheticNames(n))
  {
    var r := SyntheticNames(n);
    forall i, j | 0 <= i < j < n ensures r[i] != r[j] {
      if r[i] == r[j] {
        PrefixCancel("geo_", NatToString(i), NatToString(j));
        NatToStringInjective(i, j);
      }
    }
  }
}
