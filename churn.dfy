/** The churn pipeline of app.py: encode the profile, assemble the 9 numeric columns and
    the geography columns, scale, run the network and read its probability against the
    0.5 threshold. */
module Churn {
  import opened Seqs
  import opened Results
  import opened Frames
  import opened Encoders
  import opened Inference

  /** The customer profile the form supplies. */
  datatype CustomerProfile = CustomerProfile(
    creditScore: int, geography: string, gender: string, age: int, tenure: int,
    balance: real, numOfProducts: int, hasCrCard: int, isActiveMember: int,
    estimatedSalary: real)

  /** The artifacts loaded once at start-up and only read afterwards. */
  datatype ChurnArtifacts = ChurnArtifacts(geo: GeoEncoder, scaler: Scaler, model: Model)

  /** Which branch the geography encoding took, with the row it produced. */
  datatype GeoEncoding = Known(row: seq<real>) | Unknown(row: seq<real>)

  /** The three messages the page can show: likely to churn, unlikely to churn (each with
      the probability of the class shown), or the error caught at the call boundary. */
  datatype ChurnOutcome = Likely(probability: real) | Unlikely(probability: real) | Failed(message: string)

  const Threshold: real := 0.5

  /** The numeric columns, in the order the scaler was fitted on. */
  const NumericColumns: seq<string> := ["CreditScore", "Gender", "Age", "Tenure", "Balance",
    "NumOfProducts", "HasCrCard", "IsActiveMember", "EstimatedSalary"]

  const ErrorPrefix: string := "Error during prediction: "

  /** A known geography goes through the encoder's `transform(...).toarray()`; any other
      value, such as the form's extra "Other" choice, becomes a zero row of the same width
      instead of an error. Only the known branch calls `.toarray()`, so only it fails on an
      encoder with dense output. */
  function EncodeGeography(enc: GeoEncoder, v: string): (r: Result<GeoEncoding>)
    ensures r.Ok? <==> v !in enc.categories || enc.sparseOutput
    ensures r.Err? ==> r.error == DenseOutput
    ensures r.Ok? ==> (r.value.Known? <==> v in enc.categories) && |r.value.row| == |enc.categories|
    ensures r.Ok? && r.value.Known? ==> r.value.row[IndexOf(enc.categories, v)] == 1.0
    ensures r.Ok? ==> forall i :: 0 <= i < |r.value.row| && (r.value.Unknown? || i != IndexOf(enc.categories, v)) ==>
      r.value.row[i] == 0.0
  {
    if v in enc.categories then
      var row :- ToArray(enc, Transform(enc, v).value);
      Ok(Known(row))
    else
      Ok(Unknown(Zeros(|enc.categories|)))
  }

  /** For a known geography, the position of the single 1 names that geography again. */
  lemma EncodeGeographyRoundTrip(enc: GeoEncoder, v: string)
    requires v in enc.categories
    ensures EncodeGeography(enc, v).Ok? ==> Decode(enc.categories, EncodeGeography(enc, v).value.row) == Some(v)
  {
    DecodeIndicator(enc.categories, v);
  }

  /** An unknown geography is encoded as "no category matched", whatever the encoder's
      output format: its row decodes to nothing. */
  lemma EncodeGeographyUnknown(enc: GeoEncoder, v: string)
    requires v !in enc.categories
    ensures EncodeGeography(enc, v) == Ok(Unknown(Zeros(|enc.categories|)))
    ensures Decode(enc.categories, EncodeGeography(enc, v).value.row) == None
  {
    DecodeZeros(enc.categories);
  }

  /** The names of the geography columns. The encoder's own names are used when it reports
      them for a row of this width. A ValueError, from the names call or from building a frame
      with the wrong number of names, gives `geo_0`, ..., `geo_{n-1}`. Any other exception
      escapes the inner handler. */
  function GeoColumnNames(enc: GeoEncoder, row: seq<real>): (r: Result<seq<string>>)
    ensures r.Ok? <==> !enc.namesOut.RaisesOther?
    ensures r.Err? ==> r.error == FeatureNamesUnavailable
    ensures r.Ok? ==> |r.value| == |row|
  {
    var names := FeatureNamesOut("Geography", enc.categories);
    match enc.namesOut
    case Reports => if |names| == |row| then Ok(names) else Ok(SyntheticNames(|row|))
    case RaisesValueError => Ok(SyntheticNames(|row|))
    case RaisesOther => Err(FeatureNamesUnavailable)
  }

  /** The geography frame of one profile. */
  function GeoFrame(enc: GeoEncoder, v: string): (r: Result<Frame>)
    ensures r.Ok? ==> |r.value| == |enc.categories|
  {
    var g :- EncodeGeography(enc, v);
    var names :- GeoColumnNames(enc, g.row);
    Ok(Zip(names, g.row))
  }

  /** The geography frame is built unless the known branch meets a dense encoder or the
      names call raises something other than a ValueError. On a ValueError its columns are
      named exactly `geo_0`, ..., `geo_{n-1}` for n categories, no two alike. When the names are
      reported they are the encoder's `Geography_<category>` names. */
  lemma GeoFrameNames(enc: GeoEncoder, v: string)
    ensures GeoFrame(enc, v).Ok? <==> (v !in enc.categories || enc.sparseOutput) && !enc.namesOut.RaisesOther?
    ensures GeoFrame(enc, v).Err? ==>
      GeoFrame(enc, v).error == (if v in enc.categories && !enc.sparseOutput then DenseOutput else FeatureNamesUnavailable)
    ensures GeoFrame(enc, v).Ok? && enc.namesOut.RaisesValueError? ==>
      Names(GeoFrame(enc, v).value) == SyntheticNames(|enc.categories|)
    ensures GeoFrame(enc, v).Ok? && enc.namesOut.RaisesValueError? ==> forall i :: 0 <= i < |enc.categories| ==>
      Names(GeoFrame(enc, v).value)[i] == "geo_" + Numerals.NatToString(i)
    ensures GeoFrame(enc, v).Ok? && enc.namesOut.RaisesValueError? ==> Distinct(Names(GeoFrame(enc, v).value))
    ensures GeoFrame(enc, v).Ok? && enc.namesOut.Reports? ==>
      Names(GeoFrame(enc, v).value) == FeatureNamesOut("Geography", enc.categories)
  {
    SyntheticNamesExact(|enc.categories|);
  }

  /** Male is coded 1, every other value 0. */
  function GenderCode(gender: string): (c: int)
    ensures c == 0 || c == 1
    ensures c == 1 <==> gender == "Male"
  {
    if gender == "Male" then 1 else 0
  }

  /** The numeric fields of a profile, in column order. */
  function NumericRow(p: CustomerProfile): (r: seq<real>)
    ensures |r| == |NumericColumns|
    ensures r[0] == p.creditScore as real && r[1] == GenderCode(p.gender) as real && r[8] == p.estimatedSalary
  {
    [p.creditScore as real, GenderCode(p.gender) as real, p.age as real, p.tenure as real,
     p.balance, p.numOfProducts as real, p.hasCrCard as real, p.isActiveMember as real,
     p.estimatedSalary]
  }

  /** The assembled frame: the numeric columns, then the geography columns. */
  function Features(enc: GeoEncoder, p: CustomerProfile): (r: Result<Frame>)
    ensures r.Ok? <==> GeoFrame(enc, p.geography).Ok?
    ensures r.Ok? ==> |r.value| == 9 + |enc.categories|
  {
    var geo :- GeoFrame(enc, p.geography);
    Ok(Zip(NumericColumns, NumericRow(p)) + geo)
  }

  /** The nine numeric columns, named and filled in their fixed order. */
  lemma NumericColumnsLayout(p: CustomerProfile)
    ensures Zip(NumericColumns, NumericRow(p)) ==
      [Column("CreditScore", Num(p.creditScore as real)),
       Column("Gender", Num(GenderCode(p.gender) as real)),
       Column("Age", Num(p.age as real)),
       Column("Tenure", Num(p.tenure as real)),
       Column("Balance", Num(p.balance)),
       Column("NumOfProducts", Num(p.numOfProducts as real)),
       Column("HasCrCard", Num(p.hasCrCard as real)),
       Column("IsActiveMember", Num(p.isActiveMember as real)),
       Column("EstimatedSalary", Num(p.estimatedSalary))]
  {
  }

  /** The numeric columns followed by a geography frame: the names and the numbers of
      both parts, in that order. */
  lemma AssembledLayout(p: CustomerProfile, names: seq<string>, row: seq<real>)
    requires |names| == |row|
    ensures Names(Zip(NumericColumns, NumericRow(p)) + Zip(names, row)) == NumericColumns + names
    ensures Values(Zip(NumericColumns, NumericRow(p)) + Zip(names, row)) == Ok(NumericRow(p) + row)
  {
    var numeric, geo := Zip(NumericColumns, NumericRow(p)), Zip(names, row);
    var f := numeric + geo;
    var expected := NumericRow(p) + row;
    NamesConcat(numeric, geo);
    assert forall i :: 0 <= i < |f| ==> f[i].value == Num(expected[i]) by {
      forall i | 0 <= i < |f| ensures f[i].value == Num(expected[i]) {
        if i < 9 { assert f[i] == numeric[i]; } else { assert f[i] == geo[i - 9]; }
      }
    }
    var r := Values(f);
    assert r.Ok?;
    assert |r.value| == |expected| && forall i :: 0 <= i < |expected| ==> r.value[i] == expected[i];
    assert r.value == expected;
  }

  /** When it is built, the assembled frame starts with the nine numeric columns (spelled
      out by NumericColumnsLayout) and continues with one column per category holding the
      geography encoding; its numbers are the numeric row followed by the geography row. */
  lemma FeatureLayout(enc: GeoEncoder, p: CustomerProfile)
    ensures Features(enc, p).Ok? ==>
      Names(Features(enc, p).value)
      == NumericColumns + GeoColumnNames(enc, EncodeGeography(enc, p.geography).value.row).value
    ensures Features(enc, p).Ok? ==>
      Values(Features(enc, p).value) == Ok(NumericRow(p) + EncodeGeography(enc, p.geography).value.row)
    ensures Features(enc, p).Ok? ==> Features(enc, p).value[..9] == Zip(NumericColumns, NumericRow(p))
  {
    if Features(enc, p).Ok? {
      var row := EncodeGeography(enc, p.geography).value.row;
      var names := GeoColumnNames(enc, row).value;
      var numeric := Zip(NumericColumns, NumericRow(p));
      AssembledLayout(p, names, row);
      assert Features(enc, p).value == numeric + Zip(names, row);
      assert (numeric + Zip(names, row))[..9] == numeric;
    }
  }

  /** The class is churn exactly when the probability is above 0.5 (so 0.5 itself is not
      churn); the probability shown is that of the class shown. */
  function Report(prob: real): (o: ChurnOutcome)
    ensures o.Likely? <==> prob > Threshold
    ensures !o.Failed?
    ensures o.Likely? ==> o.probability == prob
    ensures o.Unlikely? ==> o.probability == 1.0 - prob
  {
    var prediction := if prob > Threshold then 1 else 0;
    if prediction == 1 then Likely(prob) else Unlikely(1.0 - prob)
  }

  /** For a probability in [0, 1] the reported confidence is never below one half. */
  lemma ReportConfidence(prob: real)
    requires 0.0 <= prob <= 1.0
    ensures 0.5 <= Report(prob).probability <= 1.0
  {
  }

  /** 0.6 is churn at 0.6; 0.4 is not churn with confidence 0.6; 0.5 is not churn. */
  lemma ReportExamples()
    ensures Report(0.6) == Likely(0.6)
    ensures Report(0.4) == Unlikely(0.6)
    ensures Report(0.5) == Unlikely(0.5)
  {
  }

  /** The error that stops a call, in the order the script meets them: the dense encoder
      output on a known geography, then the names call, then the scaler's width check. */
  function ChurnError(a: ChurnArtifacts, p: CustomerProfile): Error {
    if p.geography in a.geo.categories && !a.geo.sparseOutput then DenseOutput
    else if a.geo.namesOut.RaisesOther? then FeatureNamesUnavailable
    else SchemaMismatch(a.scaler.width, 9 + |a.geo.categories|)
  }

  /** The network's probability for a profile, or the error raised on the way. */
  function ChurnProbability(a: ChurnArtifacts, p: CustomerProfile): (r: Result<real>)
    ensures r.Ok? <==> Features(a.geo, p).Ok? && a.scaler.width == 9 + |a.geo.categories|
    ensures r.Err? ==> r.error == ChurnError(a, p)
  {
    FeatureLayout(a.geo, p);
    GeoFrameNames(a.geo, p.geography);
    var features :- Features(a.geo, p);
    var row := Values(features).value;
    var scaled :- Scale(a.scaler, row);
    Ok(a.model(scaled))
  }

  /** One press of the button: a prediction, or the caught exception's message. */
  function PredictChurn(a: ChurnArtifacts, p: CustomerProfile): (o: ChurnOutcome)
    ensures o.Failed? <==> ChurnProbability(a, p).Err?
    ensures o.Failed? ==> o.message == ErrorPrefix + Describe(ChurnError(a, p))
  {
    match ChurnProbability(a, p)
    case Ok(prob) => Report(prob)
    case Err(e) => Failed(ErrorPrefix + Describe(e))
  }

  /** The call fails exactly when the encoder's output is dense and the geography is known,
      when the names call raises something other than a ValueError, or when the scaler was
      fitted on a width other than 9 + |categories|; the message is that of the first of
      these. Otherwise the network sees the scaled assembled row and its output is reported. */
  lemma PredictChurnOutcome(a: ChurnArtifacts, p: CustomerProfile)
    ensures PredictChurn(a, p).Failed? <==>
      || (p.geography in a.geo.categories && !a.geo.sparseOutput)
      || a.geo.namesOut.RaisesOther?
      || a.scaler.width != 9 + |a.geo.categories|
    ensures PredictChurn(a, p).Failed? ==> PredictChurn(a, p).message == ErrorPrefix + Describe(ChurnError(a, p))
    ensures !PredictChurn(a, p).Failed? ==>
      PredictChurn(a, p)
      == Report(a.model(a.scaler.transform(NumericRow(p) + EncodeGeography(a.geo, p.geography).value.row)))
  {
    FeatureLayout(a.geo, p);
    GeoFrameNames(a.geo, p.geography);
  }

  /** The "Other" geography of the form completes with a zero geography part, even with a
      dense encoder, when the names call does not raise something other than a ValueError
      and the scaler width fits. */
  lemma OtherGeographyCompletes(a: ChurnArtifacts, p: CustomerProfile)
    requires p.geography == "Other" && "Other" !in a.geo.categories
    requires !a.geo.namesOut.RaisesOther? && a.scaler.width == 9 + |a.geo.categories|
    ensures PredictChurn(a, p) == Report(a.model(a.scaler.transform(NumericRow(p) + Zeros(|a.geo.categories|))))
  {
    PredictChurnOutcome(a, p);
    EncodeGeographyUnknown(a.geo, p.geography);
  }
}
