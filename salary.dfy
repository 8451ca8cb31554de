/** The salary pipeline of streamlit_regression.py: build the one-row frame from the form,
    overwrite Gender with its code, replace Geography by its one-hot columns, select the
    training schema, scale, run the network and rescale its output. */
module Salary {
  import opened Seqs
  import opened Results
  import opened Frames
  import opened Encoders
  import opened Inference

  /** The values the form supplies; there is no salary among them, it is what is estimated. */
  datatype CustomerRecord = CustomerRecord(
    creditScore: int, gender: string, age: int, tenure: int, balance: real,
    numOfProducts: int, hasCrCard: int, isActiveMember: int, exited: int, geography: string)

  /** The fitted gender `LabelEncoder` on one cell: an opaque code, or nothing for a label
      it was not fitted on (the library raises). */
  type LabelEncoder = Value -> Option<int>

  /** The artifacts loaded once at start-up and only read afterwards. */
  datatype SalaryArtifacts = SalaryArtifacts(gender: LabelEncoder, geo: GeoEncoder, scaler: Scaler, model: Model)

  /** Either the complete estimate or the caught exception's message. */
  datatype SalaryOutcome = Estimate(salary: real) | Failed(message: string)

  /** The assumed salary range the network's sigmoid output is stretched to. */
  const SalaryScale: real := 200000.0

  const ErrorPrefix: string := "An error occurred: "

  /** The keys of the input record, in the order the record lists them. */
  const RecordKeys: seq<string> := ["CreditScore", "Gender", "Age", "Tenure", "Balance",
    "NumOfProducts", "HasCrCard", "IsActiveMember", "Exited", "Geography"]

  /** The training-time column order. */
  const ExpectedColumns: seq<string> := ["CreditScore", "Gender", "Age", "Tenure", "Balance",
    "NumOfProducts", "HasCrCard", "IsActiveMember", "Exited", "Geography_France",
    "Geography_Germany", "Geography_Spain"]

  /** `pd.DataFrame([input_data])`: one column per record key, in the record's order. */
  function InputFrame(r: CustomerRecord): (f: Frame)
    ensures |f| == |RecordKeys|
    ensures f[1] == Column("Gender", Text(r.gender)) && f[9] == Column("Geography", Text(r.geography))
  {
    [Column("CreditScore", Num(r.creditScore as real)),
     Column("Gender", Text(r.gender)),
     Column("Age", Num(r.age as real)),
     Column("Tenure", Num(r.tenure as real)),
     Column("Balance", Num(r.balance)),
     Column("NumOfProducts", Num(r.numOfProducts as real)),
     Column("HasCrCard", Num(r.hasCrCard as real)),
     Column("IsActiveMember", Num(r.isActiveMember as real)),
     Column("Exited", Num(r.exited as real)),
     Column("Geography", Text(r.geography))]
  }

  /** The record has exactly the ten keys, each once, Geography last and no
      EstimatedSalary. */
  lemma InputFrameKeys(r: CustomerRecord)
    ensures Names(InputFrame(r)) == RecordKeys && Distinct(RecordKeys)
    ensures "EstimatedSalary" !in Names(InputFrame(r))
  {
    var f := InputFrame(r);
    assert |Names(f)| == 10;
    assert forall i :: 0 <= i < 10 ==> Names(f)[i] == RecordKeys[i];
    RecordKeysDistinct();
  }

  /** Every key of the record holds the form's value for it. */
  lemma InputFrameValues(r: CustomerRecord)
    ensures forall i :: 0 <= i < |RecordKeys| ==> Get(InputFrame(r), RecordKeys[i]) == Ok(InputFrame(r)[i].value)
    ensures Get(InputFrame(r), "Gender") == Ok(Text(r.gender))
    ensures Get(InputFrame(r), "Geography") == Ok(Text(r.geography))
  {
    var f := InputFrame(r);
    InputFrameKeys(r);
    forall i | 0 <= i < |RecordKeys| ensures Get(f, RecordKeys[i]) == Ok(f[i].value) {
      GetDistinct(f, i);
    }
    assert RecordKeys[1] == "Gender" && RecordKeys[9] == "Geography";
  }

  lemma RecordKeysDistinct()
    ensures Distinct(RecordKeys)
  {
  }

  /** `input_df['Gender'] = label_encoder_gender.transform(input_df['Gender'])`, as a value. */
  function EncodeGender(enc: LabelEncoder, f: Frame): (r: Result<Frame>)
    ensures r.Ok? ==> |r.value| == |f|
    ensures r.Err? ==> r.error == UnseenLabel || r.error == MissingColumn("Gender")
  {
    var g :- Get(f, "Gender");
    match enc(g)
    case None => Err(UnseenLabel)
    case Some(code) => Ok(Assign(f, "Gender", Num(code as real)))
  }

  /** After the gender step the Gender column holds the encoder's code, at the same
      place, and nothing else changes; an unseen label or a missing column is an error. */
  lemma GenderStepEffect(enc: LabelEncoder, f: Frame)
    ensures EncodeGender(enc, f).Ok? <==> "Gender" in Names(f) && enc(Get(f, "Gender").value).Some?
    ensures EncodeGender(enc, f).Ok? ==>
      && Names(EncodeGender(enc, f).value) == Names(f)
      && Get(EncodeGender(enc, f).value, "Gender") == Ok(Num(enc(Get(f, "Gender").value).value as real))
      && (forall n :: n != "Gender" ==> Get(EncodeGender(enc, f).value, n) == Get(f, n))
      && (forall i :: 0 <= i < |f| && f[i].name != "Gender" ==> EncodeGender(enc, f).value[i] == f[i])
    ensures EncodeGender(enc, f).Err? ==>
      EncodeGender(enc, f).error == (if "Gender" in Names(f) then UnseenLabel else MissingColumn("Gender"))
  {
  }

  /** Lines 72-76: one-hot encode the Geography cell, name the new columns, drop Geography
      and append the new columns after the remaining ones. Any exception of the names call
      stops the step. The record's Geography cell is always text, so the `NotText` branch is
      there only to make the step total on any frame. */
  function ExpandGeography(enc: GeoEncoder, f: Frame): (r: Result<Frame>)
    ensures r.Err? ==> || r.error == MissingColumn("Geography") || r.error == NotText("Geography")
                       || r.error.UnknownCategory? || r.error == DenseOutput || r.error == FeatureNamesUnavailable
  {
    var g :- Get(f, "Geography");
    var v :- if g.Text? then Ok(g.s) else Err(NotText("Geography"));
    var encoded :- Transform(enc, v);
    var row :- ToArray(enc, encoded);
    var names :- if enc.namesOut.Reports? then Ok(FeatureNamesOut("Geography", enc.categories))
                 else Err(FeatureNamesUnavailable);
    var rest := Drop(f, "Geography").value;
    Ok(rest + Zip(names, row))
  }

  /** The geography step succeeds exactly on a text Geography cell that the encoder
      accepts, with an encoder whose output is sparse and that reports its column names; the result is the frame without
      Geography followed by one `Geography_<category>` column per category, in vocabulary
      order, and no column named Geography is left. */
  lemma GeographyStepEffect(enc: GeoEncoder, f: Frame)
    ensures ExpandGeography(enc, f).Ok? <==>
      && "Geography" in Names(f) && Get(f, "Geography").value.Text?
      && (Get(f, "Geography").value.s in enc.categories || enc.ignoreUnknown)
      && enc.sparseOutput && enc.namesOut.Reports?
    ensures ExpandGeography(enc, f).Ok? ==>
      && ExpandGeography(enc, f).value
         == Without(f, "Geography")
            + Zip(FeatureNamesOut("Geography", enc.categories), Transform(enc, Get(f, "Geography").value.s).value)
      && Names(ExpandGeography(enc, f).value)
         == Names(Without(f, "Geography")) + FeatureNamesOut("Geography", enc.categories)
      && "Geography" !in Names(ExpandGeography(enc, f).value)
  {
    if ExpandGeography(enc, f).Ok? {
      var rest := Without(f, "Geography");
      var geo := Zip(FeatureNamesOut("Geography", enc.categories), Transform(enc, Get(f, "Geography").value.s).value);
      NamesConcat(rest, geo);
      forall c ensures "Geography" != "Geography" + "_" + c {
        assert |"Geography"| < |"Geography" + "_" + c|;
      }
    }
  }

  /** The model's input row: gender step, geography step, selection of the training
      schema, conversion to numbers. */
  function FeatureRow(a: SalaryArtifacts, r: CustomerRecord): (row: Result<seq<real>>)
    ensures row.Ok? ==> |row.value| == |ExpectedColumns|
  {
    var coded :- EncodeGender(a.gender, InputFrame(r));
    var expanded :- ExpandGeography(a.geo, coded);
    var selected :- Select(expanded, ExpectedColumns);
    Values(selected)
  }

  /** The network's raw output for a record, or the error raised on the way. */
  function RawPrediction(a: SalaryArtifacts, r: CustomerRecord): (p: Result<real>)
    ensures p.Ok? <==> FeatureRow(a, r).Ok? && a.scaler.width == |ExpectedColumns|
    ensures p.Err? && FeatureRow(a, r).Ok? ==> p.error == SchemaMismatch(a.scaler.width, |ExpectedColumns|)
  {
    var row :- FeatureRow(a, r);
    var scaled :- Scale(a.scaler, row);
    Ok(a.model(scaled))
  }

  /** The raw sigmoid output stretched to a salary. */
  function Rescale(prediction: real): (salary: real)
    ensures salary / SalaryScale == prediction
    ensures 0.0 <= prediction <= 1.0 ==> 0.0 <= salary <= SalaryScale
  {
    prediction * SalaryScale
  }

  /** 0.25 is reported as 50000. */
  lemma RescaleExample()
    ensures Rescale(0.25) == 50000.0
  {
  }

  /** One submission of the form. */
  function SalaryPipeline(a: SalaryArtifacts, r: CustomerRecord): (o: SalaryOutcome)
    ensures o.Estimate? <==> RawPrediction(a, r).Ok?
    ensures o.Estimate? ==> o.salary / SalaryScale == RawPrediction(a, r).value
    ensures o.Failed? ==> |o.message| > |ErrorPrefix|
  {
    match RawPrediction(a, r)
    case Ok(prediction) => Estimate(Rescale(prediction))
    case Err(e) => Failed(ErrorPrefix + Describe(e))
  }

  /** The numeric part of the record once Gender holds its code, in record order. */
  function CodedRow(r: CustomerRecord, code: int): seq<real> {
    [r.creditScore as real, code as real, r.age as real, r.tenure as real, r.balance,
     r.numOfProducts as real, r.hasCrCard as real, r.isActiveMember as real, r.exited as real]
  }

  /** The first nine columns of the record after the gender step. */
  function CodedColumns(r: CustomerRecord, code: int): Frame {
    [Column("CreditScore", Num(r.creditScore as real)),
     Column("Gender", Num(code as real)),
     Column("Age", Num(r.age as real)),
     Column("Tenure", Num(r.tenure as real)),
     Column("Balance", Num(r.balance)),
     Column("NumOfProducts", Num(r.numOfProducts as real)),
     Column("HasCrCard", Num(r.hasCrCard as real)),
     Column("IsActiveMember", Num(r.isActiveMember as real)),
     Column("Exited", Num(r.exited as real))]
  }

  lemma CodedColumnsLayout(r: CustomerRecord, code: int)
    ensures Names(CodedColumns(r, code)) == ExpectedColumns[..9] && Distinct(ExpectedColumns[..9])
    ensures forall i :: 0 <= i < 9 ==> CodedColumns(r, code)[i].value == Num(CodedRow(r, code)[i])
  {
    var f := CodedColumns(r, code);
    assert |Names(f)| == 9;
    assert forall i :: 0 <= i < 9 ==> Names(f)[i] == ExpectedColumns[i];
    ExpectedColumnsDistinct();
  }

  lemma ExpectedColumnsDistinct()
    ensures Distinct(ExpectedColumns)
    ensures Distinct(ExpectedColumns[..9])
  {
  }

  /** The gender step on the record frame overwrites its second column. */
  lemma AssignGenderOnRecord(r: CustomerRecord, code: int)
    ensures Assign(InputFrame(r), "Gender", Num(code as real))
            == CodedColumns(r, code) + [Column("Geography", Text(r.geography))]
  {
    AssignGenderAt(r, code);
    GenderReplaced(r, code);
  }

  lemma AssignGenderAt(r: CustomerRecord, code: int)
    ensures Assign(InputFrame(r), "Gender", Num(code as real))
            == InputFrame(r)[1 := Column("Gender", Num(code as real))]
  {
    var f := InputFrame(r);
    InputFrameKeys(r);
    DistinctIndexOf(Names(f), 1);
    AssignExisting(f, "Gender", Num(code as real));
  }

  lemma GenderReplaced(r: CustomerRecord, code: int)
    ensures InputFrame(r)[1 := Column("Gender", Num(code as real))]
            == CodedColumns(r, code) + [Column("Geography", Text(r.geography))]
  {
  }

  /** On the record, the gender step fails exactly on a label the encoder rejects, and
      otherwise puts the code in the second column and leaves the other nine as they were. */
  lemma GenderStepOnRecord(enc: LabelEncoder, r: CustomerRecord)
    ensures enc(Text(r.gender)).None? ==> EncodeGender(enc, InputFrame(r)) == Err(UnseenLabel)
    ensures enc(Text(r.gender)).Some? ==>
      EncodeGender(enc, InputFrame(r))
      == Ok(CodedColumns(r, enc(Text(r.gender)).value) + [Column("Geography", Text(r.geography))])
  {
    InputFrameValues(r);
    if enc(Text(r.gender)).Some? {
      AssignGenderOnRecord(r, enc(Text(r.gender)).value);
    }
  }

  /** Why the geography step stops on the record, in the order the script meets it: an
      unknown geography the encoder does not ignore, dense output with no `.toarray()`, or a
      names call that raises. */
  function GeographyError(enc: GeoEncoder, r: CustomerRecord): Error {
    if r.geography !in enc.categories && !enc.ignoreUnknown then UnknownCategory(r.geography)
    else if !enc.sparseOutput then DenseOutput
    else FeatureNamesUnavailable
  }

  /** On the gender-coded record, the geography step fails on an unknown geography (unless
      the encoder ignores unknown values), on dense encoder output, or on an encoder that
      cannot name its columns;
      otherwise the nine other columns keep their places and the `Geography_<category>`
      columns follow them, one per category in vocabulary order. */
  lemma GeographyStepOnRecord(enc: GeoEncoder, r: CustomerRecord, code: int)
    ensures ExpandGeography(enc, CodedColumns(r, code) + [Column("Geography", Text(r.geography))]).Ok?
      <==> (r.geography in enc.categories || enc.ignoreUnknown) && enc.sparseOutput && enc.namesOut.Reports?
    ensures ExpandGeography(enc, CodedColumns(r, code) + [Column("Geography", Text(r.geography))]).Err? ==>
      ExpandGeography(enc, CodedColumns(r, code) + [Column("Geography", Text(r.geography))]).error
      == GeographyError(enc, r)
    ensures (r.geography in enc.categories || enc.ignoreUnknown) && enc.sparseOutput && enc.namesOut.Reports? ==>
      ExpandGeography(enc, CodedColumns(r, code) + [Column("Geography", Text(r.geography))])
      == Ok(CodedColumns(r, code)
            + Zip(FeatureNamesOut("Geography", enc.categories), Transform(enc, r.geography).value))
  {
    var nine := CodedColumns(r, code);
    var c := Column("Geography", Text(r.geography));
    var f := nine + [c];
    assert "Geography" !in Names(nine);
    GetConcat(nine, [c], "Geography");
    assert Get([c], "Geography") == Ok(Text(r.geography));
    NamesConcat(nine, [c]);
    WithoutLast(nine, c);
  }

  /** 1.0 for true, 0.0 for false. */
  function Flag(b: bool): real {
    if b then 1.0 else 0.0
  }

  /** The frame after the geography step on the gender-coded record. */
  function ExpandedColumns(enc: GeoEncoder, r: CustomerRecord, code: int): Frame
    requires r.geography in enc.categories || enc.ignoreUnknown
  {
    CodedColumns(r, code) + Zip(FeatureNamesOut("Geography", enc.categories), Transform(enc, r.geography).value)
  }

  lemma NoRecordColumnGeoPrefixed(r: CustomerRecord, code: int, category: string)
    ensures "Geography_" + category !in Names(CodedColumns(r, code))
  {
    CodedColumnsLayout(r, code);
    var n := "Geography_" + category;
    assert |n| >= 10 && n[0] == 'G';
    assert forall i :: 0 <= i < 9 ==> |ExpectedColumns[i]| < 10 || ExpectedColumns[i][0] != 'G';
  }

  /** The Geography_<category> column of the expanded frame holds 1 exactly when the
      record's geography is that category. */
  lemma GeoColumnValue(enc: GeoEncoder, r: CustomerRecord, code: int, category: string)
    requires Distinct(enc.categories) && category in enc.categories
    requires r.geography in enc.categories || enc.ignoreUnknown
    ensures Get(ExpandedColumns(enc, r, code), "Geography_" + category) == Ok(Num(Flag(r.geography == category)))
  {
    var nine := CodedColumns(r, code);
    var names := FeatureNamesOut("Geography", enc.categories);
    var row := Transform(enc, r.geography).value;
    var geo := Zip(names, row);
    var k := IndexOf(enc.categories, category);
    assert names[k] == "Geography_" + category;
    NoRecordColumnGeoPrefixed(r, code, category);
    GetConcat(nine, geo, "Geography_" + category);
    FeatureNamesOutDistinct("Geography", enc.categories);
    GetDistinct(geo, k);
    if r.geography in enc.categories {
      IndicatorExact(enc.categories, r.geography);
    }
  }

  /** The nine record columns of the expanded frame hold the record values and the code. */
  lemma RecordColumnValues(enc: GeoEncoder, r: CustomerRecord, code: int)
    requires r.geography in enc.categories || enc.ignoreUnknown
    ensures forall i :: 0 <= i < 9 ==> Get(ExpandedColumns(enc, r, code), ExpectedColumns[i]) == Ok(Num(CodedRow(r, code)[i]))
  {
    var nine := CodedColumns(r, code);
    var geo := Zip(FeatureNamesOut("Geography", enc.categories), Transform(enc, r.geography).value);
    CodedColumnsLayout(r, code);
    forall i | 0 <= i < 9 ensures Get(nine + geo, ExpectedColumns[i]) == Ok(Num(CodedRow(r, code)[i])) {
      assert ExpectedColumns[i] == Names(nine)[i];
      GetConcat(nine, geo, ExpectedColumns[i]);
      GetDistinct(nine, i);
    }
  }

  /** On the record, the whole feature preparation comes down to selecting the schema from
      the expanded frame. */
  lemma FeatureRowOnRecord(a: SalaryArtifacts, r: CustomerRecord)
    requires a.gender(Text(r.gender)).Some? && a.geo.sparseOutput && a.geo.namesOut.Reports?
    requires r.geography in a.geo.categories || a.geo.ignoreUnknown
    ensures FeatureRow(a, r) ==
      var selected :- Select(ExpandedColumns(a.geo, r, a.gender(Text(r.gender)).value), ExpectedColumns);
      Values(selected)
  {
    GenderStepOnRecord(a.gender, r);
    GeographyStepOnRecord(a.geo, r, a.gender(Text(r.gender)).value);
  }

  /** The twelve model inputs of a record in schema order: the nine record values with the
      gender code, then one indicator per schema country. */
  function SchemaRow(r: CustomerRecord, code: int): (row: seq<real>) {
    CodedRow(r, code)
    + [Flag(r.geography == "France"), Flag(r.geography == "Germany"), Flag(r.geography == "Spain")]
  }

  /** Whatever order the vocabulary lists France, Germany and Spain in (and even with other
      categories beside them), the feature row is the record's schema row. */
  lemma FeatureRowInSchemaOrder(a: SalaryArtifacts, r: CustomerRecord)
    requires a.gender(Text(r.gender)).Some?
    requires Distinct(a.geo.categories) && a.geo.sparseOutput && a.geo.namesOut.Reports?
    requires "France" in a.geo.categories && "Germany" in a.geo.categories && "Spain" in a.geo.categories
    requires r.geography in a.geo.categories || a.geo.ignoreUnknown
    ensures FeatureRow(a, r) == Ok(SchemaRow(r, a.gender(Text(r.gender)).value))
  {
    FeatureRowOnRecord(a, r);
    SchemaSelection(a.geo, r, a.gender(Text(r.gender)).value);
  }

  /** The last three schema columns, one per country. */
  function SchemaCountryNames(): seq<string> {
    [ExpectedColumns[9], ExpectedColumns[10], ExpectedColumns[11]]
  }

  lemma SchemaCountryColumns()
    ensures ExpectedColumns[9] == "Geography_" + "France"
    ensures ExpectedColumns[10] == "Geography_" + "Germany"
    ensures ExpectedColumns[11] == "Geography_" + "Spain"
  {
  }

  /** Each schema column of the expanded frame holds the matching entry of the schema row. */
  lemma SchemaLookup(enc: GeoEncoder, r: CustomerRecord, code: int, i: nat)
    requires Distinct(enc.categories)
    requires "France" in enc.categories && "Germany" in enc.categories && "Spain" in enc.categories
    requires r.geography in enc.categories || enc.ignoreUnknown
    requires i < 12
    ensures Get(ExpandedColumns(enc, r, code), ExpectedColumns[i]) == Ok(Num(SchemaRow(r, code)[i]))
  {
    SchemaCountryColumns();
    if i < 9 {
      RecordColumnValues(enc, r, code);
    } else if i == 9 {
      GeoColumnValue(enc, r, code, "France");
    } else if i == 10 {
      GeoColumnValue(enc, r, code, "Germany");
    } else {
      GeoColumnValue(enc, r, code, "Spain");
    }
  }

  lemma SchemaSelection(enc: GeoEncoder, r: CustomerRecord, code: int)
    requires Distinct(enc.categories)
    requires "France" in enc.categories && "Germany" in enc.categories && "Spain" in enc.categories
    requires r.geography in enc.categories || enc.ignoreUnknown
    ensures Select(ExpandedColumns(enc, r, code), ExpectedColumns).Ok?
    ensures Values(Select(ExpandedColumns(enc, r, code), ExpectedColumns).value) == Ok(SchemaRow(r, code))
  {
    forall i | 0 <= i < 12
      ensures Get(ExpandedColumns(enc, r, code), ExpectedColumns[i]) == Ok(Num(SchemaRow(r, code)[i]))
    {
      SchemaLookup(enc, r, code, i);
    }
    SelectValues(ExpandedColumns(enc, r, code), ExpectedColumns, SchemaRow(r, code));
  }

  /** With the schema covered, a submission ends with the rescaled network output on the
      scaled schema row when the scaler was fitted on twelve columns, and with a schema
      mismatch otherwise. */
  lemma EstimateOnSchemaRow(a: SalaryArtifacts, r: CustomerRecord)
    requires a.gender(Text(r.gender)).Some?
    requires Distinct(a.geo.categories) && a.geo.sparseOutput && a.geo.namesOut.Reports?
    requires "France" in a.geo.categories && "Germany" in a.geo.categories && "Spain" in a.geo.categories
    requires r.geography in a.geo.categories || a.geo.ignoreUnknown
    ensures a.scaler.width == 12 ==>
      SalaryPipeline(a, r)
      == Estimate(a.model(a.scaler.transform(SchemaRow(r, a.gender(Text(r.gender)).value))) * SalaryScale)
    ensures a.scaler.width != 12 ==>
      SalaryPipeline(a, r) == Failed(ErrorPrefix + Describe(SchemaMismatch(a.scaler.width, 12)))
  {
    FeatureRowInSchemaOrder(a, r);
  }

  /** The nine record columns are always present after the geography step. */
  lemma RecordColumnsPresent(enc: GeoEncoder, r: CustomerRecord, code: int)
    requires r.geography in enc.categories || enc.ignoreUnknown
    ensures forall i :: 0 <= i < 9 ==> ExpectedColumns[i] in Names(ExpandedColumns(enc, r, code))
  {
    RecordColumnValues(enc, r, code);
  }

  /** A `Geography_<country>` column is present after the geography step exactly when the
      country is in the vocabulary. */
  lemma GeoColumnPresent(enc: GeoEncoder, r: CustomerRecord, code: int, country: string)
    requires r.geography in enc.categories || enc.ignoreUnknown
    ensures "Geography_" + country in Names(ExpandedColumns(enc, r, code)) <==> country in enc.categories
  {
    var nine := CodedColumns(r, code);
    var names := FeatureNamesOut("Geography", enc.categories);
    var geo := Zip(names, Transform(enc, r.geography).value);
    NamesConcat(nine, geo);
    NoRecordColumnGeoPrefixed(r, code, country);
    if country in enc.categories {
      assert names[IndexOf(enc.categories, country)] == "Geography_" + country;
    } else {
      forall i | 0 <= i < |names| ensures names[i] != "Geography_" + country {
        if names[i] == "Geography_" + country {
          PrefixCancel("Geography_", enc.categories[i], country);
        }
      }
    }
  }

  /** Selecting the schema fails on a country column when the vocabulary lacks that
      country. */
  lemma MissingSchemaSelection(enc: GeoEncoder, r: CustomerRecord, code: int)
    requires r.geography in enc.categories || enc.ignoreUnknown
    requires !("France" in enc.categories && "Germany" in enc.categories && "Spain" in enc.categories)
    ensures Select(ExpandedColumns(enc, r, code), ExpectedColumns).Err?
    ensures Select(ExpandedColumns(enc, r, code), ExpectedColumns).error.MissingColumn?
    ensures Select(ExpandedColumns(enc, r, code), ExpectedColumns).error.column in SchemaCountryNames()
  {
    var expanded := ExpandedColumns(enc, r, code);
    SchemaCountryColumns();
    var j: nat := if "France" !in enc.categories then 9 else if "Germany" !in enc.categories then 10 else 11;
    GeoColumnPresent(enc, r, code, if j == 9 then "France" else if j == 10 then "Germany" else "Spain");
    assert ExpectedColumns[j] !in Names(expanded);
    RecordColumnsPresent(enc, r, code);
    var e := Select(expanded, ExpectedColumns).error;
    CountryColumn(e.column);
  }

  /** A schema column that is none of the nine record columns is a country column. */
  lemma CountryColumn(c: string)
    requires c in ExpectedColumns && forall i :: 0 <= i < 9 ==> ExpectedColumns[i] != c
    ensures c in SchemaCountryNames()
  {
    var k :| 0 <= k < |ExpectedColumns| && ExpectedColumns[k] == c;
    assert k >= 9;
  }

  /** A vocabulary lacking one of the schema countries makes the selection fail on that
      country's column, and the submission ends with an error and no estimate. */
  lemma MissingSchemaColumnFails(a: SalaryArtifacts, r: CustomerRecord)
    requires a.gender(Text(r.gender)).Some? && a.geo.sparseOutput && a.geo.namesOut.Reports?
    requires r.geography in a.geo.categories || a.geo.ignoreUnknown
    requires !("France" in a.geo.categories && "Germany" in a.geo.categories && "Spain" in a.geo.categories)
    ensures RawPrediction(a, r).Err?
    ensures RawPrediction(a, r).error.MissingColumn? && RawPrediction(a, r).error.column in SchemaCountryNames()
    ensures SalaryPipeline(a, r) == Failed(ErrorPrefix + Describe(RawPrediction(a, r).error))
  {
    FeatureRowOnRecord(a, r);
    MissingSchemaSelection(a.geo, r, a.gender(Text(r.gender)).value);
  }

  /** An unknown geography, with an encoder that does not ignore unknown values, ends the
      submission with the encoder's error. */
  lemma UnknownGeographyFails(a: SalaryArtifacts, r: CustomerRecord)
    requires a.gender(Text(r.gender)).Some?
    requires r.geography !in a.geo.categories && !a.geo.ignoreUnknown
    ensures SalaryPipeline(a, r) == Failed(ErrorPrefix + Describe(UnknownCategory(r.geography)))
  {
    GenderStepOnRecord(a.gender, r);
    GeographyStepOnRecord(a.geo, r, a.gender(Text(r.gender)).value);
  }

  /** An accepted geography with an encoder whose output is dense, or whose names call
      raises, ends the submission with that error. */
  lemma GeographyEncoderFails(a: SalaryArtifacts, r: CustomerRecord)
    requires a.gender(Text(r.gender)).Some?
    requires r.geography in a.geo.categories || a.geo.ignoreUnknown
    requires !(a.geo.sparseOutput && a.geo.namesOut.Reports?)
    ensures SalaryPipeline(a, r)
      == Failed(ErrorPrefix + Describe(if !a.geo.sparseOutput then DenseOutput else FeatureNamesUnavailable))
  {
    GenderStepOnRecord(a.gender, r);
    GeographyStepOnRecord(a.geo, r, a.gender(Text(r.gender)).value);
  }

  /** A submission ends with an estimate exactly when the gender label is known, the
      encoder accepts the geography, produces sparse output and reports its names, its
      vocabulary holds the three schema countries, and the scaler was fitted on twelve
      columns; every other submission ends with an error message. */
  lemma EstimateExactlyWhen(a: SalaryArtifacts, r: CustomerRecord)
    requires Distinct(a.geo.categories)
    ensures SalaryPipeline(a, r).Estimate? <==>
      && a.gender(Text(r.gender)).Some?
      && (r.geography in a.geo.categories || a.geo.ignoreUnknown)
      && a.geo.sparseOutput && a.geo.namesOut.Reports?
      && "France" in a.geo.categories && "Germany" in a.geo.categories && "Spain" in a.geo.categories
      && a.scaler.width == |ExpectedColumns|
  {
    if a.gender(Text(r.gender)).None? {
      UnseenGenderFails(a, r);
    } else if !(r.geography in a.geo.categories || a.geo.ignoreUnknown) {
      UnknownGeographyFails(a, r);
    } else if !(a.geo.sparseOutput && a.geo.namesOut.Reports?) {
      GeographyEncoderFails(a, r);
    } else if !("France" in a.geo.categories && "Germany" in a.geo.categories && "Spain" in a.geo.categories) {
      MissingSchemaColumnFails(a, r);
    } else {
      EstimateOnSchemaRow(a, r);
    }
  }

  /** A gender label the encoder rejects ends the submission before anything else runs. */
  lemma UnseenGenderFails(a: SalaryArtifacts, r: CustomerRecord)
    requires a.gender(Text(r.gender)).None?
    ensures SalaryPipeline(a, r) == Failed(ErrorPrefix + Describe(UnseenLabel))
  {
    GenderStepOnRecord(a.gender, r);
  }

  /** The same steps run on a DataFrame object: the Gender column is overwritten in place,
      and the variable is then rebound to the expanded and the selected frame. */
  method PredictSalary(a: SalaryArtifacts, r: CustomerRecord) returns (out: SalaryOutcome)
    ensures out == SalaryPipeline(a, r)
  {
    var df := new DataFrame(InputFrame(r));
    assert Names(df.columns)[1] == "Gender";
    var gender := Get(df.columns, "Gender").value;
    var code := a.gender(gender);
    if code.None? {
      return Failed(ErrorPrefix + Describe(UnseenLabel));
    }
    df.SetColumn("Gender", Num(code.value as real));
    var expanded := ExpandGeography(a.geo, df.columns);
    if expanded.Err? {
      return Failed(ErrorPrefix + Describe(expanded.error));
    }
    df := new DataFrame(expanded.value);
    var selected := Select(df.columns, ExpectedColumns);
    if selected.Err? {
      return Failed(ErrorPrefix + Describe(selected.error));
    }
    df := new DataFrame(selected.value);
    var row := Values(df.columns);
    if row.Err? {
      return Failed(ErrorPrefix + Describe(row.error));
    }
    var scaled := Scale(a.scaler, row.value);
    if scaled.Err? {
      return Failed(ErrorPrefix + Describe(scaled.error));
    }
    var prediction := a.model(scaled.value);
    out := Estimate(Rescale(prediction));
  }
}
