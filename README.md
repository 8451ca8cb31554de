# Churn and salary prediction pipelines

This project models the two bank-customer prediction scripts:

- `app.py` encodes one customer profile and classifies it as likely or unlikely to churn.
- `streamlit_regression.py` encodes one customer record and estimates its salary.

Both scripts do the same work in the same order:

1. Turn the categorical fields into numbers. Geography is one-hot encoded against the vocabulary of the fitted encoder, and Gender gets a code.
2. Assemble the columns in the order the model was trained on.
3. Hand the row to the fitted scaler and the trained network.
4. Interpret the network's single output:
   - churn: a 0.5 threshold plus the confidence of the class shown;
   - salary: a rescale by 200000.

Any exception raised on the way is caught at the button handler and shown as a message.

The fitted artifacts are parameters of the model, never loaded:

- The one-hot encoder is `Encoders.GeoEncoder`. It has four fields:
  - its categories;
  - whether it ignores unknown values (`handle_unknown='ignore'`);
  - whether its output is sparse (`sparse_output`, true by default). Both scripts call `.toarray()`, which only a sparse matrix has.
  - how `get_feature_names_out` behaves: it reports the names, raises a ValueError, or raises another exception.
- The gender label encoder is an uninterpreted function. It returns a code, or nothing for a label it was not fitted on.
- The scaler is `Inference.Scaler`. It holds the width it was fitted on and an uninterpreted transform that preserves length.
- The network is an uninterpreted function from a row to a real.

Modules:

- `Seqs`: first-occurrence lookup and distinctness.
- `Numerals`: decimal rendering of indices, for the `geo_i` names and the messages.
- `Results`: the error kinds, `Option`, `Result`, and the message texts.
- `Frames`: a one-row pandas frame as a sequence of named columns.
  - Lookup, selection, drop, assignment, and conversion to numbers.
  - The class `DataFrame`, whose column is overwritten in place.
- `Encoders`: one-hot encoding, decoding, and column naming.
- `Inference`: the scaler and the network.
- `Churn`: the `app.py` pipeline, as functions and lemmas.
- `Salary`: the `streamlit_regression.py` pipeline.
  - The steps are functions; the lemmas relate them.
  - `PredictSalary` is the imperative method that overwrites the Gender column of a `DataFrame` object and rebinds the frame step by step, as the script does.

The intended design is graceful degradation:

- A geography outside the vocabulary should become a zero vector of vocabulary width rather than an error.
- An encoder that cannot report its column names should get the synthetic names `geo_0`, `geo_1`, ….

The scripts deliver this only in part, and the model follows the scripts:

- Unknown geography.
  - `app.py` absorbs it through its own membership test (lines 44-47).
  - `streamlit_regression.py` passes the value straight to the encoder (line 72). There an unknown geography fails unless the encoder ignores unknown values.
- Synthetic names.
  - `app.py` uses them only on a ValueError (line 53). That also covers a frame built with the wrong number of names.
  - Any other exception from the names call, such as an AttributeError, escapes to the outer handler and fails the call.
  - `streamlit_regression.py` has no fallback at all (line 73).
- Dense encoder output.
  - With a dense encoder, `.toarray()` fails.
  - `app.py` then fails on every known geography but completes on an unknown one, which never reaches the encoder.
  - `streamlit_regression.py` then fails on every submission.

## Model

| member | source | states |
|---|---|---|
| Churn.EncodeGeography | app.py:43-47 | A known value goes through `transform(...).toarray()`. It fails with DenseOutput exactly when the encoder output is dense. Otherwise the row is Known exactly when the value is in the vocabulary, and it has one entry per category either way. A known value has a 1 at its category's index and 0 elsewhere. An unknown value gives all zeros and never an error. |
| Encoders.Indicator | app.py:45 | The row has one entry per category, a 1 at the encoded category's index and 0 elsewhere. |
| Encoders.Zeros | app.py:47 | The row has n entries, all 0. |
| Encoders.ToArray | app.py:45 | `.toarray()` succeeds exactly on sparse encoder output and then keeps the row. Dense output gives DenseOutput. |
| Churn.EncodeGeographyRoundTrip | app.py:43-45 | When a known geography is encoded, decoding the position of the single 1 gives the geography back. |
| Churn.EncodeGeographyUnknown | app.py:46-47 | An unknown geography (the form's "Other" included) is the tagged zero row whatever the encoder's output format, and it decodes to no category. |
| Encoders.IndicatorExact | app.py:45 | Over a vocabulary with no repeats, the one-hot entry is 1 exactly at the column of the encoded category. Every entry is 0 or 1. |
| Encoders.DecodeIndicator | app.py:43-45 | Decoding a one-hot row gives back the encoded category. |
| Encoders.DecodeZeros | app.py:47 | An all-zero row decodes to no category. |
| Churn.GeoFrameNames | app.py:44-54 | The geography frame is built exactly when neither of two things happens: a dense encoder meets a known geography, or the names call raises something other than a ValueError. The error is DenseOutput or FeatureNamesUnavailable accordingly. On a ValueError the columns are exactly `geo_0` … `geo_{n-1}`, with no two alike. When the names are reported they are the encoder's `Geography_<category>` names. |
| Encoders.SyntheticNamesExact | app.py:54 | The i-th synthetic name is `geo_` followed by the decimal digits of i, and the names are pairwise distinct. |
| Numerals.ParseNatToString | app.py:54 | The decimal rendering of an index reads back as that index. |
| Numerals.NatToStringInjective | app.py:54 | Different indices get different renderings. |
| Churn.GeoColumnNames | app.py:50-54 | Naming succeeds exactly when the names call does not raise something other than a ValueError, and it then gives one name per encoded column on both branches. Otherwise the error is FeatureNamesUnavailable. |
| Numerals.NatToString | app.py:54 | The rendering of an index, as `str(i)` inside `f"geo_{i}"`, is non-empty and all decimal digits, with no leading zero. |
| Encoders.SyntheticNames | app.py:54 | There is one synthetic name per column. |
| Churn.GeoFrame | app.py:50-54 | A built geography frame has one column per category. |
| Churn.GenderCode | app.py:57 | The code is 0 or 1. It is 1 exactly when the gender is "Male". |
| Churn.NumericRow | app.py:60-62 | The numeric row has nine entries, starting with the credit score and the gender code and ending with the estimated salary. |
| Churn.NumericColumnsLayout | app.py:60-66 | The nine numeric columns are CreditScore, Gender, Age, Tenure, Balance, NumOfProducts, HasCrCard, IsActiveMember and EstimatedSalary, holding the profile's values in that order. |
| Frames.Zip | app.py:60-66 | A frame built from names and numbers, as `pd.DataFrame(values, columns=names)`, has exactly the given names as labels, and its i-th cell is the i-th number. |
| Churn.AssembledLayout | app.py:69 | Concatenating the numeric columns and a geography frame gives the names and the numbers of both parts, in that order. |
| Churn.Features | app.py:60-69 | The frame is built exactly when the geography frame is. It then has 9 + \|vocabulary\| columns. |
| Churn.FeatureLayout | app.py:60-69 | When the frame is built, its first nine columns are the numeric columns and the remaining columns carry the geography names. Its numbers are the nine numeric values followed by the geography row. |
| Churn.Report | app.py:76-82 | The outcome is churn exactly when prob > 0.5. The probability shown is prob for churn and 1 − prob otherwise. It is never an error. |
| Churn.ReportConfidence | app.py:76-82 | For prob in [0, 1], the reported confidence is between 0.5 and 1. |
| Churn.ReportExamples | app.py:76-82 | 0.6 gives churn at 0.6, 0.4 gives no churn at 0.6, and 0.5 gives no churn at 0.5. |
| Churn.ChurnProbability | app.py:41-75 | A probability is produced exactly when the frame is built and the scaler width is 9 + \|vocabulary\|. Otherwise the error is the first one the script meets: dense output on a known geography, then the names call, then the width. |
| Churn.PredictChurn | app.py:41-85 | The outcome is Failed exactly when no probability was produced. The message is the prefix followed by the description of that first error. |
| Churn.PredictChurnOutcome | app.py:41-85 | The call fails exactly when (a) a dense encoder meets a known geography, (b) the names call raises something other than a ValueError, or (c) the scaler's width is not 9 + \|vocabulary\|. The message is the prefixed error of the first of these. Otherwise the outcome is the threshold report on the network output for the scaled assembled row. |
| Churn.OtherGeographyCompletes | app.py:27-47 | An "Other" geography outside the vocabulary completes with a zero geography part, even with a dense encoder. This needs the names call not to raise a non-ValueError, and the scaler width to fit. |
| Inference.Scale | app.py:72 | A row is accepted exactly when its width is the scaler's. A wrong width is a schema mismatch naming both widths. An accepted row is transformed into a row of the same length. |
| Inference.ScaleRejectsShortRow | streamlit_regression.py:85 | A row of 11 features is rejected by a scaler fitted on 12. |
| Salary.InputFrameKeys | streamlit_regression.py:54-68 | The record frame has exactly the ten keys CreditScore … Exited, Geography, in that order and each once. There is no EstimatedSalary among them. |
| Salary.InputFrame | streamlit_regression.py:54-68 | The frame has one column per record key. The second holds the gender text and the last the geography text. |
| Salary.InputFrameValues | streamlit_regression.py:54-68 | Each key holds the form's value. Gender and Geography hold the chosen texts. |
| Salary.GenderStepEffect | streamlit_regression.py:71 | The gender step succeeds exactly when Gender is present and the encoder knows its label. Gender then holds the code at the same place and every other column is unchanged. Otherwise the error is an unseen label or a missing column. |
| Salary.EncodeGender | streamlit_regression.py:71 | The gender step keeps the number of columns. It fails only with UnseenLabel or a missing Gender column. |
| Frames.DataFrame.constructor | streamlit_regression.py:68 | `pd.DataFrame([input_data])` creates a frame object whose columns are exactly the given ones. |
| Frames.DataFrame.SetColumn | streamlit_regression.py:71 | The frame's columns become the assignment of the value to that label: overwritten in place, or appended when the label is absent. |
| Frames.Assign | streamlit_regression.py:71 | After assignment the label holds the new value. Every other label's lookup is unchanged, and so is every column with another label. The names stay the same, or gain the label at the end. |
| Salary.GenderStepOnRecord | streamlit_regression.py:68-71 | On the record, an unseen label fails with UnseenLabel. A known label replaces the second column by the code and keeps the other nine. |
| Encoders.Transform | streamlit_regression.py:72 | The encoder accepts the value exactly when it is in the vocabulary or unknown values are ignored. It yields the one-hot row or the zero row of vocabulary width. Otherwise the error is UnknownCategory of that value. |
| Encoders.FeatureNamesOut | streamlit_regression.py:73 | The i-th name is `Geography_` joined to the i-th category, one per category in vocabulary order. |
| Encoders.FeatureNamesOutDistinct | streamlit_regression.py:73 | Distinct categories give distinct column names. |
| Salary.ExpandGeography | streamlit_regression.py:72-76 | The geography step fails only with one of five errors: a missing or non-text Geography cell, an unknown category, dense output, or unavailable names. |
| Frames.Drop | streamlit_regression.py:76 | Dropping succeeds exactly when the label is present. The label is then gone and every other lookup is unchanged. Otherwise the error is MissingColumn. |
| Frames.Without | streamlit_regression.py:76 | No column with the label is left. A frame without the label is returned unchanged. |
| Frames.WithoutGet | streamlit_regression.py:76 | Removing one label leaves every other lookup as it was. |
| Frames.WithoutLast | streamlit_regression.py:76 | Dropping the label of a last, unique column gives back the columns before it. |
| Salary.GeographyStepEffect | streamlit_regression.py:72-76 | The step succeeds exactly when four things hold: the Geography cell is text, the encoder accepts it, the output is sparse, and the encoder reports its names. The result is the frame without Geography, followed by one `Geography_<category>` column per category. No Geography column is left. |
| Salary.GeographyStepOnRecord | streamlit_regression.py:72-76 | On the coded record, the nine other columns keep their places and the `Geography_<category>` columns follow. The step fails exactly on one of three errors, checked in order: an unknown geography the encoder does not ignore, dense output, or a names call that raises. |
| Salary.GeoColumnValue | streamlit_regression.py:72-76 | Each `Geography_<category>` column holds 1 exactly when the record's geography is that category, and 0 otherwise. |
| Salary.GeoColumnPresent | streamlit_regression.py:73-76 | A `Geography_<country>` column exists after the step exactly when the country is in the vocabulary. |
| Frames.Select | streamlit_regression.py:82 | Selection succeeds exactly when every requested label is present. The result has exactly the requested labels, in the requested order, each with the value it had before. A failure names a requested label that is absent. |
| Frames.Get | streamlit_regression.py:71 | A lookup succeeds exactly when the label is present and gives the value of the first such column. Otherwise the error is MissingColumn. |
| Frames.GetConcat | streamlit_regression.py:76 | A lookup in a concatenation finds the left frame's column first. |
| Frames.SelectIgnoresOrder | streamlit_regression.py:76-82 | Frames that agree on every requested lookup give the same selection, whatever order they were assembled in. |
| Frames.PermutedGet | streamlit_regression.py:76-82 | Two frames with the same columns, each label once, agree on every lookup whatever their order. |
| Frames.SelectValues | streamlit_regression.py:82-85 | Selecting labels whose lookups are numbers, then converting, gives those numbers in selection order. |
| Frames.Values | streamlit_regression.py:85 | Conversion succeeds exactly when every cell is numeric, and keeps every number in column order. Otherwise it names a text column. |
| Salary.FeatureRow | streamlit_regression.py:71-85 | A built feature row has exactly twelve entries, one per schema column. |
| Salary.RawPrediction | streamlit_regression.py:85-88 | The network runs exactly when the feature row is built and the scaler was fitted on twelve columns. A built row of the wrong width gives the schema mismatch. |
| Salary.FeatureRowInSchemaOrder | streamlit_regression.py:54-82 | With France, Germany and Spain in the vocabulary (any order, other categories allowed), the model row is the nine record values with the gender code, then one indicator each for France, Germany and Spain. |
| Salary.EstimateOnSchemaRow | streamlit_regression.py:82-92 | In that case, a scaler of width 12 gives the network output on the scaled schema row, times 200000. Any other width gives the prefixed schema mismatch. |
| Salary.MissingSchemaColumnFails | streamlit_regression.py:82-96 | A vocabulary lacking one of the three countries makes selection fail on a country column. The submission then ends with the error message and no estimate. |
| Salary.MissingSchemaSelection | streamlit_regression.py:82 | Selecting the schema from such an expanded frame fails with a missing country column. |
| Salary.UnknownGeographyFails | streamlit_regression.py:72-96 | An unknown geography, with an encoder that does not ignore it, ends with the encoder's error message. |
| Salary.UnseenGenderFails | streamlit_regression.py:71-96 | A gender label the encoder rejects ends with the unseen-label message. |
| Salary.GeographyEncoderFails | streamlit_regression.py:72-96 | An accepted geography with dense encoder output, or with a names call that raises, ends with that error's message. |
| Salary.EstimateExactlyWhen | streamlit_regression.py:52-97 | Over a vocabulary without repeats, a submission ends with an estimate exactly when all of the following hold: the gender label is known; the encoder accepts the geography, gives sparse output and reports its names; France, Germany and Spain are in the vocabulary; the scaler was fitted on twelve columns. Every other submission ends with an error message and no estimate. |
| Salary.Rescale | streamlit_regression.py:92 | The estimate divided by 200000 is the raw prediction. A prediction in [0, 1] gives an estimate in [0, 200000]. |
| Salary.RescaleExample | streamlit_regression.py:92 | 0.25 gives 50000. |
| Salary.SalaryPipeline | streamlit_regression.py:52-97 | The outcome is an estimate exactly when the network ran, and the estimate divided by 200000 is the network's output. A failure carries a message longer than the bare prefix. |
| Salary.PredictSalary | streamlit_regression.py:52-97 | The imperative run creates the frame, overwrites Gender in place, rebinds the frame to the expanded and then the selected columns, scales, predicts and rescales. Its outcome is the pipeline's, error paths included. |
| Results.Describe | app.py:85 | Every error has a non-empty message. |

## Left out

- The Streamlit page is not modelled: titles, form, widgets, buttons and the trailing note. Widget bounds such as a credit score in 300..850 are not preconditions, because the pipeline code does not rely on them.
- Loading the artifacts (keras `load_model`, pickle, `st.cache_resource`) is file I/O. The artifacts are parameters instead.
- The arithmetic inside `scaler.transform`, `model.predict` and `label_encoder_gender.transform` is foreign library code. These are uninterpreted functions. The scaler keeps only its width check and the promise that its output has the same length as its input.
- Inference.Scale does not model the scaler's check of feature names against the names seen at fit time. Only the width is checked. So a scaler fitted on named columns would in fact reject the `geo_0` … fallback names of `app.py:54` with an error. Churn.PredictChurnOutcome and Churn.OtherGeographyCompletes describe that fallback as completing, which is true only under this abstraction.
- Floating point and the `:.2f` / `:.2%` formatting are not modelled. Numbers are `real`, and the outcome carries the number rather than the formatted text.
- Results.Describe: the message texts follow the libraries' wording approximately. The contract states only that a message is non-empty.
- Frames.Select and Frames.Get return the first column with a given label, whereas pandas returns every duplicate. The two agree on frames without repeated labels, which is all the pipelines build.
- Frames.DataFrame.SetColumn: the in-place overwrite is modelled on the frame's column sequence. The assigned value at `streamlit_regression.py:71` is the NumPy array that `label_encoder_gender.transform` returns, which pandas assigns by position, so there is no index alignment to model.
- The second `st.write` after an error in `streamlit_regression.py` (line 97) is a fixed hint with no data in it. It is left out of the outcome.
