# Customer churn: preprocessing, estimator factory and demo API

This project models the shared pipeline module (`api/customer_pipeline.py`) and the demo
web API (`api/app.py`) of the customer churn repository.

- **Preprocessing** (`preprocessing.dfy`). `build_preprocessing` returns a scikit-learn
  `ColumnTransformer`. It standardises six numeric fields (`num_pipeline`, a
  `StandardScaler`), one-hot encodes five categorical fields with unknown categories
  ignored (`cat_pipeline`, `OneHotEncoder(handle_unknown="ignore")`), and drops every
  other field (`remainder='drop'`). The model covers the configuration and what it
  means: `Transform` takes fitted parameters (per-column mean and scale, per-feature
  vocabulary) and maps a record to its feature row.
  - First, every missing required field is reported together.
  - Then columns are encoded in output order.
  - A string in a standardised column is an error.
  - An unknown category gives an all-zero block.
  - `TransformBatch` and `Predict` apply this to a batch, all or nothing. A batch of no
    records is rejected, as the fitted scaler and encoder need at least one sample. The classifier
    is an arbitrary function of one row, so inference is deterministic and keeps
    order 1:1.
- **Layout facts** (`transform_properties.dfy`, `customer_layout.dfy`). These locate each
  column's block in the row and give the row width. They show that extra fields and
  field order never matter. For the customer layout, column `i < 6` is the `i`-th
  numeric field standardised, and categorical block `j` starts at
  `6 + (sizes of the vocabularies before it)`.
- **Records** (`records.dfy`). A record is a map from field name to a number or a string.
  When no two fields share a name, building it from a list of fields does not depend on
  the order of the list (a later field wins on a repeated name).
  Building a record from a list of fields is the model's own account of how a client
  lists one row, such as a row of the sample frame of the inference script. The column
  transformer then reads that row by name.
- **Estimator factory** (`estimators.dfy`). `make_estimator_for_name` is a closed dispatch
  over four names to fixed configurations. Any other name raises `ValueError`.
- **Demo API** (`echo_app.dfy`). `/process` returns the text, its reversal, its length and
  its upper-case form. `/` and `/health` return fixed payloads.
- **Scenarios** (`scenarios.dfy`). These cover the sample rows the repository's inference
  script feeds to a saved model.

## Model

| member | source | states |
|---|---|---|
| Preprocessing.BuildPreprocessing | api/customer_pipeline.py:35-48 | two transformers in order: "num" standardises the six numeric names, "cat" one-hot encodes the five categorical names; the selected columns are numeric then categorical |
| Preprocessing.Standardize | api/customer_pipeline.py:31-33 | the scaler's per-value transform (x - mean) / scale: multiplying the result by the column's fitted scale and adding its fitted mean gives back x |
| Preprocessing.OneHot | api/customer_pipeline.py:27-29 | the block has the vocabulary's width, with a 1 at the value's first index in the vocabulary and 0 everywhere else, so an unknown value gives an all-zero block |
| Preprocessing.IndexOf | api/customer_pipeline.py:27-29 | the category lookup finds nothing exactly when the value is not in the vocabulary; otherwise it finds the first position holding the value |
| Preprocessing.OneHotIndicator | api/customer_pipeline.py:27-29 | with a duplicate-free vocabulary, an entry of the one-hot block is 1 exactly when its category is the value, and 0 exactly when it is not |
| Preprocessing.OneHotKnown | api/customer_pipeline.py:27-29 | a known category gives a single 1 at its index and 0 everywhere else |
| Preprocessing.OneHotUnknown | api/customer_pipeline.py:28 | `handle_unknown="ignore"`: an unknown category gives an all-zero block and no error |
| Preprocessing.EncodeValue | api/customer_pipeline.py:27-33 | a cell encodes unless a standardised column gets a string, in which case the error names the column; the block has the column's width |
| Preprocessing.EncodeCell | api/customer_pipeline.py:41-45 | a column is read from the record by name; it succeeds exactly when the field is present and acceptable, giving a block of the column's width |
| Preprocessing.MapAll | api/customer_pipeline.py:41-45 | all-or-nothing map: succeeds exactly when every element does, with the results in order; otherwise it returns the first failing element's error |
| Preprocessing.EncodeColumns | api/customer_pipeline.py:41-45 | the row succeeds exactly when every selected field is present and acceptable; a failure is the first failing column's error |
| Preprocessing.SelectedColumns | api/customer_pipeline.py:41-45 | column i pairs the i-th selected name with the i-th fitted parameters, in transformer order |
| Preprocessing.FlattenMatchesColumns | api/customer_pipeline.py:41-45 | fitted parameters line up one to one with the selected columns, and a column is standardised exactly when its transformer's policy is standardisation |
| Preprocessing.Transform | api/customer_pipeline.py:41-47 | fails with the set of missing fields exactly when some required field is absent; succeeds exactly when all are present and every standardised field is a number; any other failure names a standardised column that holds a string |
| Preprocessing.TransformBatch | test_inference.py:43 | one row per record, in order, exactly when the batch is not empty and every record transforms; an empty batch is rejected; otherwise the error of the first failing record |
| Preprocessing.Predict | test_inference.py:43 | one prediction per record, in order, each the classifier applied to that record's row; an empty batch is rejected; otherwise the batch's transform error, with no partial result |
| TransformProperties.ConcatSlice | api/customer_pipeline.py:41-45 | block i of the concatenated row sits right after the blocks before it |
| TransformProperties.ConcatStart | api/customer_pipeline.py:41-45 | when each block has its column's width, the blocks before i span the widths of the columns before i |
| TransformProperties.TransformBlocks | api/customer_pipeline.py:41-45 | a successful row is the concatenation of the selected columns' blocks, and every selected field is present |
| TransformProperties.ColumnBlocks | api/customer_pipeline.py:41-45 | block k of a successful row is the encoding of column k's field and has column k's width |
| TransformProperties.ColumnSlice | api/customer_pipeline.py:41-45 | column i occupies positions WidthBefore(i) to WidthBefore(i) + width in the row, holding the encoding of its field |
| TransformProperties.VocabularyAt | api/customer_pipeline.py:27-29 | a one-hot column's slice of the row is the indicator block of its field over its vocabulary |
| TransformProperties.VocabularyEncoding | api/customer_pipeline.py:27-29 | `EncodeValue`'s Vocabulary branch, spelled out as a helper of VocabularyAt: a one-hot column always encodes, as the value's indicator block |
| TransformProperties.ScaleAt | api/customer_pipeline.py:31-33 | a standardised column's single entry is its numeric field standardised by that column's mean and scale |
| TransformProperties.ScaleEncoding | api/customer_pipeline.py:31-33 | `EncodeValue`'s Scale branch, spelled out as a helper of ScaleAt: a standardised column encodes a number as the one-entry block of its standardised value |
| TransformProperties.TransformWidth | api/customer_pipeline.py:41-47 | every successful row has the same width, which depends only on the fitted parameters |
| TransformProperties.BatchRowsShareWidth | test_inference.py:43 | all rows of a transformed batch have that width |
| TransformProperties.MapAllCongruent | api/customer_pipeline.py:41-45 | mapping two functions that agree on every element gives the same result |
| TransformProperties.BlocksAgree | api/customer_pipeline.py:41-45 | records that agree on the selected names give the same blocks and the same row |
| TransformProperties.ExtraFieldsIgnored | api/customer_pipeline.py:46 | records that agree on the required fields, present or absent, transform identically |
| TransformProperties.RemainderDropped | api/customer_pipeline.py:46 | a record transforms exactly like its restriction to the required fields |
| TransformProperties.ExtraKeysIgnored | api/customer_pipeline.py:46 | adding fields the configuration does not name changes nothing |
| TransformProperties.FieldOrderIgnored | api/customer_pipeline.py:41-46 | the order in which distinct fields are listed never changes the result |
| Records.RecordOfKeys | test_inference.py:27-39 | a record built from fields holds exactly their names |
| Records.RecordOfAt | test_inference.py:27-39 | with distinct names, each field's value is the record's value under that name |
| Records.KeyOrderIrrelevant | test_inference.py:27-39 | the same distinct fields in another order build the same record |
| Records.SameFieldsSameRecord | test_inference.py:27-39 | two duplicate-free lists with the same fields build the same record |
| CustomerLayout.NameLists | api/customer_pipeline.py:39-40 | the two name lists are duplicate-free and disjoint, with eleven required names in all |
| CustomerLayout.DistinctByLetter | api/customer_pipeline.py:39-40 | names that differ pairwise at one letter are pairwise distinct |
| CustomerLayout.DisjointByLetter | api/customer_pipeline.py:39-40 | names whose first letters come from disjoint alphabets never coincide |
| CustomerLayout.DistinctConcat | api/customer_pipeline.py:39-40 | two duplicate-free, disjoint lists stay duplicate-free when joined |
| CustomerLayout.DistinctSetSize | api/customer_pipeline.py:39-40 | a duplicate-free list of names has as many names as its set |
| CustomerLayout.FittedShape | api/customer_pipeline.py:41-45 | fitted parameters for the customer layout are six positive scales followed by five duplicate-free vocabularies |
| CustomerLayout.WidthBeforeScales | api/customer_pipeline.py:31-33 | standardised columns take one output column each |
| CustomerLayout.WidthBeforeAppend | api/customer_pipeline.py:41-45 | the offset inside the second transformer is the first transformer's total width plus the offset within the second |
| CustomerLayout.WidthBeforePrefix | api/customer_pipeline.py:41-45 | offsets inside the first transformer do not depend on the second |
| CustomerLayout.RowWidthOfCustomerLayout | api/customer_pipeline.py:39-45 | a row has width 6 plus the sizes of the five vocabularies |
| CustomerLayout.NumericPosition | api/customer_pipeline.py:40-43 | numeric field i is selected column i, standardised, at output offset i |
| CustomerLayout.NumericColumn | api/customer_pipeline.py:31-33 | row entry i (i < 6) is the i-th numeric field standardised by the i-th fitted mean and scale |
| CustomerLayout.CategoricalPosition | api/customer_pipeline.py:39-44 | categorical field j is selected column 6 + j, a one-hot column starting at offset BlockStart(j) |
| CustomerLayout.CategoricalFit | api/customer_pipeline.py:39-44 | the fitted parameters of categorical field j are a duplicate-free vocabulary whose block is as wide as the vocabulary is long |
| CustomerLayout.CategoricalBlock | api/customer_pipeline.py:27-29 | the block at BlockStart(j) is the indicator block of the j-th categorical field over its own vocabulary |
| CustomerLayout.UnknownCategoryGivesZeros | api/customer_pipeline.py:28 | a categorical value outside its vocabulary makes its whole block zero |
| CustomerLayout.KnownCategoryGivesIndicator | api/customer_pipeline.py:27-29 | the category at index k of its vocabulary gives a 1 at offset k of its block and 0 elsewhere in the block |
| CustomerLayout.ZeroEntries | api/customer_pipeline.py:28 | a row slice that holds an unknown value's block is zero throughout |
| CustomerLayout.IndicatorEntries | api/customer_pipeline.py:27-29 | a row slice that holds a known value's block has its single 1 at the value's index |
| CustomerLayout.CustomerRecordTransforms | api/customer_pipeline.py:39-46 | a record transforms exactly when it holds all eleven fields and the six numeric ones are numbers |
| CustomerLayout.ScaledColumnIsolated | api/customer_pipeline.py:31-43 | numeric column i depends only on field i and its own fitted parameters, not on other fields or columns |
| Estimators.MakeEstimatorForName | api/customer_pipeline.py:55-87 | succeeds exactly on the four known names, with an estimator of the named kind; any other name gives a ValueError whose message contains the name |
| Estimators.NamesRoundTrip | api/customer_pipeline.py:60-76 | each kind's name gives back that kind, so the four branches are distinct |
| Estimators.FixedConfigurations | api/customer_pipeline.py:60-85 | ridge takes no seed; the other three use seed 42; the XGBoost and LightGBM hyper-parameters are the listed constants |
| EchoApp.Reverse | api/app.py:29 | the reversal has the text's length |
| EchoApp.ReverseAt | api/app.py:29 | position i of the reversal holds character n-1-i |
| EchoApp.ReverseInvolution | api/app.py:29 | reversing twice gives back the text |
| EchoApp.Upper | api/app.py:31 | the upper-cased text has the same length and is upper-cased character by character |
| EchoApp.UpperCharacters | api/app.py:31 | a lower-case letter becomes its capital, other characters stay, and no lower-case letter is left |
| EchoApp.UpperIdempotent | api/app.py:31 | upper-casing twice is upper-casing once |
| EchoApp.ProcessMessage | api/app.py:19-32 | the response echoes the text, holds its mirror image (which reverses back to the text), its length, and its character-wise upper-case form |
| EchoApp.Root | api/app.py:15-17 | the root payload holds exactly the key "message", with the fixed greeting |
| EchoApp.HealthCheck | api/app.py:34-36 | the health payload holds exactly the key "status", set to "healthy" |
| Scenarios.CustomerRecordAlwaysTransforms | api/customer_pipeline.py:39-46 | any record with the eleven fields and numeric values in the six numeric ones transforms, whatever its strings |
| Scenarios.SampleBatchPredicts | test_inference.py:27-43 | the four sample rows give four predictions, in order, each the classifier applied to its row |
| Scenarios.UnseenGeographyGivesZeros | api/customer_pipeline.py:28 | a customer with a geography not seen in fitting still transforms, and the geography block is zero |
| Scenarios.SingleCustomerPredicts | test_inference.py:28-38 | the first sample customer alone gives exactly one prediction, the classifier's output on its row |

## Left out

- Fitting is not modelled. That covers `ColumnTransformer.fit`, the scaler's mean and variance, and the encoder's category discovery. Fitted parameters are an input, constrained only to the layout's shape, a positive scale and a duplicate-free vocabulary.
- Floating point is not modelled. Numbers are mathematical reals, so standardisation is exact division.
- The classifiers (`RidgeClassifier`, `HistGradientBoostingClassifier`, `XGBClassifier`, `LGBMClassifier`) are foreign code. The factory's choice of kind and hyper-parameters is modelled. Prediction is an arbitrary function of one feature row.
- Loading pickled models with joblib, and the file paths involved, is I/O and is left out.
- Type coercion by pandas and NumPy is left out. A numeric string is not turned into a number; a string in a standardised column is an error. NaN handling is also left out.
- Preprocessing.TransformBatch: when several records fail, the model reports the first record's error. scikit-learn detects missing columns on the whole frame, and then conversion errors column by column. Both fail the batch with no partial result, but the error chosen can differ. An empty batch always fails with `EmptyBatch`: a zero-row frame still has column names, which a list of records does not, so a missing-column error on an empty frame is not modelled.
- Preprocessing.EncodeValue: a number in a one-hot column whose vocabulary holds strings gives an all-zero block here. scikit-learn's encoder with `handle_unknown="ignore"` gives zeros only when the column holds strings in other rows as well. When every value in that column of the frame is a number, its unknown-category check takes the numeric path and raises `TypeError`. That outcome depends on the whole batch, so a per-record model cannot follow it, and the model does not fail such a record.
- CustomerLayout.CustomerRecordTransforms: a record with numbers in the six numeric fields transforms here even when gender or geography holds a number; scikit-learn can raise `TypeError` for such a frame, for the reason given on the Preprocessing.EncodeValue line.
- Preprocessing.Transform: a missing-column error is raised before any encoding, as the column transformer checks that the columns exist before it applies the transformers. The exact message text is not modelled, only the set of missing names. The payload of the not-numeric error, the column's name, is the model's own choice: NumPy's float conversion inside the scaler names the offending value, not the column. A number in a one-hot column whose vocabulary holds strings counts here as an unknown category; scikit-learn's encoder can instead raise `TypeError`, depending on the other rows of the frame (see the Preprocessing.EncodeValue line).
- The one-hot encoder's default sparse output, and the column transformer's choice between a sparse and a dense result (its default `sparse_threshold`), are left out. The model gives the same values as a dense row. The encoder's options the source does not set (dropping a category, infrequent categories) are left out too.
- The FastAPI and pydantic plumbing is left out: routing, JSON serialisation and request validation. Each endpoint is a function from its request fields to its response fields.
- EchoApp.Upper: only ASCII lower-case letters are mapped. Python's `str.upper` also maps other Unicode letters, sometimes to several characters (for example "ß" to "SS"). Those are left unchanged here.
- EchoApp.ProcessMessage: `len` counts code points. Dafny's `char` is a Unicode scalar value, so this agrees except that surrogate code points are not modelled.
- The streamlit front end (`streamlit/app.py`) is presentation, and is not part of this model.
- A prediction service that validates records against a feature schema, loads a versioned artifact and maps errors to response codes is not present in these source files. The model follows the code: the only endpoints are the demo endpoints of `api/app.py`.
