# Diabetes prediction service — a verified Dafny model

This project models the logic of a small diabetes-prediction web application. It has three parts:

- **Training** (`training.dfy`, from `train_model.py`). The offline trainer derives a 0/1 label from the `prognosis` column. The label is 1 exactly for the value `'Diabetes '`, with its trailing space. The trainer takes the feature columns as every column except `prognosis`, in their original order, and persists that list as the vocabulary. It chooses a stratified train/test split only when there are more than ten rows and at least two rows of each class.
- **Predictor** (`predictor.dfy`, from `app.py`). The `/api/predict` handler works in four steps:
  - It refuses with 500 when the model is not loaded, before it looks at the request.
  - It refuses with 400 when the symptom list is missing, null or empty.
  - It one-hot encodes the submitted names into a zero vector as long as the vocabulary. This is an array filled by a loop, proved equal to the specification function `OneHot`.
  - It asks the classifier and fills in the response. The fields are the prediction label, the rounded confidence and probabilities, the raw symptom count, and the health message chosen from the unrounded confidence.
- **Display** (`display.dfy`, from `static/script.js`). These are the browser's formatting helpers:
  - `formatSymptomName` splits on `_`, capitalizes each piece and joins the pieces with spaces.
  - The risk class and the risk level both use the 75/50 thresholds.
  - The message class is `danger` only for exactly `'Diabetes'`.

`prelude.dfy` holds the sequence helpers that the three parts share. `IndexOf` is Python's `list.index`; `RemoveAll` and `DropAt` model dropping a column.

The fitted random forest is opaque. The handler receives it as a `Classifier` value holding two functions, `predict` and `probabilities` (the latter is `predict_proba`). Python's `round(x, 2)` is also passed in as a function, `round2`. The client thresholds (75/50) and the server thresholds (80/60) are modelled as written. The lemma `ThresholdsDiffer` exhibits a confidence where they disagree.

## Model

| member | source | states |
|---|---|---|
| `Prelude.Option.GetOr` | app.py:94 | `data.get('symptoms', [])`: the field's value when present, the empty list otherwise |
| `Prelude.IndexOf` | app.py:107 | the index returned holds the name, and no earlier position does (first occurrence) |
| `Prelude.RemoveAll` | train_model.py:31 | dropping a label removes every occurrence of it, keeps every other element, and shortens the list by the number of occurrences |
| `Prelude.RemoveAllOnce` | train_model.py:31 | removing a label that occurs once is dropping its position, so the rest keep their relative order |
| `Prelude.DistinctIndexOf` | app.py:107 | in a duplicate-free list, `index` of the element at position `i` is `i` |
| `Training.Label` | train_model.py:28 | every label is 0 or 1, and a numeric cell is never the target |
| `Training.Positives` | train_model.py:34 | `y.sum()` counts the 1s: at most the row count, and 0 exactly when no row is positive |
| `Training.Negatives` | train_model.py:35 | `(y == 0).sum()` counts the 0s: at most the row count, and 0 exactly when no row is negative |
| `Training.ShouldStratify` | train_model.py:40 | the guard holds iff more than ten rows and at least two positives and at least two negatives (the `min` of the two counts is at least 2) |
| `Training.Labels` | train_model.py:28 | one label per row, each 0 or 1, and 1 exactly when the prognosis is `'Diabetes '` |
| `Training.UnpaddedNameIsNegative` | train_model.py:28 | `'Diabetes'` without the trailing space is labelled 0, and `'Diabetes '` is labelled 1 |
| `Training.ClassCountsPartition` | train_model.py:34-35 | positives plus negatives equals the number of rows |
| `Training.PositivesCountTarget` | train_model.py:28-34 | `y.sum()` is the number of rows whose prognosis is exactly `'Diabetes '` |
| `Training.Prepare` | train_model.py:22-47 | a missing `prognosis` column fails (the split's own errors are not modelled); otherwise the features exclude `prognosis`, `y` is the label series of the `prognosis` column (1 exactly for `'Diabetes '`), there is one feature row per data row, and the split is stratified exactly when the guard holds |
| `Training.FeatureColumnsInOrder` | train_model.py:31 | the feature columns are the column list with `prognosis`'s position dropped: all the others, in their original order |
| `Training.FeatureRowsAligned` | train_model.py:31 | position `k` of every feature row holds that row's cell in the column named `features[k]` |
| `Training.StratifiedIff` | train_model.py:40-47 | stratified iff more than ten rows and between 2 and n-2 of them have prognosis `'Diabetes '` |
| `Training.SmallTablesUnstratified` | train_model.py:40 | with ten rows or fewer the split is never stratified |
| `Predictor.OneHot` | app.py:103-108 | the vector has one entry per vocabulary name, and every entry is 0 or 1 |
| `Predictor.Encode` | app.py:103-108 | the loop over the submitted names leaves a newly allocated array of vocabulary length whose contents are `OneHot(vocabulary, symptoms)` |
| `Predictor.OneHotStep` | app.py:105-108 | one more name sets the slot of its first index to 1 if it is known, and changes nothing otherwise |
| `Predictor.OneHotSlot` | app.py:105-108 | slot `i` is 1 exactly when some submitted known name has its first index at `i` |
| `Predictor.OneHotMembership` | app.py:103-108 | with a duplicate-free vocabulary, slot `i` is 1 exactly when `vocabulary[i]` was submitted |
| `Predictor.OneHotIgnoresUnknown` | app.py:105-106 | names outside the vocabulary leave the vector unchanged; only-unknown names give the all-zero vector |
| `Predictor.OneHotOrderInsensitive` | app.py:105-108 | two submissions with the same names, in any order and with any repetitions, give the same vector |
| `Predictor.TrainedVocabularyEncoding` | app.py:103-107 | for a vocabulary produced by the trainer (train_model.py:31, 92), the encoding is exact membership |
| `Predictor.Confidence` | app.py:115 | the confidence is 100 times one of the two probabilities, and at least 100 times each |
| `Predictor.PredictionLabel` | app.py:120 | the prediction field is `'Diabetes'` or `'Not Diabetes'`, and `'Diabetes'` exactly when the class is 1 |
| `Predictor.HealthMessage` | app.py:136-149 | the message is one of the five texts, and a warning text exactly when the class is 1 and the confidence exceeds 60 |
| `Predictor.HealthMessageTiers` | app.py:136-149 | each of the five messages holds exactly on its tier; 80 and 60 fall to the lower tier |
| `Predictor.HealthMessageRevealsClass` | app.py:138-149 | equal messages imply the same class (1 or not 1) |
| `Predictor.HealthMessageMonotone` | app.py:138-144 | for class 1, a higher confidence never gives a milder message |
| `Predictor.Predict` | app.py:86-128 | 500 "Model not loaded" when unloaded, whatever the input; 400 when the list is missing or empty; otherwise the label from `predict`, the rounded confidence and probabilities, the raw list length as the symptom count, and the message from the unrounded confidence, all computed on `OneHot` |
| `Display.Upper` | static/script.js:82 | exactly the lower-case ASCII letters change, each to its upper-case letter |
| `Display.Split` | static/script.js:81 | one more piece than there are separators, and no piece contains the separator |
| `Display.Join` | static/script.js:83 | the result starts with the first piece, and its length is the pieces' total length plus one separator between each two pieces |
| `Display.SplitJoin` | static/script.js:81 | joining the pieces with the separator gives back the input, so the pieces are in order |
| `Display.Capitalize` | static/script.js:82 | same length; the first character is upper-cased and the rest is copied unchanged |
| `Display.CapitalizeAll` | static/script.js:82 | the `map` capitalizes each piece, piece by piece, keeping their number and order |
| `Display.FormatSymptomName` | static/script.js:79-84 | same length as the input; each `_` becomes a space, each piece's first character is upper-cased, and every other character is unchanged |
| `Display.FormatIsScan` | static/script.js:79-84 | the split/map/join pipeline equals a left-to-right scan of the characters |
| `Display.FormatSpaces` | static/script.js:79-84 | the output's spaces are the input's underscores plus the input's spaces |
| `Display.FormatSinglePiece` | static/script.js:80-83 | a name without `_` comes out with only its first character upper-cased |
| `Display.RiskClass` | static/script.js:163-167 | the class is one of the three risk classes |
| `Display.RiskClassTiers` | static/script.js:163-167 | high iff above 75, moderate iff in (50, 75], low iff at most 50 |
| `Display.RiskLevel` | static/script.js:172-176 | the level is one of the three risk texts |
| `Display.RiskLevelMatchesClass` | static/script.js:163-176 | the level and the class always name the same tier |
| `Display.MessageClass` | static/script.js:181-184 | the class is `danger` or `success`, and `danger` exactly when the prediction is the string `'Diabetes'`; any other string, `'Diabetes '` or `'diabetes'` included, gives `success` |
| `Display.MessageClassOfPrediction` | static/script.js:181-184 | for a server label (app.py:120), `danger` iff the class was 1; `'Not Diabetes'`, `'Diabetes '` and `'diabetes'` give `success` |
| `Display.ThresholdsDiffer` | static/script.js:163-167 | a confidence of 78 is `risk-high` on the client while the server's class-1 message is the moderate one |

## Left out

- The classifier: `fit`, `predict`, `predict_proba`, `score`, `feature_importances_` and `train_test_split`. These are library numerics. `predict` and `predict_proba` enter `Predict` as the two functions of a `Classifier`. The split is reduced to the choice between its stratified and unstratified calls.
- Floating point: probabilities and confidences are `real`. `round(x, 2)` is an arbitrary function parameter, so nothing is proved about rounding. In particular nothing is proved about the rounded probabilities summing to 100. The client's `toFixed(1)` is not modelled.
- The feature vector is `int` 0/1, not numpy's float64 0.0/1.0.
- Pickle dumping and loading, and the start-up `try`/`except` that leaves the model and vocabulary unset. `Server` is either `NotLoaded` or `Loaded` with both artifacts, which is how the start-up code leaves them.
- Flask routing, `render_template`, `jsonify` and `app.run`. `request.get_json()` is reduced to the request's `symptoms` field. An absent field and a JSON `null` are both `None`; both lead to 400, as in the source.
- The broad `except` that answers 500 with the exception text, for example for a body that is not a JSON object.
- `symptoms` values other than lists of strings. The model only covers lists of strings. Python treats other values as follows:
  - A string is iterated character by character: the request succeeds, and `symptoms_count` is the string's length.
  - A JSON object is iterated by its keys, so `{"polyuria": 1}` sets the `polyuria` slot.
  - The falsy values `0`, `false`, `""` and `{}` get 400 at app.py:96.
  - Only a truthy value that cannot be iterated, such as a number, raises and gets 500.
- The pair shape of `Predictor.Classifier`'s `probabilities` assumes a model trained on both classes. A forest fitted on one class returns a single probability column. `probability[1]` at app.py:122 then raises, and the handler answers 500. The model does not capture this.
- Training.Prepare: the errors of `train_test_split` itself are not modelled. For example, a table with fewer than two rows leaves an empty training set under `test_size=0.2`, and the call raises. Only the missing `prognosis` column is modelled as a failure.
- CSV loading, the printed reports, and the feature-importance table. The table is an input, `Training.Table`. `Training.WellFormed` asks for distinct column names and rows as wide as the header, which is what a data frame read from CSV provides.
- The unused `SYMPTOMS` list and the fixed `DIABETES_SYMPTOMS` answer of `/api/symptoms`. They are data, not logic.
- setup_check.py, which only checks files on disk and the interpreter version.
- The DOM, `fetch`, Chart.js, keyboard and scroll handlers, and the client's `selectedSymptoms`/`chartInstance` globals. This is UI code.
- Display.Upper: models `toUpperCase` on ASCII letters only. Non-ASCII letters, including those whose upper case is longer (`ß`), are left unchanged. JavaScript strings are UTF-16 code units, while the model's strings are sequences of Unicode scalar values. Symptom names are ASCII, so the equal-length property holds for them.
