# Hair health predictor: verified model of the tip rules and feature preparation

The hair health predictor is a small web form. It feeds lifestyle answers to two
pre-trained tabular models, one for a hair health score and one for a risk
level. It also derives rule-based haircare tips from the raw answers. An offline
script trains the two models from a CSV dataset.

This project models the deterministic logic of that system in Dafny:

- `tips.dfy` (module `Tips`) models the tip generator `generate_tips`. It has
  seven independent rules: stress is exactly "High", sleep below 6 hours, water
  below 2 litres, and the four named issues "Hair Fall", "Dandruff", "Dryness"
  and "Oily Scalp". The rules are checked in a fixed order. When none fires,
  the result is one fallback message.
  - `ExpectedTips` is the declarative specification: the rules that fire,
    filtered from the declaration order and mapped to their advice strings.
  - `GenerateTips` is the source's step-by-step list building. It is proved
    equal to `ExpectedTips`.
  - Lemmas state what the result means.
- `training.dfy` (module `Training`) models the training script's feature
  preparation:
  - A missing "Hair Issues" cell becomes the empty string.
  - The issue count is the number of comma-separated pieces, or 0 for empty text.
    Python's `str.split` is modelled by `Split`, and its inverse `str.join` by
    `Join`.
  - `SelectColumns` models the selection of the eight feature columns by name.
- `inference.dfy` (module `Inference`) models the prediction request:
  - encoding the five categorical fields with the stored label encoders, with
    the failure paths for a missing encoder and an unseen category;
  - the issue count of the multi-select list;
  - the eight-slot feature vector;
  - the two estimators, which are arbitrary functions passed in;
  - decoding the risk class;
  - the strict `> 40` good/bad bucket;
  - the tips.
- `wrappers.dfy` holds the `Option` and `Result` datatypes.

Sleep and water are Dafny `real`. They are only compared with constants, never
computed with.

## Model

| member | source | states |
|---|---|---|
| `Tips.GenerateTips` | app.py:19-39 | The list built by the conditional appends equals `ExpectedTips`: the advice of every rule whose condition holds, in rule order, or the fallback message alone when no rule holds. |
| `Tips.FiredTipsUnrolled` | app.py:22-35 | The tips of the fired rules are the seven per-rule contributions concatenated in declaration order. Each contribution is that rule's advice if its condition holds and nothing otherwise. |
| `Tips.FallbackIffNoRuleFires` | app.py:36-37 | The result is exactly the single fallback string if and only if no rule condition holds. The fallback string appears in the result if and only if no rule condition holds, so it never appears alongside a tip. |
| `Tips.TipPresentIffRuleFires` | app.py:22-35 | Each rule's advice string is in the result if and only if that rule's condition holds. |
| `Tips.TipsInDeclarationOrder` | app.py:22-35 | Any two tips in the result come from rules in declaration order: stress, sleep, water, Hair Fall, Dandruff, Dryness, Oily Scalp. |
| `Tips.TipsBoundedAndDistinct` | app.py:19-39 | The result has between 1 and 7 elements and no element twice, even when `issues` repeats a name. |
| `Tips.OnlyNamedIssuesMatter` | app.py:28-35 | Two issue lists with the same membership of the four named issues give the same tips. Other names, order and repetitions have no effect. |
| `Tips.StrictThresholds` | app.py:22-27 | These inputs give only the fallback: 6 hours of sleep, 2 litres of water, and stress "high" in lower case. Just below a threshold gives that threshold's tip alone, and an unknown issue name adds nothing. |
| `Tips.HighStressScenario` | app.py:22-31 | Stress "High", 5 hours of sleep, 1.5 litres of water and issues Hair Fall and Dandruff give exactly the stress, sleep, hydration, protein and anti-dandruff tips, in that order. |
| `Tips.FiredRulesMembers` | app.py:22-35 | A rule is among the fired rules if and only if it is checked and its condition holds. |
| `Tips.FiredRulesRanked` | app.py:22-35 | The fired rules keep the strictly increasing declaration order of the checked rules. |
| `Training.Split` | model.py:14 | `str.split` with one separator gives at least one piece, and no piece contains the separator. |
| `Training.SplitCount` | model.py:14 | `str.split` gives one more piece than the text has separators. |
| `Training.JoinSplit` | model.py:14 | Joining the pieces of a split with the same separator gives back the original text. |
| `Training.SplitJoin` | model.py:14 | Splitting the join of a non-empty list of separator-free pieces gives back the list. |
| `Training.IssueCount` | model.py:14 | The count is 0 for the empty text. For any other text it is the number of commas plus 1. |
| `Training.MissingCellCountsZero` | model.py:11-14 | A missing "Hair Issues" cell and an empty one both count 0. |
| `Training.NonEmptyCellCountsAtLeastOne` | model.py:14 | A non-empty cell counts at least one issue. |
| `Training.TwoNamesCountTwo` | model.py:14 | Two comma-free names joined by one comma count 2, for example "Dandruff,Dryness". |
| `Training.LoneCommaCountsTwo` | model.py:14 | The text "," counts 2. |
| `Training.SelectColumns` | model.py:27-28 | Selecting columns by name succeeds if and only if every name is a column of the row. On success it holds each named column's value at the name's position. On failure it reports a requested name that is not a column. |
| `Training.FillMissing` | model.py:11 | Models `fillna('')`: a missing cell becomes the empty string and a present one is kept. It has no contract beyond its body; `Training.MissingCellCountsZero` states its effect on the count. |
| `Training.IssueCountOfCell` | model.py:11-14 | Models the fill-then-count of one "Hair Issues" cell. It has no contract beyond its body; `Training.MissingCellCountsZero` and `Training.NonEmptyCellCountsAtLeastOne` state what it gives. |
| `Inference.Transform` | app.py:59-63 | Models `label_encoders[col].transform([value])[0]`. A column without an encoder gives `MissingEncoder`, a value the encoder never saw gives `UnseenCategory`, and otherwise the result is the encoder's code. It has no contract beyond its body; `Inference.Predict` states its use. |
| `Inference.SelectedIssueCount` | app.py:65 | Models `len(issues)`, repeats included. It has no contract beyond its body; `Inference.TrainingAndInferenceCountsAgree` relates it to the training count. |
| `Inference.InferenceVector` | app.py:67-68 | Models the eight-slot array literal. It has no contract beyond its body; `Inference.FormVectorFollowsTrainingColumns` states its layout. |
| `Inference.ResultClass` | app.py:74 | Models `'good' if score > 40 else 'bad'`. It has no contract beyond its body; `Inference.ResultClassThreshold` states its meaning. |
| `Inference.FormVector` | app.py:59-68 | An encodable form gives a feature vector of exactly 8 entries. Which value sits in which slot is stated by `Inference.FormVectorFollowsTrainingColumns`. |
| `Inference.FormVectorFollowsTrainingColumns` | app.py:67-68 | Every slot of the vector built from a form belongs to the training column of the same position (model.py:27-28). A categorical slot holds the code that its own column's encoder gives the matching form field. The "Sleep Hours", "Water Intake (L)" and "Hair Issues Count" slots hold the sleep hours, the water litres and the number of selected issues. |
| `Inference.InferenceOrderMatchesTraining` | app.py:67-68 | For an encoded training row, the inference layout of its eight values equals the training selection of the columns Stress Level, Sleep Hours, Water Intake (L), Pollution Exposure, Hair Coloring Frequency, Hair Issues Count, Hair Care Budget and Genetic/Hormonal Wellness (model.py:27-28). |
| `Inference.TrainingAndInferenceCountsAgree` | app.py:65 | The inference count (list length, duplicates included) equals the training count of the comma-joined text. This holds when no name contains a comma and the list is not a single empty name. |
| `Inference.CountsDisagreeOnCommaInName` | app.py:65 | A selected name that contains a comma counts 1 at inference but 2 at training. |
| `Inference.ResultClassThreshold` | app.py:74 | The bucket is "good" if and only if score > 40, and "bad" otherwise. A score of exactly 40 is "bad". |
| `Inference.Predict` | app.py:48-82 | It succeeds if and only if every categorical field encodes and the predicted risk class has a label. On success the result holds the regressor's score on the 8-slot vector, the decoded risk label, the bucket of that score and `ExpectedTips` of the raw inputs. On an encoding failure the error is the first failing field in encoding order, and every earlier field encoded. An unknown risk class error names the class id the classifier predicted. |

## Left out

- The Flask routes, redirects, template rendering and session store are not modelled. They are request/response plumbing: `home`, `result`, and the storing of tips, score and risk in the session.
- `download_pdf` and its "No result data" guard are not modelled. PDF rendering is a foreign library and the guard is a null check on session values.
- Loading and saving the models and encoders with joblib is not modelled. It is file I/O of opaque blobs. `Inference.Models` stands for the loaded artifacts.
- scikit-learn's `LabelEncoder` fitting (the encoder loop in model.py), `train_test_split` and the random-forest estimators are not modelled. Fitted encoders are maps, the risk decoder is a map, and the estimators are arbitrary function parameters. The round trip of a fitted encoder is therefore not stated.
- Reading the CSV dataset with pandas is not modelled. `Training.EncodedRow` holds only the eight feature columns of one encoded row, and `Training.Cell` answers None for any other column name.
- `float()` parsing of the sleep and water fields is not modelled. The form carries numbers, so NaN and infinities are not represented.
- Inference.Predict: returns the score unrounded. It does not model Python's `round()` on the numpy float that is stored in the session and passed to the result page.
- Inference.Predict: the catch-all handler's "Error: ..." text is not modelled. The failure is a `PredictError` value.
- The port and environment configuration is not modelled.
- Tips: the issues argument is a list, as in the code. Membership is list membership, so a repeated name fires its rule once.
