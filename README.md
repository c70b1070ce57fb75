# Wellsphere questionnaire: scoring and labelling model

Wellsphere is a small self-assessment page. It asks nine questions about stress, anxiety and depression. Each answer is on a 0–3 scale (Never, Sometimes, Often, Always). The page sends the nine answers to a pre-trained classifier and shows the predicted overall category. It also shows three sub-scores. The repository has two entry scripts, `Public/questions.py` (radio buttons, with severity bands) and `Public/train_model.py` (sliders, printed scores). This project models the logic they share:

- **Collection.** Each script has a loop that appends one answer per question. The radio buttons start unselected (`None`). The sliders start at 0.
- **Completeness gate.** `questions.py` refuses a submission if any answer is `None`. In that case it shows an error message and makes no prediction.
- **Sub-scores.** The answers are summed in three slices: `[:3]` stress, `[3:6]` anxiety and `[6:]` depression.
- **Severity bands.** Each sub-score `s` gets the label `["Low","Moderate","High","Very High"][min(3, s//3)]`.
- **Label encoding.** The target column becomes categorical and `dict(enumerate(categories))` is stored. The column is replaced in place by its codes. A predicted code is decoded through the stored mapping.

Modules:

- `Wrappers`: `Option`.
- `Scoring`: answers, Python `sum` and slicing, sub-scores, bands and the feature-column schema.
- `Categories`: the code↔label mapping. It also holds the `Frame` class, whose target column is encoded in place.
- `Questions`: `questions.py`.
- `TrainModel`: `train_model.py`.

Inputs and opaque parts become parameters:

- **Widget state.** A map from question index to the chosen answer. A radio with no entry is `None`. A slider with no entry is at 0.
- **Classifier.** A function `predict: seq<Answer> -> int` from the answer vector to a code.
- **Category list.** A sequence of labels. pandas' rule for ordering categories is not modelled.

Three points about what the code does and does not guarantee:

- `questions.py`'s radios start with no answer, while `train_model.py`'s sliders start at 0, so the slider script's answer vector is never incomplete.
- Neither script checks that the classifier's code is a key of the mapping. `category_mapping[prediction]` raises `KeyError`, which is modelled as an `UnknownCode` outcome.
- Encoding a label and decoding its code gives the label back for any category list. The mapping is injective, and decoding then re-encoding gives the code back, when the categories are distinct.

## Model

| member | source | states |
|---|---|---|
| Scoring.Sum | Public/questions.py:291-293 | Python `sum` over answers; the sum of n answers is between 0 and 3n |
| Scoring.SumConcat | Public/questions.py:291-293 | the sum of a concatenation is the sum of the parts |
| Scoring.Slice | Public/train_model.py:75-77 | Python `s[lo:hi]`: equals the Dafny slice when the bounds are in range; otherwise both bounds are clamped to the length, so the length is `min(hi,n) - min(lo,n)` (0 if that is not positive) and element k is `s[lo+k]` |
| Scoring.SubScores | Public/questions.py:291-293 | stress and anxiety are at most 9; depression is at most 9 when there are at most nine answers |
| Scoring.SubScoresPartition | Public/train_model.py:75-77 | the slices `[:3]`, `[3:6]`, `[6:]` cover the list exactly once, so stress + anxiety + depression equals the sum of all answers, for any length |
| Scoring.SubScoresOfNine | Public/questions.py:291-293 | on nine answers: stress = r0+r1+r2, anxiety = r3+r4+r5, depression = r6+r7+r8 |
| Scoring.SumOfThree | Public/questions.py:291 | the sum of a triple is its three elements added |
| Scoring.QuestionListSize | Public/train_model.py:13-55 | the question list both loops iterate over has nine entries, one per feature column |
| Scoring.FeatureOrderMatchesSlices | Public/train_model.py:13 | there are nine feature columns; column i is named after a sub-scale (`Stress_Q1..3`, `Anxiety_Q1..3`, `Depression_Q1..3`), and answer i is an element of exactly that sub-scale's slice (`[:3]`, `[3:6]` or `[6:]` of train_model.py:75-77) |
| Scoring.BandIndex | Public/questions.py:306 | `min(3, s//3)` is a valid index into the four labels; it is 0 iff s <= 2 and 3 iff s >= 9 |
| Scoring.Band | Public/questions.py:306-318 | Low iff 0–2, Moderate iff 3–5, High iff 6–8, Very High iff 9 or more |
| Scoring.BandMonotone | Public/questions.py:306 | a higher sub-score never gets a lower band index |
| Categories.CategoryMapping | Public/questions.py:200 | `dict(enumerate(categories))`: the keys are exactly 0..n-1 and key i holds the i-th category |
| Categories.CodeOf | Public/questions.py:201 | `cat.codes` of one label: -1 iff the label is not a category; otherwise the position of its first occurrence |
| Categories.Encode | Public/train_model.py:19 | the encoded column has one code per row, each row's label code |
| Categories.Decode | Public/train_model.py:72 | `category_mapping[code]` succeeds iff the code is a key, and then gives one of the mapping's labels |
| Categories.MappingSize | Public/train_model.py:18 | the mapping has exactly one entry per category |
| Categories.MappingValues | Public/train_model.py:18 | the mapping's values are exactly the categories |
| Categories.MappingInjective | Public/train_model.py:18 | with distinct categories, two different codes never decode to the same label |
| Categories.EncodeDecode | Public/questions.py:288 | decoding the code of a category gives that category back |
| Categories.DecodeEncode | Public/questions.py:200-201 | with distinct categories, every code 0..n-1 decodes, and re-encoding the label gives the same code |
| Categories.DecodeOutOfRange | Public/questions.py:288 | a code outside 0..n-1 is not a key, so the lookup fails |
| Categories.ColumnRoundTrip | Public/train_model.py:17-19 | every code written into the target column is in 0..n-1, and decoding it with the stored mapping (as at train_model.py:72) gives that row's label back |
| Categories.Frame.Categorize | Public/questions.py:199-201 | replaces the target column in place by its codes, returns the mapping, leaves the features unchanged (the same steps as train_model.py:17-19) |
| Questions.RadioAnswer | Public/questions.py:269-276 | a radio with no pre-selected option gives `None` iff its question has not been answered, and otherwise the chosen option |
| Questions.RadioResponses | Public/questions.py:266-277 | one entry per question in order: `None` exactly for the unanswered ones, the chosen option for the others |
| Questions.CollectResponses | Public/questions.py:253-278 | the loop gives one entry per question, in question order: the chosen option, or `None` for an unanswered radio |
| Questions.Gate | Public/questions.py:282 | refuses iff some entry is `None`; otherwise gives the answers in the same order |
| Questions.GateLift | Public/questions.py:286 | a list with every question answered passes the gate unchanged |
| Questions.Submit | Public/questions.py:281-318 | incomplete iff some entry is `None`, with the page's message; an assessed category is one of the mapping's labels; sub-scores are within [0, 9] |
| Questions.CollectedPassesGate | Public/questions.py:266-283 | the collected responses pass the gate iff every question's radio was answered, and then the answers are the chosen options |
| Questions.IncompleteMakesNoPrediction | Public/questions.py:282-283 | with any answer missing, the result is the error message whatever the classifier and mapping: no prediction is used |
| Questions.SubmitLifted | Public/questions.py:284-318 | a fully answered list whose code is in range is assessed with the category at that code, the answers' sub-scores and the band of each |
| Questions.CompleteSubmission | Public/questions.py:284-318 | a complete nine-answer submission with an in-range code shows that code's category, the three triple sums (adding up to the total) and their bands |
| Questions.ExampleAllNever | Public/questions.py:291-318 | nine answers all 0: scores 0/0/0, all Low |
| Questions.ExampleAllAlways | Public/questions.py:291-318 | nine answers all 3: scores 9/9/9, all Very High |
| Questions.ExampleMixed | Public/questions.py:291-318 | [1,2,1,0,0,1,2,2,3]: 4 Moderate, 1 Low, 7 High |
| Questions.UnknownCodeShowsNothing | Public/questions.py:287-288 | an out-of-range code raises the lookup error, and nothing is shown |
| TrainModel.SliderAnswer | Public/train_model.py:58 | a 0..3 slider with default 0 gives the position it was moved to, or 0 if it was not moved |
| TrainModel.SliderResponses | Public/train_model.py:57-58 | one answer per question in order: the moved position, or 0 |
| TrainModel.CollectResponses | Public/train_model.py:57-58 | the loop gives one answer per question, in order: the slider position, or the default 0 |
| TrainModel.UntouchedSlidersScoreZero | Public/train_model.py:58 | with no slider moved, the list has n answers, all 0, adding up to 0 |
| TrainModel.Predict | Public/train_model.py:60-77 | the lookup fails iff the classifier's code is not a key; a predicted category is one of the mapping's labels; the printed scores are within [0, 9] |
| TrainModel.PredictionReport | Public/train_model.py:67-77 | for the slider vector and an in-range code, the page prints that code's category and the three triple sums; each is in [0, 9] and together they equal the total |

## Left out

- Page styling, markdown and CSS, resource links, the disclaimer, metrics and `st.progress(score / 9)`: display only.
- The background GIF loading, its base64 embedding and the `FileNotFoundError` fallback: file I/O.
- Reading `dataset.csv` and the `@st.cache_data` / `@st.cache_resource` caching: I/O and framework caching. The data set is the `Frame` constructor's argument.
- pandas' rule for choosing and ordering the categories in `astype("category")`: the category list is an input to `Categorize`.
- `train_test_split`, `RandomForestClassifier` fitting and prediction, `accuracy_score`, `classification_report`: library code with floating-point internals. The fitted classifier is the `predict` parameter, and the model does not claim it returns a trained code. The out-of-range case is kept as a lookup error.
- Pickle save and load of the model and the mapping (train_model.py:29-32, 62-65): serialisation I/O. The loaded mapping is assumed to be the saved one.
- Widget keys: Streamlit keys a radio by `q_{i}` and a slider by its label. Both are modelled as a map keyed by the question's index.
- Python's negative-index behaviour for `min(3, s//3)` when `s < 0`: sub-scores are sums of answers in 0..3 and are never negative, so `Band` takes a natural number.
