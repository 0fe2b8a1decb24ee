# Recruitment prediction app: feature builder, decision rule and history

This project models the logic of the recruitment prediction dashboard (`app.py`)
in Dafny. The dashboard wraps a pre-trained classifier, and three parts of it are
modelled:

- **Feature builder** (`preprocess_input`, module `Features`). A candidate's
  recruitment-strategy label becomes three one-hot indicator columns. If the
  label is not in the table, the lookup raises KeyError. There is no all-zero
  fallback. Next, `TotalScore` and `Skill_Experience_Interaction` are computed
  from the raw scores. Only after that does the pre-fit scaler replace the four
  columns ExperienceYears, InterviewScore, SkillScore and PersonalityScore.
  Finally, ten columns are projected in the fixed order the classifier was
  trained on. The one-row pandas frame is modelled as a map from a `Column`
  datatype to numbers, with one function per step, so the order of the steps
  is explicit. The scaler is a function parameter.
- **Decision rule** (module `Decision`). The accepted-class probability
  `p1` is multiplied by 100. The result is accepted when it is at least 61.0,
  so the boundary is inclusive. The result is labelled "Diterima" or
  "Tidak Diterima". `predict_proba` is opaque: its output is a pair of
  probabilities in [0, 1].
- **History** (modules `History` and `App`). A prediction appends one
  {Nama, Probabilitas, Status} record. The history page shows the list sorted
  by probability, highest first, and re-numbered from 0. A row's delete button
  calls `pop(i)` with that row number. The clear button replaces the list with
  `[]`.

The model follows the code as written, including one behaviour worth knowing.
The delete button's index `i` is a position in the sorted view, but `pop(i)`
is applied to the unsorted list. As a result, the delete button can remove a
record other than the one shown in its row. `History.DeleteRemovesShownRowIff`
states exactly when the shown record is the one removed.
`History.DeleteCanRemoveAnotherRow` gives a two-record history where the wrong
record is removed. `History.DeleteIsRightOnStrictlySortedHistory` shows that
the button is always right when the history is already strictly sorted by
probability.

An unknown strategy label raises KeyError at app.py:180, modelled as
`Features.UnknownStrategy`. The decision is the 0/1 integer `prediction`
(app.py:254), which app.py:258 maps to a status string.

Files: `wrappers.dfy` (Option and Result), `features.dfy`, `decision.dfy`,
`history.dfy`, `app.dfy`.

## Model

| member | source | states |
|---|---|---|
| Features.StrategyOf | app.py:219 | the three labels the form offers name three distinct strategies and nothing else names one |
| Features.Encode | app.py:178-179 | each strategy's indicator triple has every entry in {0,1} and sums to 1 |
| Features.DecodeEncode | app.py:178 | reading a strategy back from indicators gives `s` exactly when the indicators are `s`'s encoding |
| Features.OneHotIsAnEncoding | app.py:178 | a triple is one-hot exactly when it is the encoding of the strategy it decodes to |
| Features.LookupStrategy | app.py:178-180 | the table lookup succeeds exactly for the three known labels and yields Referral→1,0,0, Job Fair→0,1,0, Outsourcing→0,0,1; any other label is a KeyError, never all zeros |
| Features.InitialRow | app.py:177 | the initial frame holds EducationLevel and the four numeric columns, with the candidate's values in them, and no indicator or derived column |
| Features.AssignOneHot | app.py:179-180 | the three indicator columns receive the triple; every other column is unchanged |
| Features.AddDerived | app.py:181-182 | TotalScore is the sum of the three score columns and the interaction is SkillScore times ExperienceYears, read from the frame at that step; no other column changes |
| Features.ApplyScaler | app.py:176-183 | the four numeric columns, passed in the order ExperienceYears, InterviewScore, SkillScore, PersonalityScore, are replaced by the scaler's output; every other column and the set of columns are unchanged |
| Features.Project | app.py:189 | selecting columns yields one cell per requested column, in the requested order |
| Features.ColumnsRoundTrip | app.py:184-189 | the typed ten-field vector and its ten cells in column order convert into each other without loss |
| Features.ColumnsFollowSelectedFeatures | app.py:184-189 | cell k of the vector is the k-th column of the fixed order; the order lists all ten columns once each, under the pandas names EducationLevel … RecruitmentStrategy_3 |
| Features.BuildRow | app.py:176-183 | before projection the frame holds all ten columns: raw education level, scaler output for the four numeric columns, the indicators, and derived columns computed from the raw scores |
| Features.ProjectSelected | app.py:184-189 | projecting a complete frame fills each vector field from the column of the same name |
| Features.PreprocessInput | app.py:175-189 | succeeds exactly for known labels (else KeyError); the result has the raw education level, the scaler's image of the raw numeric inputs, the label's one-hot indicators, TotalScore = skill + interview + personality and interaction = skill × experience from raw inputs |
| Features.UnscaledColumnsIgnoreScaler | app.py:176-183 | under any two scalers, the education level, the indicators and both derived columns are identical |
| Features.DerivedColumnsUseRawScores | app.py:181-183 | with a halving scaler, TotalScore is 225 and the interaction is 400, while the scaled columns sum to 112.5 and multiply to 100, so the derivation happens before scaling |
| Features.ReferralExample | app.py:178-183 | education 2, experience 5, interview 70, skill 80, personality 75 and Referral give TotalScore 225, interaction 400 and indicators 1,0,0 whatever the scaler |
| Features.DerivedColumnsBounded | app.py:181-182 | inside the form's input ranges, TotalScore stays in 0..300 and the interaction in 0..4000 |
| Decision.ProbAccept | app.py:252 | the percentage lies in 0..100 and divided by 100 gives back the accepted-class probability |
| Decision.Prediction | app.py:253-254 | the flag is 0 or 1, and it is 1 exactly when the percentage is at least 61.0 |
| Decision.Status | app.py:258 | the status is "Diterima" exactly for flag 1, otherwise "Tidak Diterima" |
| Decision.Decide | app.py:251-258 | the stored probability is 100·p1, and the status is "Diterima" exactly when it is ≥ 61.0, i.e. exactly when p1 ≥ 0.61 |
| Decision.BoundaryIsInclusive | app.py:253-254 | p1 = 0.61 is accepted, and every percentage below 61 is rejected |
| Decision.DecideIsMonotone | app.py:254 | a larger accepted-class probability never turns an acceptance into a rejection |
| Decision.DecideIgnoresRejectedClass | app.py:251-252 | the decision depends only on index 1 of `predict_proba` |
| History.Append | app.py:255-259 | appending adds exactly one record at the end and leaves all earlier entries in place |
| History.RemoveAt | app.py:320 | removing position i shortens the list by one; records before i keep their positions, those after move down by one, and together with the removed record they are the original contents |
| History.Pop | app.py:320 | `pop(i)` succeeds exactly for -len ≤ i < len (else IndexError), shortens the list by one, and removes the element at the normalised index (i, or len + i when negative): records before it keep their positions and those after move down by one |
| History.PopThenInsertRestores | app.py:320 | re-inserting the popped record at its index restores the list; records before `i` keep their positions and those after shift down by one |
| History.PopUndoesAppend | app.py:255-320 | popping the last index, or -1, right after an append gives back the history as it was before the append |
| History.Clear | app.py:335 | clearing yields the empty history whatever it held |
| History.InsertDescending | app.py:306 | inserting into a list sorted by descending probability keeps it sorted and adds exactly that record |
| History.SortDescending | app.py:306 | every history has a display order (`IsDisplayView`, the model of `sort_values(by="Probabilitas", ascending=False).reset_index(drop=True)`): the same records, as many of them, sorted by descending probability |
| History.DeleteRemovesShownRowIff | app.py:306-320 | for any display order `v` (`IsDisplayView(h, v)`: the records of `h` sorted by descending probability, as app.py:306 shows them), row i's delete removes `h[i]`, and it removes the record shown in row i exactly when that record is `h[i]` |
| History.DeleteCanRemoveAnotherRow | app.py:306-320 | with A at 40% then B at 90%, row 0 shows B but its delete removes A |
| History.DisplayViewOfStrictlySorted | app.py:306 | a history strictly sorted by descending probability has itself as its only display order |
| History.DeleteIsRightOnStrictlySortedHistory | app.py:306-320 | on a strictly sorted history, every delete button removes the record of its own row |
| App.Predict | app.py:250-259 | a prediction succeeds exactly for known labels; the record keeps the name, stores 100 × the classifier's p1 for the built features (in 0..100), and is "Diterima" exactly when that reaches 61.0 |
| App.OnPredict | app.py:241-259 | without loaded artifacts the history is unchanged; with them, a known label appends exactly the predicted record at the end and keeps every earlier record; an unknown label raises |
| App.FormStrategiesNeverFail | app.py:219 | every strategy the select box offers is in the one-hot table, so a form prediction never raises |
| App.PredictIsConsistent | app.py:252-258 | every predicted record has its percentage in 0..100 and a status that matches the threshold |
| App.OnPredictPreservesConsistency | app.py:255-259 | predicting keeps every record of the history consistent |
| App.PopPreservesConsistency | app.py:320 | deleting a row keeps every remaining record consistent |
| App.ClearPreservesConsistency | app.py:335 | the cleared history is consistent |
| App.ExampleCandidate | app.py:241-259 | for the worked example, the classifier receives TotalScore 225, interaction 400 and indicators 1,0,0; one record named as entered is appended, with status "Diterima" exactly when p1 ≥ 0.61 |

## Left out

- The Streamlit page, CSS, markup, navigation state and button wiring (app.py:9-164, 207-239, 262-336) are left out. They are presentation only. The action behind each button is modelled.
- The Plotly gauge (app.py:281-291) is left out because it is presentation.
- Loading the model and scaler (app.py:167-172) is left out because it is file I/O. The model has only the "loaded or not" gate of app.py:241, as an `Option`. As written, the loading code calls `joblib.load`, but app.py:2 imports only `load`, so the name `joblib` is undefined there. As written, then, the prediction block (app.py:241-259) can never run: with both files present the script stops with a NameError at app.py:169, and without them `model` stays None. `App.OnPredict`'s loaded branch describes the evidently intended program, in which the load succeeds.
- The scaler's and the classifier's internals are left out. They are foreign floating-point library objects, and they appear as function parameters.
- `load_history`, `save_history` and the download button (app.py:192-204, 324-326) are left out because they are CSV file I/O.
- The string column RecruitmentStrategy in the frame is not modelled. It is never projected.
- Streamlit reruns are not modelled. Each click is one call of the modelled action. The row number always comes from the current list, so `pop` sees an index in range.
- Decision.Decide: uses exact real arithmetic. It does not model binary64 rounding of `p1 * 100`, so a probability within rounding distance of 0.61 may be decided differently by the program.
- Features.PreprocessInput: frame cells are exact reals, and pandas int64/float64 dtypes are not modelled. `Features.DerivedColumnsBounded` shows that the derived columns cannot overflow 64 bits within the form's ranges.
- History.SortDescending: this is one stable order. pandas' default sort does not promise an order for equal probabilities, so the delete lemmas are stated for every descending arrangement (`IsDisplayView`).
