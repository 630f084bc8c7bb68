# Diabetes risk dashboard: the local scorer and the input form

This project models the two pieces of sequential logic behind the dashboard's
user interface and proves what they promise.

- **The prediction page** (`src/pages/Index.tsx`). `handlePredict` scores an
  eight-field `PredictionData` record with six additive threshold rules
  (glucose > 140: +30, BMI > 30: +25, age > 45: +20, blood pressure > 80: +15,
  pregnancies > 3: +10, diabetes pedigree function > 0.8: +15). Each rule that
  fires pushes one factor. The total is mapped to a tier (low below 30,
  moderate below 60, high otherwise) and to a confidence of
  `min(95, max(65, 85 + (score > 50 ? 10 : 0)))`. The result is stored in the
  page's view state and the page switches to the result view.
  `handleReset` goes back to the form view and drops the result.
- **The input form** (`src/components/PredictionForm.tsx`).
  `handleInputChange` replaces one field of the form's record with
  `parseFloat(value) || 0`. `handleSubmit` rejects a glucose outside [0, 300],
  then a BMI outside [10, 70], each with an early return. Otherwise it hands
  the record, unchanged, to `onPredict`.

Layout:

- `wrappers.dfy` (`Wrappers`): `Option`.
- `records.dfy` (`Records`): the `PredictionData` record and its field keys.
- `scoring.dfy` (`Scoring`): the rule table. It also holds the score, factors,
  tier and confidence as specification functions, and the lemmas about them.
  Score and factors are defined by accumulating over a prefix of the rule
  order, one rule at a time, as the handler does.
- `index.dfy` (`Index`): `Evaluate`, the handler's local computation written
  step by step and proved equal to the specification. Also the `IndexPage`
  class with the `currentView` and `predictionResult` state.
- `prediction_form.dfy` (`Form`): the `PredictionForm` class with its
  `formData` state, the single-field update, the parse default and the
  validation.

Modelling choices:

- Numbers are `real`, because the code only compares them with constants and
  copies them.
- A factor is the tagged value `Factor(rule, reading)` instead of the
  interpolated message string. It records which rule fired and the reading
  that the message shows.
- `parseFloat` is given as its outcome: `None` for NaN, `Some(x)` otherwise.
- A rejected submission is a `Rejected(reason)` outcome. It stands for the
  toast, which names the failing check.

## Model

| member | source | states |
|---|---|---|
| `Scoring.Confidence` | src/pages/Index.tsx:69 | the clamped confidence always lies in [65, 95]; it is 95 exactly when the score exceeds 50, and 85 otherwise, so the clamp never binds |
| `Scoring.ScoreBounds` | src/pages/Index.tsx:33-61 | for any prefix of the rules, the accumulated score lies between 0 and the sum of those rules' points |
| `Scoring.FactorsLength` | src/pages/Index.tsx:33-61 | each rule pushes at most one factor, so there are never more factors than rules checked |
| `Scoring.ScoreIsFactorPoints` | src/pages/Index.tsx:33-61 | every point addition is paired with exactly one push: the score equals the sum of the points of the rules the factors name, so it is a subset-sum of 30, 25, 20, 15, 10, 15 |
| `Scoring.FactorsEmptyIffScoreZero` | src/pages/Index.tsx:33-61 | the factor list is empty if and only if the score is 0 |
| `Scoring.FactorsOrdered` | src/pages/Index.tsx:33-61 | the factors follow the fixed order glucose, BMI, age, blood pressure, pregnancies, pedigree, with no rule twice |
| `Scoring.FactorsExactlyFired` | src/pages/Index.tsx:33-61 | a factor for a rule is present, carrying that rule's reading, if and only if the reading is strictly above the rule's threshold |
| `Scoring.ScoreMonotone` | src/pages/Index.tsx:33-61 | raising any readings never lowers the score |
| `Scoring.ScoreRange` | src/pages/Index.tsx:33-61 | the score of any record lies in [0, 115] |
| `Scoring.AtThresholdAddsNothing` | src/pages/Index.tsx:33-61 | the thresholds are strict: a reading at or below its threshold (glucose exactly 140, BMI exactly 30, age exactly 45, ...) contributes no factor |
| `Scoring.TierBands` | src/pages/Index.tsx:64-67 | the tier is low iff score < 30, moderate iff 30 <= score < 60, high iff score >= 60 |
| `Scoring.TierMonotone` | src/pages/Index.tsx:64-67 | the tier never decreases as the score grows |
| `Scoring.ConfidenceOfTier` | src/pages/Index.tsx:64-69 | a high tier always comes with confidence 95, a low tier always with 85 |
| `Scoring.RiskMonotone` | src/pages/Index.tsx:33-67 | raising any readings never lowers the risk tier |
| `Scoring.AssessWellFormed` | src/pages/Index.tsx:33-71 | every stored result has a confidence in [65, 95] matching its tier, at most six factors in rule order, and no factors only when the score is 0 |
| `Scoring.ExampleAllExceeded` | src/pages/Index.tsx:33-69 | glucose 150, BMI 35, age 50, blood pressure 85, 4 pregnancies, pedigree 0.9 scores 115 and gives high risk, 95 and the six factors in order |
| `Scoring.ExampleNoneExceeded` | src/pages/Index.tsx:33-69 | a record with no threshold exceeded gives low risk, 85 and no factors |
| `Index.Evaluate` | src/pages/Index.tsx:27-69 | the step-by-step accumulation of score and factors, the tier chain and the clamped confidence compute exactly the specified result |
| `Index.IndexPage.constructor` | src/pages/Index.tsx:20-25 | the page starts in the form view with no result |
| `Index.IndexPage.HandlePredict` | src/pages/Index.tsx:27-73 | afterwards the view is the result view and it holds the result of the given record; the page invariant is kept |
| `Index.IndexPage.HandleReset` | src/pages/Index.tsx:75-78 | afterwards the view is the form view and the result is null; the page invariant is kept |
| `Index.IndexPage.SubmitFromForm` | src/pages/Index.tsx:145-149 | a form submit in the form view shows the result of the form's record exactly when validation passes, and leaves the page unchanged when it fails |
| `Form.WithField` | src/components/PredictionForm.tsx:37-40 | the updated record holds the new value in the named field and the old value in all seven others |
| `Form.StoredValue` | src/components/PredictionForm.tsx:38 | the stored value is 0 exactly when the parse gave NaN or 0; any other parsed number, negative ones included, is stored as-is |
| `Form.Validate` | src/components/PredictionForm.tsx:46-64 | a record is submitted, unchanged, iff glucose is in [0, 300] and BMI in [10, 70]; an out-of-range glucose is reported whatever the BMI; the BMI rejection only when glucose passes |
| `Form.PredictionForm.constructor` | src/components/PredictionForm.tsx:26-35 | the form starts with the default record |
| `Form.PredictionForm.HandleInputChange` | src/components/PredictionForm.tsx:37-40 | the form's record becomes the old record with the one named field set to the parse-or-zero value |
| `Form.PredictionForm.HandleSubmit` | src/components/PredictionForm.tsx:42-65 | the early-return checks hand the record on unchanged iff both ranges hold, otherwise report the first failing check |
| `Form.WriteTwice` | src/components/PredictionForm.tsx:37-40 | typing into a field twice keeps only the second value |
| `Form.WritesCommute` | src/components/PredictionForm.tsx:37-40 | updates to two different fields give the same record in either order |
| `Form.WriteSameValue` | src/components/PredictionForm.tsx:37-40 | writing back the value a field already holds leaves the record unchanged |
| `Form.OnlyGlucoseAndBmiChecked` | src/components/PredictionForm.tsx:46-64 | records that agree on glucose and BMI get the same outcome, whatever their other six fields hold |
| `Form.GlucoseCheckedFirst` | src/components/PredictionForm.tsx:46-62 | when both fields are out of range, the glucose rejection is the one reported |
| `Form.RangeBoundaries` | src/components/PredictionForm.tsx:46-62 | the boundary values 0 and 300 (glucose) and 10 and 70 (BMI) are accepted; values just outside are not |
| `Form.ExampleSubmissions` | src/components/PredictionForm.tsx:26-75 | the default record passes; an age of 150, outside the widget's 18-120 hint, still submits; a glucose of 310 is rejected |

## Left out

- Rendering: JSX, CSS classes, icons, the feature cards and the footer of the page. The toast notifications are reduced to the `Rejected` reason.
- `src/components/PredictionResult.tsx` and `src/components/DataVisualization.tsx`: static text keyed by tier, and rendering.
- `src/api/predict.ts` and `src/components/PredictorDemo.tsx`: a single network `fetch` and its loading and error display.
- `backend/app.py` and `backend/train_model.py`: a web server and model training in foreign libraries.
- The text of the factor messages: a factor is the rule plus the reading it interpolates.
- How `parseFloat` reads a string: it is given as `Option<real>`.
- IEEE floating point: NaN, infinities and `-0`, which `|| 0` also maps to 0, are not modelled. Neither is the binary rounding of `0.8`, which is exact in the model.
- The `isLoading` prop, which only disables the submit button, and `preventDefault` on the submit event.
- React's deferred state updates: `setPredictionResult`, `setCurrentView` and `setFormData` take effect at once in the model.
- Min/max hints on the input widgets: the browser may enforce them, and the code does not. The model follows the code, so they are not checked on submit.
