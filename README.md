# Malaria screening decision rules

A Dafny model of the clinical decision rules inside the Streamlit
application `malaria_app.py`. The application has three pages that share
one submitted form:

- the **AI Malaria Scan** page accepts three answers (location, bed-net use,
  fever symptoms) and eighteen blood-test measurements, each through a
  numeric field with an inclusive minimum and maximum. It assembles the
  21 values in the classifier's column order, asks the classifier for a
  prediction and reads `1` as "no malaria", anything else as "malaria
  detected";
- the **Health Dashboard** compares five indicators (RBC, hemoglobin,
  platelets, WBC, temperature) with reference ranges. It then runs seven
  additive risk checks and maps the score 0..15 to a Low, Moderate or
  High level;
- the **Recommendations** page shows the urgent-care branch for prediction
  `0`, with up to three extra warnings. Any other prediction selects the
  preventive branch, with a list of up to five personalised cards.

Modules, one file each:

| file | module | what it holds |
|---|---|---|
| `wrappers.dfy` | `Wrappers` | `Option` and `Result` |
| `filtering.dfy` | `Filtering` | an order-preserving `Filter` and its laws (membership, order, keeping everything, appending one element at a time) |
| `schema.dfy` | `Schema` | `LabObservation`, the field bounds, option strings and `Validate` |
| `features.dfy` | `Features` | the classifier's 21 columns and `FeatureRecord`, with its inverse `ObservationOf` |
| `dashboard.dfy` | `Dashboard` | reference ranges, statuses and the under-indicator messages |
| `risk.dfy` | `Risk` | the seven checks, the accumulation `AssessRisk`, the score and the level |
| `recommendations.dfy` | `Recommendations` | the branch on the prediction, the urgent warnings and the preventive list built by `BuildPreventive` |
| `consistency.dfy` | `Consistency` | agreement between dashboard warnings, risk factors and recommendations |
| `pipeline.dfy` | `Pipeline` | one pass through the three pages, with the classifier as a parameter |

Design points:

- Measurements are exact `real`s. Every rule only compares readings with
  decimal constants, so nothing is rounded.
- The two places where the source appends to a list step by step are
  methods: `Risk.AssessRisk` (the score and the factor list) and
  `Recommendations.BuildPreventive` (the card list). Each is proved equal to
  a specification function, and the properties are proved about that
  function. The urgent warnings and the statuses are plain conditionals in
  the source, so they are functions here.
- A risk factor is recorded as its `RiskCheck`, and `Risk.FactorText` gives
  the exact string the dashboard prints. A preventive card is recorded as
  its `Advice`, and `Recommendations.CardOf` gives the exact title and text.
- The laboratory risk thresholds are the dashboard's reference bounds:
  RBC 4.0, Hb 12.0, platelets 150 and temperature 37.2. The source reads
  them from the same tuples; the model writes them as constants and proves
  the agreement in `Consistency`.
- The field bounds are enforced by the number widgets of the form. The
  model turns them into `Schema.Validate`, which accepts a form or names the
  first unknown option, missing value or out-of-range value. It never
  clamps.

Behaviour of the code that a reader might not expect, modelled as written:

- Temperature has only the statuses "Normal" and "Fever". A reading below
  36.1 also shows "Fever", and no message explains it
  (`Dashboard.LowTemperatureReadsAsFever`).
- Hb and platelets have a warning only below their range, and temperature
  only above it. RBC and WBC have a warning below and a note above.
- The urgent-care branch has no list of recommendation items. Beyond its
  static text it shows only the three conditional warnings.
- Preventive cards have a title and a text only; there is no urgency field.
- The scan page treats every prediction other than `1` as "malaria detected".
  The recommendations page treats only `0` as infected. The two agree on the
  labels 0 and 1 that a binary classifier produces, and disagree on any
  other value (`Recommendations.OtherLabelsDisagree`).

## Model

| member | source | states |
|---|---|---|
| Schema.FieldBounds | malaria_app.py:244-269 | each measurement's inclusive range as declared on its input, every range positive and non-empty |
| Schema.ParseLocation | malaria_app.py:272 | a location is read exactly when the string is one of the three options, and then it is that option |
| Schema.ParseAnswer | malaria_app.py:273-274 | a bed-net or fever answer is read exactly when the string is "Yes" or "No" |
| Schema.FirstNumericProblem | malaria_app.py:244-269 | no problem is reported exactly when every listed field is present and within bounds; a reported problem is a true statement about a listed field |
| Schema.Validate | malaria_app.py:244-274 | a form is accepted exactly when all options are known and all eighteen values are present and in bounds; the accepted observation is valid and carries exactly the entered options and values; a rejection names a real problem |
| Schema.ValidateFormOf | malaria_app.py:244-274 | any valid observation, entered on the form, is accepted unchanged |
| Schema.ValidateRejectsOutOfBounds | malaria_app.py:244-269 | a value outside its field's range is never accepted |
| Schema.DefaultObservationIsValid | malaria_app.py:244-274 | the form's initial values and first options are a valid observation |
| Features.FieldIndex | malaria_app.py:280-302 | each measurement has a position in the measurement order, and its column sits three places later in the classifier's column list |
| Features.FeatureRecord | malaria_app.py:280-302 | the record has the 21 trained columns in order, each holding the observation's value for that column |
| Features.ObservationOf | malaria_app.py:280-302 | a record is read back only when it has the trained shape |
| Features.ObservationOfFeatureRecord | malaria_app.py:280-302 | the record loses nothing: reading it back gives the observation it was built from |
| Dashboard.StatusMeaning | malaria_app.py:393-475 | "Normal" exactly when the reading lies in the inclusive reference range; otherwise "Fever" for temperature and "Abnormal" for the rest |
| Dashboard.MessageMeaning | malaria_app.py:401-481 | the low warning appears exactly below the range and the high note exactly above it, only for indicators that have one; neither appears for a normal reading |
| Dashboard.TwoSidedIndicatorsExplainAbnormal | malaria_app.py:401-470 | for RBC and WBC a non-normal status always comes with a message, and conversely |
| Dashboard.OneSidedIndicatorsSilentOnOtherSide | malaria_app.py:424-485 | Hb and platelets are silent above their range, temperature below it |
| Dashboard.LowTemperatureReadsAsFever | malaria_app.py:473-481 | a temperature below 36.1 shows "Fever" with no message |
| Risk.AssessRisk | malaria_app.py:492-521 | the step-by-step accumulation ends with the score of the checks that fire and the factor list of those checks in evaluation order |
| Risk.FactorsByChecks | malaria_app.py:495-521 | the factor list is the result of taking the seven checks in order and appending each one that fires |
| Risk.ScoreByChecks | malaria_app.py:492-521 | the score is the sum over the seven checks of what each earns |
| Risk.ScoreFormula | malaria_app.py:492-521 | the score is 3, 2, 1, 2, 2, 2, 3 points for fever, no bed net, rural, RBC below 4.0, Hb below 12.0, platelets below 150 and temperature above 37.2 |
| Risk.ScoreBounds | malaria_app.py:492-539 | the score lies in 0..15 |
| Risk.ScoreMaximal | malaria_app.py:492-539 | the score is 15 exactly when all seven checks fire |
| Risk.FactorsExact | malaria_app.py:495-521 | a check is listed as a factor exactly when its condition holds |
| Risk.FactorsInOrder | malaria_app.py:495-521 | factors appear in the order fever, bed net, rural, RBC, Hb, platelets, temperature, none twice |
| Risk.FactorTextInjective | malaria_app.py:497-521 | different checks print different factor texts |
| Risk.FactorTextsDistinct | malaria_app.py:497-521 | the printed factor list has no repeated line |
| Risk.NoFactors | malaria_app.py:495-521 | no factor exactly when fever is No, a bed net is used, the location is not rural, RBC ≥ 4.0, Hb ≥ 12.0, platelets ≥ 150 and temperature ≤ 37.2 (the checks are strict) |
| Risk.ZeroScore | malaria_app.py:492-534 | the score is 0 exactly when there is no factor, and then the level is Low |
| Risk.EveryCheckFires | malaria_app.py:492-539 | when every check fires, all seven factors are listed in order, the score is 15 and the level High |
| Risk.LevelMonotone | malaria_app.py:526-534 | a higher score never gives a lower level |
| Risk.LevelSteps | malaria_app.py:526-534 | High exactly from 8, Moderate exactly from 4 to 7, Low exactly below 4 |
| Risk.HighRiskNeedsLaboratoryFinding | malaria_app.py:492-534 | a High level always includes at least one laboratory factor |
| Recommendations.BuildPreventive | malaria_app.py:640-670 | the step-by-step list ends as the recommendations whose conditions hold, in order |
| Recommendations.Recommend | malaria_app.py:561-670 | prediction 0 and only 0 gives the urgent branch with its warnings; any other prediction gives the preventive branch with its list |
| Recommendations.UrgentNoticesExact | malaria_app.py:594-613 | a warning is shown exactly when temperature > 38.5, Hb < 10 or platelets < 100 respectively |
| Recommendations.UrgentNoticesInOrder | malaria_app.py:594-613 | warnings come as fever, anemia, thrombocytopenia, none twice, at most three |
| Recommendations.PreventiveAdviceExact | malaria_app.py:642-670 | a card is listed exactly when Hb < 12, platelets < 150, WBC < 4, temperature > 37.5 or bed net No respectively |
| Recommendations.PreventiveAdviceInOrder | malaria_app.py:640-670 | cards come in the order anemia, platelets, immunity, temperature, bed nets, none twice, at most five |
| Recommendations.PreventiveAdviceEmpty | malaria_app.py:640-672 | the personalised section is empty exactly when none of the five conditions holds |
| Recommendations.CardTitlesDistinct | malaria_app.py:642-669 | different cards have different titles |
| Recommendations.VerdictAgreesWithBranch | malaria_app.py:561 | for predictions 0 and 1, the scan page's "detected" verdict (prediction other than 1) agrees with the infected branch (prediction 0) |
| Recommendations.OtherLabelsDisagree | malaria_app.py:325 | any prediction other than 0 and 1 reads as "detected" on the scan page but selects the preventive branch |
| Consistency.WarningMatchesFactor | malaria_app.py:401-521 | the low RBC, Hb and platelet warnings and the high temperature warning appear exactly when the matching risk factor is listed |
| Consistency.FactorMeansOutOfRange | malaria_app.py:395-521 | a laboratory risk factor always comes with an "Abnormal" (or, for temperature, "Fever") status |
| Consistency.UrgentNoticeImpliesFactor | malaria_app.py:594-608 | each urgent warning implies the corresponding risk factor: high fever, severe anemia and severe thrombocytopenia imply elevated temperature, low hemoglobin and low platelets |
| Consistency.AdviceMatchesFactor | malaria_app.py:642-670 | the anemia, platelet and bed-net cards appear exactly with the low-Hb, low-platelet and no-bed-net factors |
| Consistency.TemperatureAdviceImpliesFactor | malaria_app.py:660-664 | the temperature card implies the elevated-temperature factor; a reading in (37.2, 37.5] gives the factor without the card |
| Consistency.ImmunityAdviceMatchesWarning | malaria_app.py:654-658 | the immune-system card appears exactly with the dashboard's low-WBC warning |
| Pipeline.Evaluate | malaria_app.py:276-325 | an accepted form yields the validated observation, its feature record (which reads back to it), the classifier's prediction and verdict, the risk score in 0..15 with its level and factors, and the recommendation branch; a rejected form yields a true explanation |

## Left out

- Streamlit rendering, CSS, page navigation, images and all static markdown text: presentation only.
- Loading the classifier with joblib and calling `predict` / `predict_proba`: the classifier is an opaque function parameter of `Pipeline.Evaluate`, returning an integer label.
- The confidence percentage and the donut chart: floating-point display only.
- `st.session_state`, which carries the observation and the prediction between pages: the observation and prediction are passed explicitly. The "run a scan first" messages shown when nothing is stored are not modelled.
- The exception handler and warning suppression around the prediction: library plumbing.
- The widgets' `step` sizes and the display formatting of readings: presentation.
- Schema.Validate: the source cannot produce an out-of-range, missing or unknown value because the widgets prevent it. The model instead rejects such a form with a reason and does not model the widgets' behaviour of stopping entry.
- Risk.AssessRisk: records each factor as its check rather than its text; `Risk.FactorText` maps checks to the printed strings and `Risk.FactorTextsDistinct` shows the mapping keeps the list free of repeats.
- Recommendations.BuildPreventive: records each card as its `Advice` rather than as a title/content dictionary; `Recommendations.CardOf` gives the exact strings.
- Floating-point representation: readings are exact reals; the thresholds are decimal constants compared directly, so the model assumes the entered value is the one compared.
