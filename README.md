# Kadwood transparency engine: a Dafny model

This project models the core of the Kadwood transparency app, a Shopify app that produces a "transparency passport" for a bespoke suit.
- The staff answer a questionnaire of nineteen questions in four pillars.
- A wizard scores the answers live.
- The wizard also estimates the transport emissions of a three-leg supply chain: primary producer → mill → garment construction → client warehouse.
- A report route saves the report and one answer row per answered question.
- Two passport renderers, one for the web page and one printable, turn the saved rows back into a details table.

Modules, one per source file, plus two helpers:

- `ScoringConfig` (`app/config/scoring.js`): the questionnaire as literal data, the certification table, and facts about both. The facts are:
  - the option shapes;
  - distinct question ids;
  - the transport question is the only read-only one;
  - the two tier questions are the only lookups.
- `Emissions` (`app/utils/emissions.js`): the emission factors, the default locations, the resolution of the route's locations and the route calculation.
  - The route calculation appears twice: as written, and corrected (see Findings).
- `Wizard` (`app/components/TransparencyWizard.jsx`): the live scorer, the maxima it can reach, and the wizard's own three-leg route with its fixed transport modes. It also covers:
  - the transport sub-score bands;
  - the select lists;
  - the checkbox round trip;
  - the mill pre-fill.
  - The wizard's state is the class `WizardState`. Each event handler is a method that keeps the scores and the emissions in step with the form.
- `CreateReport` (`app/routes/app.create-report.jsx`): the seventeen values bound to the report row, the answer rows with their stored points, and the action's dispatch on the intent.
- `PassportHtml` and `PassportPdf` (`app/components/TransparencyPassportHTML.jsx`, `app/components/TransparencyPassportPDF.jsx`): the answer text, the details table and the score bars. It is proved that the printable copy agrees with the web one.
- `JsRuntime` models the JavaScript behaviour the core relies on:
  - truthiness;
  - `obj[key]` as an optional value;
  - `Math.round`;
  - ASCII `toLowerCase` and `trim`;
  - `includes`;
  - `split(", ").pop()`;
  - `String(n)`.
- `Wrappers` holds `Option` and `Result`.

Answers are `Value = Str(s) | Num(n)`. The form's own inputs store strings, and the transport sub-score is stored as a number. The mill pre-fill can also copy any JSON value from a supplier's sustainability data into the form; the model takes those values as strings and integers only (see Left out). A key that is not in the map reads as `undefined`. Distances are a parameter: a function from two locations to a non-negative real.

Where the configuration's own claims and its questions disagree, the model follows the questions:
- Every pillar declares `max_score: 25`, and each scoring guide describes an "18-25 points" band (`app/config/scoring.js:38-39`, `85-86`, `126-127`, `171-172`). The questions actually allow at most 21, 25, 20 and 20 plus the transport sub-score. So the best form scores 91, not 100 (`Wizard.FullMarks`).
- The repository's vitest test asks for a `p1_synthetics` question, which the configuration does not have.

## Model

| member | source | states |
|---|---|---|
| ScoringConfig.FindChoice | app/components/TransparencyWizard.jsx:100 | the option found for a value is the first one stored under exactly that value; none is found iff no option has it |
| ScoringConfig.FourPillars | app/config/scoring.js:33-213 | four pillars, `pillar_1` to `pillar_4`, each with a maximum of 25 |
| ScoringConfig.AllConfigQuestions | app/config/scoring.js:33-213 | the flattened question list is the pillars' lists end to end |
| ScoringConfig.QuestionCount | app/config/scoring.js:33-213 | nineteen questions in all |
| ScoringConfig.InConfig | app/config/scoring.js:33-213 | every question of the configuration belongs to one of the four pillars |
| ScoringConfig.OptionsPillar1 | app/config/scoring.js:40-79 | pillar 1's checkboxes have one "yes" option; its select values are distinct and non-empty; its points are 0 to 5 |
| ScoringConfig.KindsPillar1 | app/config/scoring.js:40-79 | pillar 1 has no read-only or lookup question and only known types |
| ScoringConfig.ShapePillar1 | app/config/scoring.js:40-79 | both shape facts for pillar 1 |
| ScoringConfig.OptionsPillar2 | app/config/scoring.js:87-120 | option facts for pillar 2 |
| ScoringConfig.KindsPillar2 | app/config/scoring.js:87-120 | pillar 2's lookups are the two tier questions, without options |
| ScoringConfig.ShapePillar2 | app/config/scoring.js:87-120 | both shape facts for pillar 2 |
| ScoringConfig.OptionsPillar3 | app/config/scoring.js:128-165 | option facts for pillar 3 |
| ScoringConfig.KindsPillar3 | app/config/scoring.js:128-165 | kind facts for pillar 3 |
| ScoringConfig.ShapePillar3 | app/config/scoring.js:128-165 | both shape facts for pillar 3 |
| ScoringConfig.OptionsPillar4 | app/config/scoring.js:173-212 | option facts for pillar 4 |
| ScoringConfig.KindsPillar4 | app/config/scoring.js:173-212 | pillar 4's read-only question is the transport one, without options |
| ScoringConfig.ShapePillar4 | app/config/scoring.js:173-212 | both shape facts for pillar 4 |
| ScoringConfig.ConfigShape | app/config/scoring.js:33-213 | every question of the configuration has the option and kind shape |
| ScoringConfig.CheckboxesHaveOneYesOption | app/config/scoring.js:44-45 | every checkbox has exactly one option, valued "yes" |
| ScoringConfig.SelectValuesDistinct | app/config/scoring.js:57-61 | within a select question no two options share a value |
| ScoringConfig.FindChoiceUnique | app/components/TransparencyWizard.jsx:100 | with distinct values, looking up an option's value finds that option |
| ScoringConfig.PointsInRange | app/config/scoring.js:45-210 | every option is worth 0 to 5 points |
| ScoringConfig.OnlyReadonlyIsTransport | app/config/scoring.js:186-190 | a question is read-only iff it is `p4_co2_score`, pillar 4's second question, without options |
| ScoringConfig.DynamicLookupsAreTiers | app/config/scoring.js:88-101 | a question is a dynamic lookup iff it is `p2_tier1` (Atelier) or `p2_tier2` (Mill) |
| ScoringConfig.OnlyKnownTypes | app/config/scoring.js:33-213 | only the four known question types occur |
| ScoringConfig.MaterialCertificationsShape | app/config/scoring.js:2-31 | seven materials, each with two certifications worth 3 points |
| ScoringConfig.IdsConcat | app/config/scoring.js:33-213 | the ids of two question lists joined are the two id lists joined |
| ScoringConfig.PillarIds | app/config/scoring.js:33-213 | each pillar's ids are its slice of the nineteen ids in declaration order |
| ScoringConfig.ConfigIds | app/config/scoring.js:33-213 | the ids of the configuration are exactly those nineteen, in order |
| ScoringConfig.ConfigIdsNamePillar | app/config/scoring.js:33-213 | each id's second character names its pillar |
| ScoringConfig.ConfigIdsDistinctWithinPillars | app/config/scoring.js:33-213 | the ids within each pillar differ |
| ScoringConfig.ConfigIdsDistinct | app/config/scoring.js:33-213 | the nineteen ids differ |
| ScoringConfig.DistinctQuestionIds | app/config/scoring.js:33-213 | question ids are unique across the whole configuration |
| JsRuntime.MathRound | app/utils/emissions.js:113 | `Math.round(x)` is the integer within half a unit of `x`, halves rounding up |
| JsRuntime.ToLowerIdempotent | app/utils/emissions.js:61 | lower-casing twice is lower-casing once |
| JsRuntime.TrimShape | app/utils/emissions.js:100 | the trimmed text occurs inside the original and, when non-empty, neither starts nor ends with white space |
| JsRuntime.LastSegmentShape | app/utils/emissions.js:97-98 | `split(", ").pop()` is a suffix of the name with no ", " in it, and the whole name when it has none |
| JsRuntime.NatToStringRoundTrip | app/components/TransparencyWizard.jsx:90 | `parseInt` of `String(n)` gives back `n` for a natural number |
| JsRuntime.JsString | app/routes/app.create-report.jsx:166 | `String(v)` is the string itself, or a non-empty decimal for a number |
| Emissions.EmissionFactor | app/utils/emissions.js:45-54 | the factor per km is always positive |
| Emissions.ModeFactors | app/utils/emissions.js:16-50 | Air 0.60 × 0.0015, Road 0.10 × 0.0015, Sea 0.05 × 0.0015 |
| Emissions.ExplicitModeWins | app/utils/emissions.js:48-50 | a named mode's factor does not depend on the distance |
| Emissions.FallbackByDistance | app/utils/emissions.js:52-53 | with no known mode the factor is Air's iff the distance exceeds 1000 km, else Road's |
| Emissions.DefaultPrimaryIgnoresCase | app/utils/emissions.js:60-63 | the default producer depends on the material only up to case |
| Emissions.ChooseDefaultPrimary | app/utils/emissions.js:60-63 | the chain of `includes` tests picks the default producer, the last match winning |
| Emissions.ResolveLocations | app/utils/emissions.js:65-79 | custom locations win, with fallbacks: the material's default producer, the supplier's mill with coordinates defaulting to 0, Prostějov, Sydney |
| Emissions.Plan | app/utils/emissions.js:82-86 | three legs from the producer to the warehouse, each starting where the previous ended |
| Emissions.PricedLeg | app/utils/emissions.js:101 | a leg goes by Air iff it is international, else by Road |
| Emissions.PricedLegEmissions | app/utils/emissions.js:102-104 | a leg's emissions are distance × the factor of its mode, and are non-negative |
| Emissions.RouteLegShape | app/utils/emissions.js:95-116 | a leg is Air iff its two countries differ after trimming and lower-casing, never Sea; it carries the rounded distance and the names |
| Emissions.RouteLegEmissions | app/utils/emissions.js:102-104 | a priced leg's emissions are distance × the factor of its mode, and are non-negative |
| Emissions.RouteLegs | app/utils/emissions.js:92-117 | one priced leg per planned leg |
| Emissions.RouteLegsAt | app/utils/emissions.js:92-117 | the k-th priced leg is the pricing of the k-th planned leg |
| Emissions.TotalDistance | app/utils/emissions.js:106 | the summed distance is non-negative |
| Emissions.PriceLegs | app/utils/emissions.js:88-117 | the loop returns one leg per planned leg together with the summed distance and emissions |
| Emissions.PriceStep | app/utils/emissions.js:92-117 | one loop iteration appends the leg's pricing and adds its distance and emissions |
| Emissions.CalculateRouteAsWritten | app/utils/emissions.js:92-93 | as written, the route always fails: the distance function it calls is not defined |
| Emissions.CalculateRoute | app/utils/emissions.js:56-125 | the corrected route: resolved locations, three priced legs, the rounded total distance and the summed emissions |
| Emissions.RouteLegsChain | app/utils/emissions.js:82-117 | the legs chain producer → mill → construction → warehouse under their three titles; each is Air iff international; none is Sea |
| Wizard.ReadonlyValue | app/components/TransparencyWizard.jsx:89-91 | a read-only answer given as text is never negative: a string of digits reads as its value, any other text as 0 |
| Wizard.AbsentAnswerScoresZero | app/components/TransparencyWizard.jsx:89-93 | an empty or missing answer scores 0 for every question type |
| Wizard.UnknownTypeScoresZero | app/components/TransparencyWizard.jsx:108 | a question of an unknown type scores 0 |
| Wizard.CheckboxScoresAnyAnswer | app/components/TransparencyWizard.jsx:95-97 | any non-empty checkbox answer, whatever its value, scores the first option's points |
| Wizard.SelectScoresMatchingOption | app/components/TransparencyWizard.jsx:99-102 | a select answer scores the points of the first option stored under exactly that value, else 0 |
| Wizard.DynamicLookupScoresFive | app/components/TransparencyWizard.jsx:104-106 | a non-empty lookup answer scores 5 |
| Wizard.ReadonlyScoresValue | app/components/TransparencyWizard.jsx:89-91 | the transport sub-score counts as its own value |
| Wizard.QuestionScoreRange | app/components/TransparencyWizard.jsx:88-109 | with options worth 0 to 5, every non-read-only question scores 0 to 5 |
| Wizard.PillarScoreCapped | app/components/TransparencyWizard.jsx:116-122 | a pillar scores its raw sum capped at the pillar maximum |
| Wizard.RecomputeScores | app/components/TransparencyWizard.jsx:112-127 | the nested loops compute the live scores: capped pillars and their sum as the total |
| Wizard.ConfigScores | app/components/TransparencyWizard.jsx:113-125 | for the questionnaire, the total is the sum of the four capped pillar scores |
| Wizard.RawScoreConcat | app/components/TransparencyWizard.jsx:117-120 | the raw sum of two question lists laid end to end is the sum of their raw sums |
| Wizard.RawScoreSwap | app/components/TransparencyWizard.jsx:117-120 | swapping two blocks of questions leaves the raw sum unchanged |
| Wizard.RawScoreOrderFree | app/components/TransparencyWizard.jsx:117-120 | any two question lists holding the same questions have the same raw sum: a pillar's score does not depend on question order |
| Wizard.RawScoreNonNegative | app/components/TransparencyWizard.jsx:117-120 | raw sums are non-negative when no read-only answer is negative |
| Wizard.RawScoreOfBlankAnswers | app/components/TransparencyWizard.jsx:117-120 | questions without answers sum to 0 |
| Wizard.ScoresAtMost | app/components/TransparencyWizard.jsx:122-125 | every pillar is at most 25 and the total at most 100 |
| Wizard.ScoresAtLeastZero | app/components/TransparencyWizard.jsx:112-127 | with a non-negative transport sub-score, all five scores are non-negative |
| Wizard.ReadonlyOnlyTransport | app/components/TransparencyWizard.jsx:89-91 | only pillar 4's transport question takes the read-only scoring path |
| Wizard.BlankFormScoresZero | app/components/TransparencyWizard.jsx:112-127 | a form whose fields are all empty scores all zeros |
| Wizard.RawScoreIgnoresKey | app/components/TransparencyWizard.jsx:117-120 | a form key that is no question of the list does not change its raw sum |
| Wizard.PillarIgnoresKey | app/components/TransparencyWizard.jsx:116-122 | the same for a pillar's capped score |
| Wizard.PillarScoresIgnoreKey | app/components/TransparencyWizard.jsx:115-123 | the same for all pillar scores |
| Wizard.LiveScoresIgnoreKey | app/components/TransparencyWizard.jsx:112-127 | the same for the whole scorecard |
| Wizard.KeyOutsidePillar1 | app/config/scoring.js:40-79 | a key outside the nineteen ids is no pillar 1 id |
| Wizard.KeyOutsidePillar2 | app/config/scoring.js:87-120 | the same for pillar 2 |
| Wizard.KeyOutsidePillar3 | app/config/scoring.js:128-165 | the same for pillar 3 |
| Wizard.KeyOutsidePillar4 | app/config/scoring.js:173-212 | the same for pillar 4 |
| Wizard.KeyOutsideConfig | app/config/scoring.js:33-213 | the same for every pillar of the configuration |
| Wizard.ScoresIgnoreOtherKeys | app/components/TransparencyWizard.jsx:112-127 | changing a form field that is not a question (order id, mill, composition, ...) never changes the scores |
| Wizard.BestChoice | app/config/scoring.js:57-61 | the best option of a list is in it and is worth at least every other |
| Wizard.QuestionScoreAtMost | app/components/TransparencyWizard.jsx:88-109 | no answer scores more than the question's attainable maximum |
| Wizard.BestAnswerAttains | app/components/TransparencyWizard.jsx:88-109 | the best answer reaches that maximum |
| Wizard.RawScoreAtMost | app/components/TransparencyWizard.jsx:117-120 | no form's raw sum exceeds the sum of the maxima |
| Wizard.RawScoreOfBest | app/components/TransparencyWizard.jsx:117-120 | the best answers reach the sum of the maxima |
| Wizard.BestAnswersAt | app/components/TransparencyWizard.jsx:118 | the best-answer form holds each question's best answer under its id |
| Wizard.PillarOfBest | app/components/TransparencyWizard.jsx:116-120 | a pillar's raw sum on the best form is its maximum |
| Wizard.MaxPillar1 | app/config/scoring.js:40-79 | pillar 1 can reach at most 21 |
| Wizard.MaxPillar2 | app/config/scoring.js:87-120 | pillar 2 can reach 25 |
| Wizard.MaxPillar3 | app/config/scoring.js:128-165 | pillar 3 can reach at most 20 |
| Wizard.MaxPillar4 | app/config/scoring.js:173-212 | pillar 4 can reach 20 plus the transport sub-score |
| Wizard.RawMaxSteps | app/components/TransparencyWizard.jsx:117-120 | the maximum of four or five questions is the sum of theirs |
| Wizard.SelectMax2 | app/config/scoring.js:200-204 | the best of two options is the larger |
| Wizard.SelectMax3 | app/config/scoring.js:57-61 | the best of three options is one of them and at least each |
| Wizard.SelectMax4 | app/config/scoring.js:143-148 | the best of four options is one of them and at least each |
| Wizard.CapNeverBites | app/components/TransparencyWizard.jsx:122 | with a sub-score of at most 5, no pillar's reachable sum exceeds its cap |
| Wizard.ScoresAtMostMaxima | app/components/TransparencyWizard.jsx:112-127 | live pillar scores are at most 21, 25, 20 and 20 plus the sub-score; the total is at most 91 |
| Wizard.FullMarks | app/components/TransparencyWizard.jsx:112-127 | the best form scores 21, 25, 20, 25, total 91 |
| Wizard.PrimaryLocation | app/components/TransparencyWizard.jsx:216-227 | the producer is the unknown origin iff the material is not one of the seven names, matched case-sensitively |
| Wizard.PrimaryLocationExamples | app/components/TransparencyWizard.jsx:216-227 | "wool" and blends have an unknown origin; the wizard's silk comes from China where the route's comes from Italy |
| Wizard.BuildEmissions | app/components/TransparencyWizard.jsx:236-295 | the three pushes and running sums build the wizard's route |
| Wizard.WizardRouteShape | app/components/TransparencyWizard.jsx:240-295 | the legs go Sea, Road, Air in a chain from the material's origin to the warehouse, with factors 0.000075, 0.00015, 0.0009; the totals are non-negative; the origin is tagged with the material |
| Wizard.ModePoliciesDiffer | app/components/TransparencyWizard.jsx:243-279 | for a domestic last leg, the route function chooses Road where the wizard always chooses Air; the wizard's first leg is Sea, which the route function never produces |
| Wizard.EmissionsFor | app/components/TransparencyWizard.jsx:230-234 | there are no emissions iff the mill, the production or the warehouse is unset |
| Wizard.EmissionsIgnoreCustomPrimary | app/components/TransparencyWizard.jsx:241 | a custom primary location has no effect: the origin always comes from the material |
| Wizard.TransportScore | app/components/TransparencyWizard.jsx:298-302 | 5 iff the rounded distance is below 15000; 2 iff it is from 15000 to below 20000; 0 iff it is 20000 or more |
| Wizard.TransportScoreBands | app/components/TransparencyWizard.jsx:298-302 | the score falls as the distance grows, with band edges at 15000 and 20000 on the rounded distance |
| Wizard.TransportScoreStored | app/components/TransparencyWizard.jsx:304 | the computed score is stored under `p4_co2_score`, where it counts 0 to 5 |
| Wizard.SupplierOptions | app/components/TransparencyWizard.jsx:351-352 | filtering suppliers never gives more options than suppliers |
| Wizard.SupplierOptionsMembers | app/components/TransparencyWizard.jsx:351-352 | an option is listed iff a supplier of that type has that name and id |
| Wizard.SupplierListsShape | app/components/TransparencyWizard.jsx:351-352 | the mill and atelier lists start with an empty placeholder, followed by exactly the suppliers of that type |
| Wizard.CollectionList | app/components/TransparencyWizard.jsx:353 | one option per collection, with its bunch name and id, in order |
| Wizard.CollectionOptions | app/components/TransparencyWizard.jsx:353 | the placeholder, then one option per collection |
| Wizard.ChoiceOptions | app/components/TransparencyWizard.jsx:581 | a select offers its options' captions and values in order |
| Wizard.TierOptions | app/components/TransparencyWizard.jsx:565-566 | tier 1 offers the ateliers and tier 2 the mills |
| Wizard.ToggleCheckbox | app/components/TransparencyWizard.jsx:590-602 | ticking stores the option's value and unticking stores ""; the box then reads as ticked iff it was ticked, and scores accordingly |
| Wizard.UncheckedButScored | app/components/TransparencyWizard.jsx:95-97 | a checkbox holding any other non-empty value shows as unticked but still scores its points |
| Wizard.FindSupplier | app/components/TransparencyWizard.jsx:135 | the supplier found has the id; none is found iff no supplier has it |
| Wizard.MillPrefillAt | app/components/TransparencyWizard.jsx:130-151 | choosing a mill sets `mill_id` and clears the collection, then sets the certificates, then overlays the mill's sustainability data; other fields keep their values |
| Wizard.PrefilledCertificatesScore | app/components/TransparencyWizard.jsx:146-151 | the pre-filled Woolmark and RWS answers score 3 each iff the mill holds that certificate |
| Wizard.ClearingMillKeepsScores | app/components/TransparencyWizard.jsx:130-183 | clearing the mill changes no score |
| Wizard.NotAQuestion | app/components/TransparencyWizard.jsx:36-45 | none of the form's eight initial fields is a question id |
| Wizard.WizardState.constructor | app/components/TransparencyWizard.jsx:36-72 | the initial state: empty form, zero scores, "Wool", Prostějov and Sydney preset, no emissions, no collections |
| Wizard.WizardState.Rescore | app/components/TransparencyWizard.jsx:112-127 | the scores become the live scores of the form |
| Wizard.WizardState.CalculateEmissions | app/components/TransparencyWizard.jsx:230-306 | the emissions become the route of the current locations, and the transport sub-score is stored when there is one |
| Wizard.WizardState.HandleInputChange | app/components/TransparencyWizard.jsx:342-344 | sets one field and keeps scores and emissions in step |
| Wizard.WizardState.SetChecked | app/components/TransparencyWizard.jsx:596 | stores the checkbox's value or "" |
| Wizard.WizardState.SetMaterial | app/components/TransparencyWizard.jsx:306-311 | a new material recomputes the emissions and the sub-score; the same material changes nothing |
| Wizard.WizardState.SetLocation | app/components/TransparencyWizard.jsx:198-206 | a geocoded location replaces one custom location and recomputes the emissions |
| Wizard.WizardState.HandleMillChange | app/components/TransparencyWizard.jsx:130-183 | pre-fills the form, moves the mill to the supplier's location, and loads or clears the collections |
| Wizard.WizardState.PrefillFromMill | app/components/TransparencyWizard.jsx:133-168 | the pre-fill and the mill location for a known supplier |
| Wizard.WizardState.Submit | app/components/TransparencyWizard.jsx:346-349 | the submission keeps every answer and sets the composition to the material |
| Wizard.ConfigIdsAreNotComposition | app/components/TransparencyWizard.jsx:348 | overriding the composition leaves every answer intact |
| CreateReport.CollectAnswerRows | app/routes/app.create-report.jsx:148-171 | the nested loops produce exactly the answer rows, pillar after pillar |
| CreateReport.StoredPoints | app/routes/app.create-report.jsx:155-161 | the points computed inside the loop: an option's points for a checkbox or select answer stored under exactly its value, 5 for a lookup, else 0 |
| CreateReport.QuestionRowsMembers | app/routes/app.create-report.jsx:150-170 | a row is produced iff its question has a non-empty answer, and it carries `String(answer)` and the stored points |
| CreateReport.QuestionRowsConcat | app/routes/app.create-report.jsx:149-150 | the rows of two question lists joined are the two row lists joined |
| CreateReport.ReportRowsInOrder | app/routes/app.create-report.jsx:149-150 | the rows follow the questions in pillar-then-question order |
| CreateReport.ReportRowsMembers | app/routes/app.create-report.jsx:148-171 | a row is saved iff its question is answered; every row carries the report id |
| CreateReport.PersistedDiffersFromLive | app/routes/app.create-report.jsx:156-161 | instances in the questionnaire: `p1_rsl` answered "no" scores 5 live but is stored as 0; the transport sub-score scores 5 live but is stored as 0 |
| CreateReport.CheckboxPersistsOnlyItsValue | app/routes/app.create-report.jsx:156-161 | for every single-option checkbox and every truthy answer other than its option's value: worth the option's points live, 0 once stored |
| CreateReport.ReadonlyPersistsZero | app/routes/app.create-report.jsx:156-161 | a read-only answer is always stored as 0 points |
| CreateReport.PersistedAgreesWithLive | app/routes/app.create-report.jsx:156-161 | stored and live points agree for every select, every lookup, and a checkbox holding its option's value |
| CreateReport.PersistedPointsRange | app/routes/app.create-report.jsx:156-161 | stored points are 0 to 5 when the options are |
| CreateReport.FieldOr | app/routes/app.create-report.jsx:119-126 | `field \|\| fallback` keeps a non-empty field and otherwise gives the fallback |
| CreateReport.BindValuesShape | app/routes/app.create-report.jsx:117-145 | seventeen values in column order; each text field is bound as given when truthy, else falls back to "UNKNOWN", "KAD-UNKNOWN" or NULL; the five scores are bound as given, a missing one as 0; the emissions are their JSON text when present, else NULL; the PDF key is "N/A"; the URL is the passport path |
| CreateReport.Action | app/routes/app.create-report.jsx:104-216 | a `submit_report` saves the report row and the answer rows, batches the inserts only when there are rows, and returns the passport URL; any other intent is a 400 "Invalid intent" |
| CreateReport.BatchWhenAnswered | app/routes/app.create-report.jsx:173-179 | the batch insert runs iff some question of the questionnaire is answered |
| PassportHtml.AnswerTextCases | app/components/TransparencyPassportHTML.jsx:10-21 | empty reads "N/A"; a checkbox reads "Yes" iff the answer is "yes", else "No"; a select reads the option's caption or the raw value; a lookup reads "Verified"; other types read the raw value |
| PassportHtml.NotVerifiedUnreachable | app/components/TransparencyPassportHTML.jsx:11-19 | a lookup never reads "Not Verified" |
| PassportHtml.SelectShowsCaption | app/components/TransparencyPassportHTML.jsx:13-16 | a saved select value reads as its option's caption |
| PassportHtml.NumberIsNotYes | app/components/TransparencyPassportHTML.jsx:12 | a number's text is never "yes" |
| PassportHtml.SavedAnswerText | app/components/TransparencyPassportHTML.jsx:10-21 | a saved answer never takes the "N/A" branch; a checkbox reads "Yes" iff "yes" was saved; a lookup reads "Verified"; the sub-score reads its digits |
| PassportHtml.FindAnswer | app/components/TransparencyPassportHTML.jsx:350 | finds the first row with the question's id; finds none iff no row has that id |
| PassportHtml.DetailsRow | app/components/TransparencyPassportHTML.jsx:349-356 | a question's row shows its caption, then "-" and 0 without an answer, or the answer's text and awarded points |
| PassportHtml.DetailsPage | app/components/TransparencyPassportHTML.jsx:326-364 | the details page exists iff there are answer rows; one block per pillar, with one row per question |
| PassportHtml.SameIdSameQuestion | app/config/scoring.js:33-213 | with distinct ids, two questions with the same id are the same question |
| PassportHtml.DetailsShowSavedAnswer | app/components/TransparencyPassportHTML.jsx:349-356 | for the rows the report saved, each question shows the text and points saved for it, or "-" and 0 when unanswered |
| PassportHtml.ConfigDetailsShowSavedAnswer | app/components/TransparencyPassportHTML.jsx:349-356 | the same for the questionnaire |
| PassportHtml.BarWidthBounds | app/components/TransparencyPassportHTML.jsx:256 | a score from 0 to 25 fills 0 to 100 % of its bar; the bar is full iff the score is 25; it grows with the score |
| PassportPdf.AnswerTextAgrees | app/components/TransparencyPassportPDF.jsx:217-228 | the printable passport's answer text equals the web passport's for every question and answer |
| PassportPdf.DetailsRow | app/components/TransparencyPassportPDF.jsx:371-378 | a printable row shows "-" and 0 without an answer, else the answer's text and points |
| PassportPdf.DetailsPage | app/components/TransparencyPassportPDF.jsx:354-383 | the printable details page exists iff there are answer rows, with a block per pillar |
| PassportPdf.DetailsRowAgrees | app/components/TransparencyPassportPDF.jsx:371-378 | each printable row equals the web row |
| PassportPdf.DetailsPageAgrees | app/components/TransparencyPassportPDF.jsx:354-383 | the printable details page equals the web one |

## Left out

- The haversine formula (`app/utils/emissions.js:23-43`) is left out because it is trigonometry on floating point. Distances are a parameter, with non-negative results.
- `toFixed(2)` is not modelled: emissions are exact reals, and JavaScript number rounding in general is not modelled.
- Integers are unbounded; JavaScript's 53-bit number limit is not modelled.
- React itself is left out: rendering, `useState` batching, `useCallback` and effect scheduling. Each handler runs the effects it triggers (rescoring, recomputing emissions) inline.
- The handlers' `async` ordering is left out. So is the loading flag of collections. A failed collection fetch is modelled only as `None`.
- The geocoding handler's `fetch` and `alert` are left out. Only a successful geocode is modelled, as `WizardState.SetLocation`.
- The effects that sync `locationInputs` are left out: they change text fields only, never scores or emissions.
- The line-item picker and the material combobox options are left out. The picker only copies Shopify order fields into the form.
- `parseInt` of a read-only answer given as text is modelled only for plain digit strings. Any other text reads as 0 in the model, where JavaScript would parse a prefix or give NaN. The wizard only ever stores a number there.
- `Emissions.MillFromSupplier` maps a missing supplier latitude or longitude to 0, as the route function does. The wizard's mill pre-fill copies the raw value instead, so a missing coordinate would become NaN downstream. The model uses 0.
- `JSON.parse` of a mill's sustainability data is left out: that data is given as an already parsed map, and a parse failure as an empty one.
- Sustainability values that are JSON booleans, fractions, `null`, arrays or objects are not representable: `Value` holds only strings and integers. The source would still spread them into the form. For example, a JSON `true` under a checkbox id scores the option's points live, is stored as the text "true" with 0 points, and reads "No" on the passports. The `JSON.stringify` of the emissions is likewise given as text.
- Emissions.MillFromSupplier: supplier fields are strings, and a missing `country` or `mill_location` reads as "". In the source, a supplier with neither gives the mill the name `undefined`. When no custom mill is set, the corrected route then throws a TypeError at `leg.to.name.split(", ")` (`app/utils/emissions.js:98`). The model instead returns a route whose mill country is "".
- JavaScript's Unicode-aware `toLowerCase` and `trim` are modelled on ASCII letters and ASCII white space only.
- Database access, the Shopify metafield mutation, authentication, mock mode, `crypto.randomUUID` and the loader are left out. The report id is a parameter, and the writes are returned as values.
- The scorecard and journey sections of the passports are left out (only the bar widths are modelled), as are the layout, the styles and `formatDate`.
- `renderQuestion`'s error flag is left out: it changes only how a field is displayed.

## Findings

| source | as written | input that shows it | evidently intended | confidence | as-written member | corrected member |
|---|---|---|---|---|---|---|
| app/utils/emissions.js:93 | `calculateRoute` calls `getDistanceFromLatLonInKm`, which is defined nowhere, so every call throws a ReferenceError at its first leg | any material, supplier and custom locations | measure each leg with `haversineDistance` from the same file (lines 23-39) | high, not executed | Emissions.CalculateRouteAsWritten | Emissions.CalculateRoute |
