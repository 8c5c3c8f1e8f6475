# Medical guideline evaluation and client health reports

This project is a Dafny model of the decision logic of the MedicalData service.
The service rates a client's bloodwork and questionnaire answers against
three-tier medical guidelines (Optimal, Needs Attention, Serious Issue) and
collects the ratings in a client health report.

The model covers two parts of the program:

- `HealthEvaluator` (`MedicalData/Domain/HealthEvaluator.cs`). This is pure code, modelled as functions with lemmas.
  - The range-specification grammar `ParseAndCheckRange` accepts `<=N`, `<N`, `>=N`, `>N`, `min-max` and an exact `N`.
  - The numeric classifier `EvaluateMetric` picks the most benign matching tier.
  - The blood-pressure classifier `EvaluateBloodPressure` / `ParseAndCheckBpRange` picks the most severe matching tier. Serious Issue needs either reading to match; the other tiers need both.
  - The free-text classifier `EvaluateQualitative` / `GetKeyword` works by keyword: nine canonical phrases, else the first three words, matched ignoring case.
  - The constructor's null guard is modelled as well.
- The report assembly of `ReportController.GenerateClientReport` (`MedicalData/Controllers/ReportController.cs`, lines 65-150). This is imperative code.
  - `ClientHealthReport` is a class whose two dictionaries are `map` fields.
  - The method `GenerateClientReport` fills them step by step, exactly as the controller does.
  - Its postcondition ties the final dictionaries to the specification functions `HealthMetricsFor` and `QualitativeMetricsFor`.
  - Lemmas state the key sets, the entry values and the rendered guideline ranges of those functions.

Modules, one file each:

| file | module | content |
|---|---|---|
| `wrappers.dfy` | `Wrappers` | `Option`, null strings in concatenation |
| `text.dfy` | `Text` | `char.IsWhiteSpace`, `IsNullOrWhiteSpace`, `Trim`, ordinal `StartsWith`/`Contains`, case-insensitive `Contains`, `Split`, `Join`, `Take` |
| `numbers.dfy` | `Numbers` | a decimal reader standing in for `double.TryParse`, and `int.ToString()` |
| `models.dfy` | `Models` | the guideline, client and report-entry records |
| `range_parser.dfy` | `RangeParser` | `ParseAndCheckRange` and its grammar |
| `keyword_matcher.dfy` | `KeywordMatcher` | `GetKeyword` |
| `health_evaluator.dfy` | `HealthEvaluation` | the evaluator's rating operations |
| `report_assembly.dfy` | `ReportAssembly` | `ClientHealthReport` and `GenerateClientReport` |
| `scenarios.dfy` | `Scenarios` | worked cases on concrete guidelines |

Statuses are the datatype `HealthEvaluation.Status`, and `Label` gives the exact strings the program returns. `LabelInjective` shows that no two statuses share a string.

An interval `min-max` is split at every hyphen (`HealthEvaluator.cs:72`) and needs exactly two pieces, so a specification with a negative bound (`-5-10`) or a leading hyphen (`-5`) never matches (`RangeParser.LeadingHyphenNeverMatches`, `RangeParser.IntervalForm`).

## Model

| member | source | states |
|---|---|---|
| `HealthEvaluation.NewHealthEvaluator` | MedicalData/Domain/HealthEvaluator.cs:9-12 | an evaluator exists exactly when the guidelines are not null, and it holds those guidelines |
| `HealthEvaluation.Label` | MedicalData/Domain/HealthEvaluator.cs:16-45 | the exact status strings the evaluator returns; no ensures of its own, and `LabelInjective` proves that no two statuses share a string |
| `HealthEvaluation.LabelInjective` | MedicalData/Domain/HealthEvaluator.cs:14-46 | the status strings the evaluator returns are pairwise distinct, so a report's text determines the status |
| `HealthEvaluation.EvaluateMetric` | MedicalData/Domain/HealthEvaluator.cs:14-23 | "Guideline Missing" iff no guideline; otherwise Optimal iff the Optimal range matches, Needs Attention iff Optimal does not match and Needs Attention does, Serious Issue iff only the Serious Issue range matches among the first three tried, "Value Out of Defined Ranges" iff none matches |
| `HealthEvaluation.MetricMostBenign` | MedicalData/Domain/HealthEvaluator.cs:18-20 | whenever some tier's range holds the value, the value is rated at that tier or a more benign one (overlaps resolve benign) |
| `HealthEvaluation.ThreeBandMatches` | MedicalData/Domain/HealthEvaluator.cs:48-83 | in a guideline `<lo`, `lo-hi`, `>=hi+1` the Optimal range holds iff value < lo, Needs Attention iff lo <= value <= hi, Serious Issue iff value >= hi+1 |
| `HealthEvaluation.ThreeBandMetric` | MedicalData/Domain/HealthEvaluator.cs:14-23 | for a guideline `<lo`, `lo-hi`, `>=hi+1` the rating is Optimal below `lo`, Needs Attention on `[lo, hi]`, Serious Issue from `hi+1`, and out of range strictly between `hi` and `hi+1` |
| `HealthEvaluation.ParseAndCheckBpRange` | MedicalData/Domain/HealthEvaluator.cs:85-111 | a blank systolic or diastolic specification never matches; the Serious Issue tier matches iff the systolic OR the diastolic range matches; the other tiers match iff both match |
| `HealthEvaluation.EvaluateBloodPressure` | MedicalData/Domain/HealthEvaluator.cs:25-34 | "Guideline Missing" iff no guideline; Serious Issue iff that tier matches; Needs Attention iff Serious Issue does not and Needs Attention does; Optimal iff only Optimal matches; "BP Out of Defined Ranges" iff no tier matches |
| `HealthEvaluation.BloodPressureMostSevere` | MedicalData/Domain/HealthEvaluator.cs:29-31 | whenever some tier matches the reading, the reading is rated at that tier or a more severe one |
| `HealthEvaluation.BoundNotBlank` | MedicalData/Domain/HealthEvaluator.cs:87 | a specification made of an operator and an integer passes the blank-range guard |
| `HealthEvaluation.SeriousWhenEitherReadingHigh` | MedicalData/Domain/HealthEvaluator.cs:105-109 | with Serious Issue `S: >=a, D: >=b`, a reading is a serious issue iff systolic >= a or diastolic >= b |
| `HealthEvaluation.OptimalNeedsBothReadingsLow` | MedicalData/Domain/HealthEvaluator.cs:93-97 | with Optimal `S: <a, D: <b`, an optimal reading has both values below their bounds; when the severer tiers do not match it is optimal iff both are below |
| `HealthEvaluation.SeriousRangeEitherHigh` | MedicalData/Domain/HealthEvaluator.cs:105-109 | the Serious Issue tier `S: >=a, D: >=b` matches a reading iff systolic >= a or diastolic >= b |
| `HealthEvaluation.OptimalRangeBothLow` | MedicalData/Domain/HealthEvaluator.cs:93-97 | the Optimal tier `S: <a, D: <b` matches a reading iff systolic < a and diastolic < b |
| `HealthEvaluation.EvaluateQualitative` | MedicalData/Domain/HealthEvaluator.cs:36-46 | the null-guideline check comes first, then a null or blank answer gives "Client Value Missing"; otherwise the first present tier, most benign first, whose keyword the answer contains ignoring case wins, and "Qualitative Value Uncategorized" iff none does |
| `HealthEvaluation.QualitativeMostBenign` | MedicalData/Domain/HealthEvaluator.cs:41-43 | an answer that mentions some present tier's keyword is rated at that tier or a more benign one |
| `HealthEvaluation.BlankDescriptionMatchesEveryAnswer` | MedicalData/Domain/HealthEvaluator.cs:41-43 | a tier with a blank description has the empty keyword and so catches every non-blank answer not caught by a more benign tier |
| `HealthEvaluation.EchoedDescription` | MedicalData/Domain/HealthEvaluator.cs:41-43 | an answer that repeats a tier's non-blank description is rated at that tier or a more benign one |
| `RangeParser.ParseAndCheckRange` | MedicalData/Domain/HealthEvaluator.cs:48-83 | the range check on a nullable specification; no ensures of its own: `BlankAndTrim` and `CheckTrimmed` give the blank guard and trimming, `OperatorForm`, `IntervalForm` and `ExactForm` each form of the grammar, `NoOperatorSpec` which form is chosen |
| `RangeParser.CheckSpec` | MedicalData/Domain/HealthEvaluator.cs:54-82 | the range check on a trimmed, non-blank specification, trying `<=`, `<`, `>=`, `>`, then `-`, then an exact value; no ensures of its own, specified by `OperatorSpec` and `NoOperatorSpec` |
| `RangeParser.CheckLimit` | MedicalData/Domain/HealthEvaluator.cs:54-69 | an operator with its operand: false when the operand does not parse, else the comparison; no ensures of its own, specified by `OperatorForm` and `BoundForm` |
| `RangeParser.CheckInterval` | MedicalData/Domain/HealthEvaluator.cs:70-77 | split at every `-`, exactly two parsed pieces, inclusive bounds; no ensures of its own, specified by `IntervalForm`, `NaturalInterval` and `LeadingHyphenNeverMatches` |
| `RangeParser.CheckExact` | MedicalData/Domain/HealthEvaluator.cs:78-80 | equality with the parsed number, false when it does not parse; no ensures of its own, specified by `ExactForm` |
| `RangeParser.CheckTrimmed` | MedicalData/Domain/HealthEvaluator.cs:50-52 | a present specification matches exactly as its trimmed text does, and never when that text is empty |
| `RangeParser.BlankAndTrim` | MedicalData/Domain/HealthEvaluator.cs:50-52 | a null or blank specification never matches, and trimming a specification first does not change what it matches |
| `RangeParser.OperatorForm` | MedicalData/Domain/HealthEvaluator.cs:54-69 | `<=N`, `<N`, `>=N`, `>N` (with `<=`, `>=` recognised first) match iff the rest parses to N and value <=, <, >=, > N; an unparsable rest never matches |
| `RangeParser.NoOperatorSpec` | MedicalData/Domain/HealthEvaluator.cs:70-81 | a specification not starting with `<` or `>` is read as an interval when it holds a `-` and as an exact value otherwise |
| `RangeParser.IntervalForm` | MedicalData/Domain/HealthEvaluator.cs:70-77 | an interval matches iff splitting at every `-` gives exactly two numbers with min <= value <= max, so a match needs exactly one `-` |
| `RangeParser.LeadingHyphenNeverMatches` | MedicalData/Domain/HealthEvaluator.cs:70-77 | a specification starting with `-` (such as `-5` or `-5-10`) never matches |
| `RangeParser.ExactForm` | MedicalData/Domain/HealthEvaluator.cs:78-80 | a specification without operator or `-` matches iff it parses to exactly the value |
| `RangeParser.IntegerBounds` | MedicalData/Domain/HealthEvaluator.cs:54-69 | an operator followed by a rendered integer means the arithmetic comparison it spells |
| `RangeParser.BoundForm` | MedicalData/Domain/HealthEvaluator.cs:54-69 | one operator followed by a rendered integer n matches iff the value compares to n by that operator |
| `RangeParser.NaturalInterval` | MedicalData/Domain/HealthEvaluator.cs:70-77 | `lo-hi` with natural bounds matches iff lo <= value <= hi; so an interval with lo > hi matches nothing |
| `KeywordMatcher.GetKeyword` | MedicalData/Domain/HealthEvaluator.cs:114-127 | the keyword of a tier description; no ensures of its own: `BlankKeyword` gives the empty keyword for a blank description, `KeywordIsFirstKnownPhrase` the first canonical phrase mentioned, `KeywordFallsBackToFirstWords` the three-piece fallback, `KeywordOccursInDescription` that the keyword occurs in the description |
| `KeywordMatcher.FirstWords` | MedicalData/Domain/HealthEvaluator.cs:126 | `string.Join(" ", description.Split(' ').Take(3))`; no ensures of its own, specified by `FirstWordsPrefix` |
| `KeywordMatcher.FirstKnownPhrase` | MedicalData/Domain/HealthEvaluator.cs:118-126 | the result is the index of the first canonical phrase, in table order, that the description contains ignoring case, or the table size when there is none |
| `KeywordMatcher.BlankKeyword` | MedicalData/Domain/HealthEvaluator.cs:116 | a blank description has the empty keyword, which every answer contains |
| `KeywordMatcher.KeywordIsFirstKnownPhrase` | MedicalData/Domain/HealthEvaluator.cs:118-126 | a description mentioning canonical phrases has as keyword the first of them in table order |
| `KeywordMatcher.KeywordFallsBackToFirstWords` | MedicalData/Domain/HealthEvaluator.cs:126 | otherwise the keyword is the first three space-separated pieces: a prefix of the description ending at its end or before a space, with at most two spaces |
| `KeywordMatcher.FirstWordsPrefix` | MedicalData/Domain/HealthEvaluator.cs:126 | the first three pieces joined back are a prefix ending at a space boundary with at most two spaces |
| `KeywordMatcher.KeywordOccursInDescription` | MedicalData/Domain/HealthEvaluator.cs:114-127 | a non-blank description contains its own keyword, ignoring case |
| `KeywordMatcher.PrefixContainedIgnoringCase` | MedicalData/Domain/HealthEvaluator.cs:126 | a prefix of a string is contained in it ignoring case |
| `Text.TrimProperties` | MedicalData/Domain/HealthEvaluator.cs:50-52 | trimming is idempotent, and a string trims to nothing exactly when it is blank |
| `Text.ContainsIffOccurs` | MedicalData/Domain/HealthEvaluator.cs:41-43 | ordinal containment holds exactly when the substring occurs at some offset |
| `Text.SplitCount` | MedicalData/Domain/HealthEvaluator.cs:72-73 | splitting at a character gives one piece more than the character's occurrences |
| `Text.JoinSplit` | MedicalData/Domain/HealthEvaluator.cs:72 | joining the pieces of a split with the separator gives back the string |
| `Text.SplitJoin` | MedicalData/Domain/HealthEvaluator.cs:72 | splitting a join of separator-free pieces gives back the pieces |
| `Text.TakeSplitPrefix` | MedicalData/Domain/HealthEvaluator.cs:126 | the first n pieces of a split, joined back, are a prefix ending at a separator or at the end, holding min(n, pieces) - 1 separators |
| `Numbers.ParseNumber` | MedicalData/Domain/HealthEvaluator.cs:56-78 | the stand-in for `double.TryParse`; no ensures of its own: `ParseNumberBlank` shows white space alone does not parse, `ParseIntToString` that every rendered integer reads back as itself |
| `Numbers.IntToString` | MedicalData/Controllers/ReportController.cs:128 | `int.ToString()`; no ensures of its own, specified by `ParseIntToString` and `IntToStringShape` |
| `Numbers.ParseIntToString` | MedicalData/Controllers/ReportController.cs:128 | the decimal rendering of any integer reads back as that integer |
| `Numbers.ParseNumberBlank` | MedicalData/Domain/HealthEvaluator.cs:73 | an empty or white-space string is not a number |
| `Scenarios.CholesterolTotalScenario` | MedicalData/Domain/HealthEvaluator.cs:14-23 | total cholesterol 250 against `<200`, `200-239`, `>=240` is a Serious Issue |
| `Scenarios.CholesterolGapScenario` | MedicalData/Domain/HealthEvaluator.cs:14-23 | 239.5 against the same guideline falls between the tiers and is out of defined ranges |
| `Scenarios.MissingGuidelineScenario` | MedicalData/Domain/HealthEvaluator.cs:16-22 | no guideline gives "Guideline Missing", while a guideline whose ranges all miss gives "Value Out of Defined Ranges" |
| `Scenarios.SystolicAloneScenario` | MedicalData/Domain/HealthEvaluator.cs:105-109 | 130/70 against Serious Issue `S: >=130, D: >=80` is a serious issue |
| `Scenarios.DiastolicBlocksOptimalScenario` | MedicalData/Domain/HealthEvaluator.cs:93-97 | 118/85 against Optimal `S: <120, D: <80` is not optimal |
| `Scenarios.RestfulSleepKeyword` | MedicalData/Domain/HealthEvaluator.cs:118 | any description that starts with "restful sleep" has "restful sleep" as its keyword |
| `Scenarios.RestfulSleepScenario` | MedicalData/Domain/HealthEvaluator.cs:41 | any answer that says "RESTFUL SLEEP" is Optimal against the description "restful sleep nightly": the keyword is matched ignoring case |
| `Text.ContainsIgnoreCaseInfix` | MedicalData/Domain/HealthEvaluator.cs:41-43 | a string contains, ignoring case, any piece of it and anything that folds to the same lower case |
| `ReportAssembly.ClientHealthReport.constructor` | MedicalData/Controllers/ReportController.cs:67-73 | the id and name are copied, both dictionaries start empty, the overall assessment is null |
| `ReportAssembly.ClientHealthReport.SetHealthMetric` | MedicalData/Controllers/ReportController.cs:77 | one numeric entry is added or replaced, and nothing else of the report changes |
| `ReportAssembly.ClientHealthReport.SetQualitativeMetric` | MedicalData/Controllers/ReportController.cs:126 | one questionnaire entry is added or replaced, and nothing else of the report changes |
| `ReportAssembly.GuidelinesCover` | MedicalData/Controllers/ReportController.cs:75-150 | the guideline sections the report dereferences for this client are present, the condition under which the controller does not throw; a precondition, with no ensures of its own |
| `ReportAssembly.TierSummary` | MedicalData/Controllers/ReportController.cs:81 | three tiers joined by `/`, null as empty; no ensures of its own, specified by `TierSummaryRoundTrip` |
| `ReportAssembly.TierText` | MedicalData/Controllers/ReportController.cs:118-120 | one tier rendered `Name (S:…, D:…)`; no ensures of its own, specified by `TierTextShowsSpecs` |
| `ReportAssembly.BloodPressureRangeText` | MedicalData/Controllers/ReportController.cs:118-120 | the three tiers rendered and joined by ` / `; no ensures of its own, specified by `BloodPressureRangeShowsEverySpec` |
| `ReportAssembly.TierSummaryRoundTrip` | MedicalData/Controllers/ReportController.cs:81 | a range rendered as `Optimal/NeedsAttention/SeriousIssue`, null tiers as empty, splits back at `/` into the three tiers when none holds a `/` |
| `ReportAssembly.TierTextShowsSpecs` | MedicalData/Controllers/ReportController.cs:118-120 | one tier's `Name (S:…, D:…)` rendering shows both of its specifications |
| `ReportAssembly.BloodPressureRangeShowsEverySpec` | MedicalData/Controllers/ReportController.cs:118-120 | the rendered blood-pressure range shows the systolic and diastolic specification of every tier |
| `ReportAssembly.MetricEntry` | MedicalData/Controllers/ReportController.cs:77-82 | a numeric entry holds the client's value, the evaluator's `EvaluateMetric` rating of it against the guideline (which is never "Guideline Missing"), and the guideline's tiers joined by `/` |
| `ReportAssembly.BloodPressureEntry` | MedicalData/Controllers/ReportController.cs:109-121 | the blood-pressure entry shows the systolic reading only, its status is the evaluator's `EvaluateBloodPressure` rating of both readings against its own guideline (never "Guideline Missing"), and its range is the three-tier template |
| `ReportAssembly.ExerciseEntry` | MedicalData/Controllers/ReportController.cs:126-131 | the exercise minutes are stored as a decimal string that reads back as the minutes, and rated numerically: the status is `EvaluateMetric`'s rating of the minutes against the exercise guideline, never "Guideline Missing" |
| `ReportAssembly.AnswerEntry` | MedicalData/Controllers/ReportController.cs:132-149 | a free-text entry holds the answer as given, its status is `EvaluateQualitative`'s rating of it against the guideline, that status is "Client Value Missing" exactly when the answer is null or blank, and it is never "Guideline Missing" |
| `ReportAssembly.HealthMetricsFor` | MedicalData/Controllers/ReportController.cs:75-122 | the numeric dictionary the report ends with; no ensures of its own: `HealthMetricKeys` gives its keys, `CholesterolValues`, `BloodSugarValue` and `BloodPressureValue` its entries, `NoMissingHealthGuideline` its statuses |
| `ReportAssembly.WithCholesterol` | MedicalData/Controllers/ReportController.cs:75-95 | the dictionary so far plus the three cholesterol entries when there is cholesterol; the specification of `AddCholesterol` |
| `ReportAssembly.WithBloodSugar` | MedicalData/Controllers/ReportController.cs:97-105 | the dictionary so far plus the blood-sugar entry when there is bloodwork; the specification of `AddBloodSugar` |
| `ReportAssembly.WithBloodPressure` | MedicalData/Controllers/ReportController.cs:107-122 | the dictionary so far plus the blood-pressure entry when there is a reading; the specification of `AddBloodPressure`, and `LaterLayersKeep` shows it and `WithBloodSugar` leave other keys alone |
| `ReportAssembly.QualitativeMetricsFor` | MedicalData/Controllers/ReportController.cs:124-150 | the questionnaire dictionary the report ends with; no ensures of its own: `QualitativeMetricKeys` gives its keys, `ExerciseValue` and `AnswerValues` its entries, `NoMissingQualitativeGuideline` its statuses |
| `ReportAssembly.HealthMetricKeys` | MedicalData/Controllers/ReportController.cs:75-122 | the numeric keys are among the five names; the three cholesterol keys are present iff cholesterol is, BloodSugar iff bloodwork is, BloodPressure iff a reading is |
| `ReportAssembly.CholesterolValues` | MedicalData/Controllers/ReportController.cs:75-95 | with cholesterol present, each of the three cholesterol entries holds its own field, the evaluator's rating of it against the matching guideline, and that guideline's rendered range |
| `ReportAssembly.BloodSugarValue` | MedicalData/Controllers/ReportController.cs:97-105 | with bloodwork present, the blood-sugar entry holds the reading, its rating against the blood-sugar guideline and that guideline's rendered range |
| `ReportAssembly.BloodPressureValue` | MedicalData/Controllers/ReportController.cs:107-122 | with a reading present, the blood-pressure entry shows the systolic value only, is rated on both values against the blood-pressure guideline, and renders its three tiers |
| `ReportAssembly.QualitativeMetricKeys` | MedicalData/Controllers/ReportController.cs:124-150 | the questionnaire keys are exactly the four names when there is a questionnaire, and none otherwise |
| `ReportAssembly.ExerciseValue` | MedicalData/Controllers/ReportController.cs:126-131 | with a questionnaire present, the exercise entry holds the minutes as a decimal string that reads back as the minutes, is rated numerically against the exercise guideline, and renders its tiers |
| `ReportAssembly.AnswerValues` | MedicalData/Controllers/ReportController.cs:132-149 | with a questionnaire present, each free-text entry holds its answer as given, rated by keyword against its guideline, whose tiers it renders |
| `ReportAssembly.NoMissingHealthGuideline` | MedicalData/Controllers/ReportController.cs:75-122 | when every guideline section the report reads is present, no numeric entry says "Guideline Missing" |
| `ReportAssembly.NoMissingQualitativeGuideline` | MedicalData/Controllers/ReportController.cs:124-150 | when every guideline section the report reads is present, no questionnaire entry says "Guideline Missing" |
| `ReportAssembly.EmptyWithoutMedicalData` | MedicalData/Controllers/ReportController.cs:75-150 | a client without medical data gets both dictionaries empty |
| `ReportAssembly.AddCholesterol` | MedicalData/Controllers/ReportController.cs:75-95 | with cholesterol present, the three cholesterol entries are added to the numeric dictionary; nothing else of the report changes |
| `ReportAssembly.AddBloodSugar` | MedicalData/Controllers/ReportController.cs:97-105 | with bloodwork present, the blood-sugar entry is added; nothing else of the report changes |
| `ReportAssembly.AddBloodPressure` | MedicalData/Controllers/ReportController.cs:107-122 | with a reading present, the blood-pressure entry rated by the evaluator passed in, which holds these guidelines, is added; nothing else changes |
| `ReportAssembly.AddQuestionnaire` | MedicalData/Controllers/ReportController.cs:124-150 | with a questionnaire present, the four questionnaire entries are added to the empty questionnaire dictionary; the numeric dictionary and the rest of the report are unchanged |
| `ReportAssembly.GenerateClientReport` | MedicalData/Controllers/ReportController.cs:65-150 | one evaluator is built from the guidelines (`NewHealthEvaluator`, line 65); the report is new, copies the client's id and name, leaves the assessment null, and ends with exactly the dictionaries `HealthMetricsFor` and `QualitativeMetricsFor` describe |

## Left out

- The HTTP fetch of the client and guidelines, JSON deserialisation, the 404/500 results and logging (`ReportController.cs:38-63, 152-153`) are network I/O. The model starts from a client and guidelines already in hand.
- `Program.cs`, the client and guideline controllers and the repositories hold framework wiring, HTTP routing and file loading, with no decision logic. They are not part of this model.
- `double.TryParse` is replaced by a simple exact decimal reader: surrounding white space, an optional sign, and digits with an optional fraction. Culture-specific separators, exponents, `NaN`, `Infinity` and IEEE rounding are not modelled. Values are `real`; blood-pressure readings, blood sugar and exercise minutes are `int`.
- `int` is unbounded in the model. The 32-bit range of the C# `int` fields plays no part in any comparison the program makes.
- `StringComparison.OrdinalIgnoreCase` is modelled with ASCII case folding only. Full Unicode case folding is not modelled.
- `StartsWith("<=")` and the other operator tests are modelled as ordinal prefix tests. With culture-sensitive comparison they behave the same on these ASCII operators.
- `HealthEvaluation.EvaluateBloodPressure` requires the guideline it rates to be the evaluator's own. The source tells its tiers apart by reference identity (`HealthEvaluator.cs:94-110`), which the model replaces with an explicit tier tag. Every call the program makes passes the evaluator's own guideline (`ReportController.cs:65, 115`), so the fall-through `return false` at `HealthEvaluator.cs:111` is never reached and is not modelled.
- A null blood-pressure tier would throw at `HealthEvaluator.cs:87`. The model's blood-pressure tiers are therefore never null, rather than modelling the exception.
- `ReportAssembly.GenerateClientReport` requires `GuidelinesCover`: every guideline section the report reads for this client is present. A missing section would throw a null-reference exception at `ReportController.cs:80-81, 103, 118, 128-148`. Exceptions are not modelled.
- The constructor's `ArgumentNullException` (`HealthEvaluator.cs:11`) is modelled as `None` from `HealthEvaluation.NewHealthEvaluator`.
- The client's date of birth and gender are never read by the report. The date of birth is not modelled.
- The client and guideline inputs are immutable values in the model, so it holds by construction that the report never modifies them.
