# Performance dashboard: metric rules, coaching and data validation

This project models the rules behind a customer-service performance dashboard
(script.js) and its batch data validator (data-validator.js).

- A metric reading is rated against its goal. The tiers are success, warning and
  danger, and there is a lower-is-better variant for call refusals.
- Progress bars are clamped to 0..100 %.
- Coaching recommendations are produced for exactly the underperforming
  metrics, in metric-list order. Each has a priority, a tip drawn from a fixed
  pool and a fixed action list.
- tNPS surveys get a colour and suggested actions by thresholds 8 and 6, and
  their average is shown.
- The dashboard shows the record of the selected month, else the last record,
  else an empty record.
- The manager's goal editor overwrites goals, and new development goals are
  appended.
- The validator checks a sample record against ten required fields, after
  normalising its keys. It scans a batch for empty values, malformed months
  and out-of-range numbers, and builds the sample CSV text.

JavaScript values are modelled as `JsValues.Value`: undefined, null, booleans,
numbers as exact reals, and strings. `NaN` is `None`. Records are ordered
entry lists, because `Object.keys` order decides the order of reported
issues, extra fields and CSV headers. The coercions the source relies on are
written out:

- truthiness;
- `v || 0`;
- `Number(v)` in relational comparisons;
- `parseFloat`;
- ASCII `toLowerCase`;
- the `\s` class;
- `Array.prototype.join`.

Modules:

- `JsValues`: the value model and coercions.
- `MetricRules`: `utils.getMetricStatus`, `utils.calculateChange`, the metric cards.
- `Coaching`: `AICoachingService.getMockCoaching`, `getActionItems`, `renderCoachingRecommendations`. The dashboard's coaching service `this.aiCoaching` is a `Coaching.Advisor` value holding its tip pools and action table. `Coaching.MockAdvisor` is the service as written.
- `Surveys`: `renderTnpsSurveys`, `getTnpsActions`.
- `Dashboard`: `renderDashboard`'s record choice, `appState` with `saveDevelopmentGoal`, `CONFIG.goals` with `saveGoals`.
- `KeyNormalisation`: key normalisation.
- `DataValidator`: `validateDataStructure`, `validateDataQuality`. The quality scan is stated for any list of range checks, and `validateDataQuality` uses the eight checks of data-validator.js:113-122.
- `CsvExport`: the CSV text of `exportSampleCSV`.

State that the source mutates is modelled as classes:

- `Dashboard.AppState`;
- `Dashboard.GoalConfig`.

Loops are modelled as methods proved against specification functions:

- `Coaching.CoachMetrics`, called by `Coaching.RenderCoachingRecommendations`;
- `DataValidator.Unmatched`, called by `DataValidator.ValidateDataStructure`;
- `DataValidator.CheckBatch`, called by `DataValidator.ValidateDataQuality`;
- `CsvExport.ExportCsv`;
- `Dashboard.GoalConfig.SaveGoals`.

## Model

| member | source | states |
|---|---|---|
| JsValues.GetMeaning | script.js:689 | `record[key]` is the value of the first entry with that key, and `undefined` when there is none |
| JsValues.OrZero | script.js:689 | `v \|\| 0` is never null or undefined; it is `v` when truthy and the number 0 otherwise |
| JsValues.ToLower | data-validator.js:52 | `toLowerCase` keeps the length and lower-cases each character; it leaves no upper-case ASCII letter |
| JsValues.ToLowerIdentity | data-validator.js:58 | a string with no upper-case letter is its own lower-case form |
| JsValues.JoinAvoids | data-validator.js:218-220 | joining strings that do not contain a character, with a separator that does not, never produces it |
| JsValues.ParseFloat | data-validator.js:125 | `parseFloat` returns a number unchanged and is NaN for undefined, null and booleans; a parsed string contains a digit |
| JsValues.ToNumber | script.js:109-116 | `Number()` as used by `<`/`>=`: a number is itself, null is 0, undefined is NaN |
| JsValues.StringToNumber | script.js:109-116 | a blank string compares as 0 |
| MetricRules.GetMetricStatus | script.js:104-118 | unknown iff the reading is null or undefined; NaN is danger; the three tiers hold in both directions for the 0.8 and 1.2 thresholds, higher- and lower-is-better |
| MetricRules.StatusMonotone | script.js:104-118 | an improving reading never lowers the tier, for every goal |
| MetricRules.CalculateChange | script.js:98-101 | 0 when previous is 0; otherwise `previous + previous·r/100 = current`; for a positive previous, the sign of the change follows current vs previous |
| MetricRules.Clamp | script.js:692-693 | the result lies in [0, 100] and equals x inside that range |
| MetricRules.Progress | script.js:691-693 | the bar is in [0, 100]; it is NaN exactly for a NaN reading or 0/0 |
| MetricRules.ProgressHigherIsBetter | script.js:690-693 | for a positive goal the bar is full iff the status is success; it is the exact ratio below the goal and 0 for readings ≤ 0 |
| MetricRules.ProgressLowerIsBetter | script.js:691-692 | for a positive goal the bar is 0 from the goal up, 100 at 0, and (goal−c)/goal·100 between |
| MetricRules.ProgressMonotone | script.js:691-693 | the bar rises with the reading for higher-is-better and falls for lower-is-better |
| MetricRules.MetricList | script.js:675-684 | the eight metrics in display order with their names and configured goals; only call refusals is lower-is-better |
| MetricRules.MetricCard | script.js:689-693 | a card's status is never unknown, because a missing reading counts as 0; its bar is in [0, 100] and is a number when the goal is non-zero |
| MetricRules.MetricCards | script.js:688-693 | one card per metric, in list order: card i has metric i's key, is never unknown and has its bar in [0, 100]; a falsy reading is shown as 0 and rated as 0 against that metric's goal |
| MetricRules.DefaultGoalsComplete | config.js:60-69 | the configured goals cover every tracked metric |
| Coaching.TablesCoverMetrics | script.js:308-380 | the tip pools and the action table cover exactly the eight metric keys, with three entries each, so the service as written has a tip in every pool |
| Coaching.TipPool | script.js:351 | the pool is never empty; a metric with a pool gets that pool and an unknown metric the single default tip |
| Coaching.ActionItems | script.js:367-380 | a metric in the action table gets its actions; an unknown metric gets "Monitor and maintain" |
| Coaching.PriorityOf | script.js:354-356 | high iff \|gap\| > 0.2·goal, medium iff 0.1·goal < \|gap\| ≤ 0.2·goal, otherwise low; a NaN gap is low |
| Coaching.TipIndex | script.js:352 | `floor(roll·n)` for a roll in [0,1) is a valid index and the floor of roll·n |
| Coaching.GetMockCoaching | script.js:307-365 | coaching for the metric: the tip is from its pool (the default tip for an unknown metric), with its actions, the gap's priority and confidence 0.85 |
| Coaching.UnderperformingIffNotSuccess | script.js:805-808 | for a numeric reading, underperforming is exactly "status is not success" |
| Coaching.NotANumberIsDangerWithoutCoaching | script.js:805-810 | a non-numeric reading is shown in danger but never coached |
| Coaching.PriorityMatchesStatus | script.js:354-356 | for an underperforming metric with a positive goal, high priority is exactly danger and the other priorities are exactly warning |
| Coaching.RecommendationsFollowMetrics | script.js:804-817 | recommendations correspond one to one, in order, to the underperforming metrics, with each one's name, key, priority, tip and actions |
| Coaching.UnderperformingMembership | script.js:804-810 | a metric is coached iff it is in the list and underperforming |
| Coaching.CoachedIffNotSuccess | script.js:804-810 | on the dashboard's metric list, a numeric reading is coached iff its card is not at success |
| Coaching.CoachMetrics | script.js:804-817 | the `for…of` loop over any metric list produces exactly the specified recommendation list |
| Coaching.RenderCoachingRecommendations | script.js:787-817 | on the dashboard's metric list, the loop produces exactly the specified recommendation list |
| Surveys.TnpsActions | script.js:925-944 | promoter actions iff score ≥ 8, passive iff 6 ≤ score < 8, detractor iff score < 6 |
| Surveys.ScoreColor | script.js:903 | a survey's colour is never unknown |
| Surveys.ActionsMatchColor | script.js:903-944 | the suggested actions and the colour use the same tiers |
| Surveys.ColorMonotone | script.js:903 | a higher score never gets a lower colour |
| Surveys.Scores | script.js:888 | the scores list holds each survey's score in order |
| Surveys.AverageScore | script.js:888-889 | 0 without surveys; otherwise average × count = sum of scores |
| Surveys.SumBounds | script.js:889 | a sum of n scores in [lo, hi] lies in [n·lo, n·hi] |
| Surveys.AverageWithinBounds | script.js:888-889 | the average of scores in [lo, hi] lies in [lo, hi] |
| Dashboard.FindMonth | script.js:658-660 | the first record of the selected month, or none when no record has it |
| Dashboard.SelectRecord | script.js:658-660 | the first record of the month if there is one, else the last record, else `{}` |
| Dashboard.AppState.SaveDevelopmentGoal | script.js:1025-1039 | appends exactly one goal with the form's fields, progress 0 and status pending, and changes nothing else |
| Dashboard.AppState.CurrentData | script.js:658-660 | reads the record the dashboard shows from the state |
| Dashboard.LastSubmitted | script.js:1016-1018 | the last value submitted for a key, or none if it was never submitted |
| Dashboard.OverwrittenLookup | script.js:1016-1018 | after saving, a key holds its last submitted value and other goals are kept |
| Dashboard.GoalConfig.SaveGoals | script.js:1011-1018 | writes the submitted pairs in order and keeps every metric's goal defined |
| KeyNormalisation.SpaceRunsProperties | data-validator.js:52 | `replace(/\s+/g, '_')` leaves no whitespace, adds no upper case, and changes nothing in a space-free string |
| KeyNormalisation.NormalizedForm | data-validator.js:52 | a normalised key has no whitespace and no upper-case letter |
| KeyNormalisation.NormalizeIdempotent | data-validator.js:52 | normalising twice is normalising once |
| KeyNormalisation.NormalizeWithoutSpace | data-validator.js:52 | a key without whitespace is only lower-cased |
| KeyNormalisation.SpaceRunsWord | data-validator.js:52 | `replace(/\s+/g, '_')` copies a non-empty stretch without whitespace character for character, in order |
| KeyNormalisation.SpaceRunsRun | data-validator.js:52 | `replace(/\s+/g, '_')` turns a whole run of whitespace into exactly one `_` |
| KeyNormalisation.NormalizeTwoWords | data-validator.js:52 | two space-free words around any non-empty run of whitespace become the lower-cased words joined by one `_` |
| KeyNormalisation.IcNameNormalises | data-validator.js:52 | the heading `IC Name` satisfies the `ic_name` requirement |
| KeyNormalisation.IcNameDoubleSpaceNormalises | data-validator.js:52 | `IC  Name`, with two spaces, also becomes `ic_name` |
| DataValidator.RequiredFieldsAreLowerCase | data-validator.js:6-17 | `field.toLowerCase()` leaves every required field unchanged |
| DataValidator.SampleKeys | data-validator.js:52 | the sample's keys, in order, each normalised |
| DataValidator.FilterOut | data-validator.js:57-68 | the kept names are exactly those of the list that are not excluded, and there are no more of them than of the list |
| DataValidator.StructureReportMeaning | data-validator.js:52-68 | missing holds exactly the required fields absent from the normalised keys, and extra holds exactly the keys not required; they are disjoint and \|missing\| ≤ 10 |
| DataValidator.FilterOutEmpty | data-validator.js:57-61 | nothing is missing iff every required field is among the keys |
| DataValidator.AddingFieldsKeepsValidity | data-validator.js:52-82 | adding properties to a valid sample keeps it valid |
| DataValidator.SampleKeysAreLowerCase | data-validator.js:65 | `key.toLowerCase()` leaves every normalised key unchanged |
| DataValidator.Unmatched | data-validator.js:57-68 | each `forEach` collects exactly the filtered list |
| DataValidator.ValidateDataStructure | data-validator.js:49-83 | returns the missing and extra fields of the specification, valid iff nothing is missing |
| DataValidator.EmptyIssues | data-validator.js:99-104 | empty-value issues carry the 1-based record number |
| DataValidator.EmptyIssuesMeaning | data-validator.js:99-104 | a key is reported empty iff an entry with that key holds null, undefined or '' |
| DataValidator.CheckMonthMeaning | data-validator.js:107-110 | a non-empty string month is flagged iff it does not match `^\d{4}-\d{2}$`; a truthy non-string month throws |
| DataValidator.MonthExamples | data-validator.js:107 | "2024-13" passes; "", undefined and "2024-01" pass; "2024-1" and "2024-01 " are flagged; a number throws |
| DataValidator.RangeIssueMeaning | data-validator.js:124-130 | a check raises one issue iff the value parses to a number strictly outside [min, max] |
| DataValidator.RangeIssues | data-validator.js:124-130 | range issues carry the record number |
| DataValidator.MonthIssues | data-validator.js:107-110 | month issues carry the record number |
| DataValidator.BadMonthThrows | data-validator.js:107 | a record throws exactly when its month is truthy and not a string, since only a string has `match` |
| DataValidator.FirstBadMonth | data-validator.js:97-110 | the first record whose month throws, with no throwing record before it; none iff no record throws |
| DataValidator.QualityThrowsAtFirstBadMonth | data-validator.js:97-110 | validateDataQuality throws iff some record's month throws, and names the first such record, 1-based |
| DataValidator.WithinTolerance | data-validator.js:145 | `issues < records·0.1` iff 10·issues < records |
| DataValidator.DataQuality | data-validator.js:86-146 | for any list of range checks: total is the record count, the counters match the issue kinds, valid iff 10·\|issues\| < records |
| DataValidator.CountsAddUp | data-validator.js:97-131 | every issue is counted by exactly one counter |
| DataValidator.IssueCountIsSumOfStats | data-validator.js:89-145 | \|issues\| = nullValues + invalidDates + outOfRangeValues |
| DataValidator.ToleranceExamples | data-validator.js:145 | an empty batch is invalid; 10 issues in 100 records are invalid and 9 are valid |
| DataValidator.CheckEmptyValues | data-validator.js:99-104 | the entry loop appends the empty-value issues and keeps the counters in step |
| DataValidator.CheckMonthField | data-validator.js:107-110 | the month test appends the month issue, or reports the throw |
| DataValidator.CheckRange | data-validator.js:124-130 | one range check appends its issue, if any, and counts it |
| DataValidator.CheckRanges | data-validator.js:113-130 | the range loop appends the range issues and keeps the counters in step |
| DataValidator.CheckRecord | data-validator.js:97-131 | one record appends its empty, month and range issues in that order, or throws |
| DataValidator.CheckBatch | data-validator.js:97-131 | the `forEach` over the records returns exactly the specified report, or the first throwing record |
| DataValidator.ValidateDataQuality | data-validator.js:86-146 | with the eight numeric checks, returns exactly the specified report, or the first throwing record |
| CsvExport.CellText | data-validator.js:220 | strings are written unchanged; null and undefined are written as nothing |
| CsvExport.CsvLines | data-validator.js:216-221 | the header line is the first row's keys joined by `,`, then one line per row with its values in header order |
| CsvExport.CsvText | data-validator.js:216-221 | there is no text iff there are no rows |
| CsvExport.ExportCsv | data-validator.js:216-221 | the loop builds exactly the specified text |
| CsvExport.SplitTerminated | data-validator.js:218-221 | splitting newline-terminated lines at the newlines gives the lines back |
| CsvExport.RowLineHasNoNewline | data-validator.js:220 | a row line contains no newline when no cell does |
| CsvExport.CsvReadsBack | data-validator.js:216-221 | the CSV text reads back as the header line and one line per row: rows + 1 lines |

## Left out

- Network, DOM and rendering: HTML strings, toasts, modals, the Blob download, Chart.js, console output and the capped issue printout. Only the returned values are modelled.
- Randomness and clocks: the mock data generators, `generateId` and the random trend badge. The tip pick takes `Math.random()`'s result as a roll parameter in [0, 1), and the goal id is a parameter.
- The data connectors and the fetches of `testGoogleSheets` and `testEndpoint` (data-validator.js) are not part of this model.
- `AICoachingService.generateCoaching` (script.js:302-305) always returns `getMockCoaching`'s result. The model calls the mock directly and drops the unused history argument.
- The sample-data generator `generateSampleData` draws random values and dates, so it is not part of this model.
- Floating point: numbers are exact reals. So `goal * 0.8`, `data.length * 0.1` and the averages are not rounded, and Infinity appears only as the clamp of a division by a zero goal.
- Number formatting: the text of a number in a CSV cell is a parameter (`numberText`), and issue messages are modelled as an `Issue` datatype rather than as strings.
- JsValues.ParseFloat: does not parse `Infinity`. A string value's result is stated only as "contains a digit", not as the exact decimal value.
- JsValues.StringToNumber: hexadecimal, binary, octal and `Infinity` literals give `NaN` here, although `Number()` accepts them.
- JsValues.ToLower: covers only ASCII letters. Non-ASCII case mapping is not modelled.
- JavaScript's ordering of integer-like keys first in `Object.keys` is not modelled. Entry order is taken as given.
- MetricRules.CalculateChange: takes numbers. The `!previous` test on NaN, undefined or null is not modelled.
- Dashboard.GoalConfig.SaveGoals: takes already-parsed numbers, so a field that `parseFloat` turns into NaN is out of scope.
- Dashboard.AppState: holds only the three lists the modelled operations touch. `trendData`, `coachingRecommendations` and the data-source statuses are not part of this model.
- config-fresh.js spells its goal keys in camelCase (`weightedSph`, …). script.js reads snake_case keys, so those goals would be undefined. The model uses the snake_case configuration of config.js.
- The ten documented sheet headings (config.js:121-130) are shown to normalise only for `IC Name`. The other nine are `Month`, read without its format note `(YYYY-MM format)`, and the eight metric headings. None of them contains whitespace, so by KeyNormalisation.NormalizeWithoutSpace they are only lower-cased.

## Behaviour worth noting

These follow from the code as written, and the model keeps them.

- The month check is a format test only. `"2024-13"` is accepted because the pattern has no month range (DataValidator.MonthExamples).
- A lower-is-better reading of 7 against a goal of 10 is success: any reading at or below the goal is success, because `<= goal` is tested before the warning band (MetricRules.GetMetricStatus).
- The 10 % tolerance counts issues, not affected records. A record can raise several issues (DataValidator.WithinTolerance).
- Only the first record is checked for structure. The quality scan, not the structure check, covers the rest of the batch.
- The returned issue list is complete. The cap at ten applies only to the console printout.
