# Insulin and heparin infusion calculator: a Dafny model

This project models the decision core of a bedside calculator page for intravenous infusions:

- The weight-based heparin protocol. An aPTT (seconds) selects a bolus, a hold, a dose change and
  the time of the next aPTT.
- The non-DKA/HHS insulin protocol. It gives an initial rate from the blood glucose (BG), and it
  adjusts a running infusion from the current rate, the current BG and the previous BG.
- The DKA/HHS insulin protocol. It covers the bolus, the phase 1 initiation, the phase 1
  continuation (from the BG drop over the last hour), the transition and the phase 2 titration.
- The calculation history: the 50 most recent calculations, newest first.
- The monitoring engine. It keeps four lists of readings (BG and infusion rate, for each of the two
  protocol families) for 24 hours. It raises three kinds of flag, each with a one-hour cooldown:
  - DKA BG above 250 for two hours;
  - DKA rate below 2 units/hr for four hours;
  - non-DKA BG stable within 100-180 for six hours.
  Flags can be acknowledged and cleared, and the tracking data can be cleared.
- The data behind the trend chart. The readings of a time frame are merged into points: a rate
  joins any point less than a minute away. The points are then sorted by time.
- The older stand-alone calculator page (`heparin.js`). Its heparin table differs from the current
  page's. Its two non-DKA insulin calculators run the current page's branch chains, but with no
  confirmation, no history entry and no monitoring record.

Modules:

- `Wrappers`: `Option` and `Result`. A `None` input is a field that parsed to `NaN`.
- `Common`: the shared vocabulary:
  - severities, protocol families and the history's protocol names;
  - `Computation`, the result of a completed calculation: its decision, whether the page first
    asks for confirmation, the history entry's protocol and critical mark, and the reading it
    passes to the monitoring engine;
  - `Filter` and its lemmas.
- `Ranges`: interval tables with a first-match lookup. They are the reference definition against
  which each if / else-if chain is proved.
- `Heparin`, `NonDkaInsulin`, `DkaHhs`: the rule engines of `logic.js`.
- `LegacyPage`: the rule engines of `heparin.js`, and how they compare with the current page.
- `History`: the class `CalculationHistory`.
- `Monitoring`: the class `Monitor`, with the pure conditions it is specified by.
- `Trend`: the chart series, as a pure function and as the method that builds it from a `Monitor`.

Every branch chain is modelled as written. The chains that pick a row by a range of one value are also
proved equal to a table of ranges: the heparin chains of both pages, the non-DKA adjustment, and DKA
phases 1 and 2. The initial rates and the DKA transition are formulas, so they have no table.
For every table, the proofs show that its rows are ascending and do not overlap. They also
characterise exactly which inputs fall through to the final `else`.

Notes where the code and the written protocol differ; the model follows the code:

- **Heparin gaps.** The heparin bands of `logic.js` are closed intervals between whole numbers. A
  fractional aPTT in a gap (50.5, 69.5, 90.5, 100.5, 110.5, 120.5, 199.5) falls into the final
  "hold and page the physician" branch. No confirmation is asked for it.
  `HeparinCriticalIffUncovered` states exactly which values reach that branch.
- **DKA BG flag.** The flag is raised by the second high reading within two hours, not the third.
  `HighBgScenario` shows this.
- **Older page differences.** The older page differs from the current one on every aPTT with
  40 < aPTT <= 50. From 41 to 50 it gives no bolus. Between 40 and 41 it pages the physician.
  `LegacyDivergence` states this.

## Model

| member | source | states |
|---|---|---|
| Common.RoundToTenth | logic.js:768-773 | the rounding `Math.round(x*10)/10` of the 201-250 fallback: within half a tenth of x, and a whole number of tenths |
| Common.Filter | logic.js:1134-1136 | `Array.prototype.filter`: keeps exactly the elements satisfying the predicate, and nothing else |
| Common.FilterAppend | logic.js:1134-1136 | filtering distributes over concatenation, so the kept readings stay in their order |
| Common.FilterFilter | logic.js:1195-1199 | filtering the recent readings again by a stronger test equals filtering once by the stronger test |
| Common.FilterEveryCount | logic.js:1199-1202 | when every recent reading passes the `every` test, the count of passing readings is the count of recent readings |
| Ranges.FirstMatch | logic.js:497-524 | an if / else-if chain picks the first row whose range holds the value; `None` exactly when no row holds it |
| Ranges.NoOverlap | logic.js:497-524 | in an ascending table, no value lies in two rows, so the order of the tests does not matter |
| Ranges.LookupRow | logic.js:497-524 | in an ascending table, the lookup returns the value of whichever row holds the input |
| Ranges.LookupUncovered | logic.js:521-524 | a value no row holds reaches the final `else` |
| Heparin.PerformHeparinCalculation | logic.js:497-524 | therapeutic exactly for 70-90; a bolus exactly for aPTT <= 50; only the critical branch holds and pages the physician |
| Heparin.HeparinTableAscending | logic.js:497-520 | the nine heparin bands are ascending and disjoint |
| Heparin.HeparinTableAgrees | logic.js:497-524 | the branch chain equals the table lookup, for every aPTT |
| Heparin.HeparinCriticalIffUncovered | logic.js:497-524 | the page-MD branch is reached exactly when no band covers the aPTT: 200 and above, or a fractional value in one of the seven gaps |
| Heparin.HeparinWholeNumbersCovered | logic.js:497-520 | every whole aPTT below 200 is in exactly one band; from 200 on, none |
| Heparin.GetHeparinInstructions | logic.js:465-488 | rejects a NaN or negative aPTT; asks for confirmation and marks the history entry critical exactly when aPTT >= 200 or < 30; no monitoring record |
| Heparin.ConfirmationIsNotSeverity | logic.js:477 | confirmation and critical severity differ: 50.5 is critical without confirmation; below 30 is confirmed but only a warning |
| NonDkaInsulin.PerformInsulinRateCalculation | logic.js:589-598 | below threshold exactly for BG < 60; otherwise the rate is (BG - 60)/50, with a physician-order warning exactly above 600 |
| NonDkaInsulin.CalculateInsulinRate | logic.js:564-627 | rejects NaN and BG <= 0; confirmation and critical history exactly above 600; records the BG, and the rate only when it is not negative |
| NonDkaInsulin.InitialRateAnchors | logic.js:589-598 | 60 gives rate 0; 59 is below threshold; 601 needs a physician order |
| NonDkaInsulin.PerformInsulinAdjustmentCalculation | logic.js:661-818 | holds insulin exactly for BG <= 100, which is exactly the critical case; therapeutic exactly when the rate is kept; dextrose only for T1DM |
| NonDkaInsulin.CalculateInsulinAdjustment | logic.js:632-659 | rejects a NaN rate or BG, a negative rate and BG <= 0; confirmation and critical history exactly for BG <= 70 or > 400 |
| NonDkaInsulin.RecordKeepsOldRate | logic.js:842-849 | the monitoring record keeps the current rate even when the decision sets a new one (10 -> 9 at BG 120, previous 90) |
| NonDkaInsulin.CalculateInsulinAdjustmentRecordingNewRate | logic.js:842-849 | same decision, gate and history entry; the record carries the new rate when one is set, else the current rate |
| NonDkaInsulin.AdjustmentTableAscending | logic.js:661-818 | the current-BG bands, and each band's previous-BG rows, are ascending and disjoint |
| NonDkaInsulin.PreviousRowsAscending | logic.js:684-806 | the previous-BG rows of each of the five bands are ascending and disjoint |
| NonDkaInsulin.AgreesWithoutPrevious | logic.js:661-818 | up to 100 and above 300, the chain equals the table whatever the previous BG |
| NonDkaInsulin.Agrees101To140 | logic.js:684-705 | the 101-140 sub-chain is its band's previous-BG table |
| NonDkaInsulin.Agrees141To180 | logic.js:706-718 | the 141-180 sub-chain is its band's table |
| NonDkaInsulin.Agrees181To200 | logic.js:719-748 | the 181-200 sub-chain is its band's table |
| NonDkaInsulin.Agrees201To250 | logic.js:749-774 | the 201-250 sub-chain is its band's table, with the rounding fallback |
| NonDkaInsulin.Agrees251To300 | logic.js:775-806 | the 251-300 sub-chain is its band's table, with the empty fallback |
| NonDkaInsulin.AdjustmentTableAgrees | logic.js:661-818 | the whole adjustment chain equals the two-level table lookup, for every input |
| NonDkaInsulin.PreviousRowsCoverage | logic.js:684-806 | for a current BG from 181 to 300 every whole previous BG has a row; for a current BG from 101 to 140, a whole previous BG has a row exactly when it lies outside 100-140, and 100-140 falls to the final `else` (logic.js:700) |
| NonDkaInsulin.LowBgHolds | logic.js:666-683 | at or below 100 the infusion is held whatever the rate and the previous BG |
| NonDkaInsulin.T1dmOnlyMattersWhenLow | logic.js:661-818 | above 100 the T1DM checkbox changes nothing |
| NonDkaInsulin.AdjustmentDirections | logic.js:684-818 | for a non-negative rate: a decrease is positive and floors at 0; an increase is positive; a kept rate is unchanged |
| NonDkaInsulin.TargetBandKeepsRate | logic.js:706-718 | from 141 to 180 the rate is kept unless the previous BG was 201 or more |
| NonDkaInsulin.HighBgIgnoresPrevious | logic.js:807-818 | above 300: +max(40%, 3) up to 400 and +max(50%, 4) above it, whatever the previous BG |
| NonDkaInsulin.NoActionIff | logic.js:775-806 | the empty instruction occurs exactly for a BG of 251-300 with no previous BG |
| NonDkaInsulin.FallbackRoundsToTenth | logic.js:768-773 | the 201-250 fallback's new rate is a whole number of tenths |
| NonDkaInsulin.AdjustmentExamples | logic.js:673-705 | BG 120 after 90 at 10 units/hr decreases by 1 to 9; BG 75 for T1DM holds and starts dextrose |
| DkaHhs.BolusAmount | logic.js:862 | the bolus is 0.1 units/kg, capped at 10 units |
| DkaHhs.CalculateDkaBolus | logic.js:853-877 | rejects NaN and weight <= 0; the bolus is positive and at most 10; no confirmation, no critical mark, no record |
| DkaHhs.CalculateDkaInitiation | logic.js:879-904 | rejects NaN and weight <= 0; the rate is weight/10 units/hr; it is recorded as a DKA rate reading |
| DkaHhs.BolusIsCappedInitiation | logic.js:853-904 | the bolus is the initiation rate's number capped at 10; the cap applies exactly above 100 kg |
| DkaHhs.Phase1Continuation | logic.js:915-928 | a drop <= 50 gives rate × 1.5 (warning); a drop in (50, 100] keeps the rate (therapeutic); a drop > 100 gives rate × 0.5 with neuro checks (critical); the new rate moves the matching way |
| DkaHhs.Phase1TableAgrees | logic.js:915-928 | the phase 1 chain equals a two-row table over the drop, with 50-100 as the fall-through, for every rate and drop |
| DkaHhs.Phase1Monotone | logic.js:915-928 | a larger BG drop never gives a higher new rate |
| DkaHhs.CalculateDkaPhase1Continuation | logic.js:906-950 | rejects a NaN rate or drop and a negative rate; critical history exactly for a drop > 100; records the new rate |
| DkaHhs.CalculateDkaTransition | logic.js:952-984 | rejects NaN or weight <= 0 and a NaN rate; the new rate is the lower of weight/20 and the current rate |
| DkaHhs.Phase2Titration | logic.js:998-1012 | +2 above 250, +1 for 201-250, keep for 150-200, halve for 70-149, stop and resume at half below 70 |
| DkaHhs.Phase2Exhaustive | logic.js:998-1012 | every whole BG falls in exactly one phase 2 band |
| DkaHhs.Phase2TableAgrees | logic.js:998-1012 | the phase 2 chain equals its table, for every input |
| DkaHhs.Phase2Monotone | logic.js:998-1012 | for a non-negative rate, a higher BG never gives a lower new rate |
| DkaHhs.CalculateDkaPhase2 | logic.js:986-1034 | rejects only a NaN rate or BG; critical history exactly below 70; records the BG and the new rate |
| LegacyPage.LegacyHeparinCalculation | heparin.js:108-138 | therapeutic exactly for 70-90; a bolus exactly for aPTT <= 40; only the critical branch holds and pages the physician |
| LegacyPage.LegacyTableAscending | heparin.js:108-132 | the older page's ten bands are ascending and disjoint |
| LegacyPage.LegacyTableAgrees | heparin.js:108-138 | the older chain equals the older table, for every aPTT |
| LegacyPage.LegacyCriticalIffUncovered | heparin.js:108-138 | the page-MD branch is reached exactly for the values no band covers, including 40 < aPTT < 41 |
| LegacyPage.LegacyHoldOnlyHigh | heparin.js:108-138 | the infusion is held only from 101 to 199 and in the critical branch |
| LegacyPage.LegacyDivergence | heparin.js:108-138 | the two pages disagree exactly for 40 < aPTT <= 50 |
| LegacyPage.LegacyGetHeparinInstructions | heparin.js:90-161 | rejects a NaN or negative aPTT; otherwise gives the older table's entry |
| LegacyPage.LegacyCalculateInsulinRate | heparin.js:167-205 | rejects NaN and BG <= 0; below threshold exactly below 60; rate (BG - 60)/50; critical exactly above 600 |
| LegacyPage.LegacyCalculateInsulinAdjustment | heparin.js:210-394 | rejects a NaN rate or BG, a negative rate and BG <= 0; otherwise gives the adjustment table's entry |
| LegacyPage.LegacyInsulinMatchesCurrent | heparin.js:167-394 | both pages' insulin calculators accept the same inputs and reach the same decisions |
| History.Prepended | logic.js:270-273 | the new entry comes first, then the older entries in order, and the list is never longer than 50 |
| History.ReplayKeepsNewest | logic.js:260-276 | after any sequence of additions, the history is the last min(n, 50) entries, newest first |
| History.BoundPreserved | logic.js:270-273 | a history of at most 50 stays at most 50, and the previous newest entry comes second |
| History.CalculationHistory.AddToHistory | logic.js:260-276 | the stored list becomes the old one with the new entry prepended and cut back to 50 |
| History.CalculationHistory.Record | logic.js:552-558 | a completed calculation adds its protocol name and critical mark to the history |
| Monitoring.AppendedKeepsNewest | logic.js:1126-1136 | the new reading is kept, last, after the older readings that are still within 24 hours |
| Monitoring.RetentionKeepsWindows | logic.js:1133-1136 | trimming to 24 hours leaves every shorter window unchanged |
| Monitoring.HighCountRedundant | logic.js:1199-1202 | the DKA BG test is exactly: at least two readings in two hours, all of them above 250 |
| Monitoring.LowCountRedundant | logic.js:1216-1219 | the DKA rate test is exactly: at least two readings in four hours, all of them below 2 |
| Monitoring.AlertsIgnoreRetention | logic.js:1133-1253 | none of the three tests depends on readings older than 24 hours |
| Monitoring.CooldownSuppresses | logic.js:1203-1204 | within one hour of a flag, no flag of that kind is raised again |
| Monitoring.HighBgScenario | logic.js:1193-1207 | one high reading raises nothing; a second one 30 minutes later raises the flag; a third 30 minutes after that is in cooldown |
| Monitoring.FindFlag | logic.js:1274 | the index of the first flag with that id, or none exactly when no flag has it |
| Monitoring.Acknowledge | logic.js:1273-1280 | only the first flag with that id changes, and it becomes acknowledged |
| Monitoring.AcknowledgeIdempotent | logic.js:1273-1280 | acknowledging twice is the same as acknowledging once |
| Monitoring.AcknowledgeUnknown | logic.js:1274-1275 | an unknown id changes nothing |
| Monitoring.WithoutFlag | logic.js:1283 | no flag with that id remains, and every other flag does |
| Monitoring.WithoutFlagAppend | logic.js:1283 | clearing keeps the order of the remaining flags |
| Monitoring.AcknowledgeAfterClear | logic.js:1273-1286 | after a clear there is nothing left to acknowledge under that id |
| Monitoring.Monitor.constructor | logic.js:8-27 | empty reading lists, unset markers, no flags |
| Monitoring.Monitor.AddFlag | logic.js:1255-1271 | one new unacknowledged flag at the end; nothing else changes |
| Monitoring.Monitor.CheckDkaHhsConditions | logic.js:1190-1226 | each DKA marker moves exactly when its test is due; the readings are unchanged |
| Monitoring.Monitor.CheckHighBg | logic.js:1193-1208 | the BG marker moves, and one critical flag is added, exactly when the two-hour glucose test is due |
| Monitoring.Monitor.CheckLowRate | logic.js:1210-1225 | the rate marker moves, and one critical flag is added, exactly when the four-hour rate test is due |
| Monitoring.Monitor.CheckNonDkaConditions | logic.js:1228-1253 | the stability marker moves exactly when its test is due; the readings are unchanged |
| Monitoring.Monitor.AddMonitoringData | logic.js:1122-1188 | the reading's family's lists take each non-null value and are trimmed to 24 hours; the other family is unchanged; then both checks run |
| Monitoring.Monitor.StoreReading | logic.js:1125-1178 | each non-null value is pushed onto its family's list, which is then trimmed to 24 hours; markers and flags are unchanged |
| Monitoring.Monitor.AcknowledgeFlag | logic.js:1273-1280 | the flags become `Acknowledge` of the old flags; the readings and markers are unchanged |
| Monitoring.Monitor.ClearFlag | logic.js:1282-1286 | the flags become `WithoutFlag` of the old flags; the readings and markers are unchanged |
| Monitoring.Monitor.ClearTrackingData | logic.js:1712-1757 | nothing changes unless confirmed; otherwise it empties the chosen lists and returns how many readings they held; 'all' also resets the markers |
| Trend.FindNear | logic.js:1606-1608 | the first point less than a minute from the reading, or none exactly when no point is that close |
| Trend.ExtendsTransitive | logic.js:1604-1647 | successive merges keep every earlier point |
| Trend.MergeRate | logic.js:1604-1619 | the rate overwrites the rate of the first point near it (`find`) and nothing else; when no point is near, exactly one rate-only point is appended |
| Trend.BgPoints | logic.js:1594-1602 | every point is a glucose point of a reading of the list in the frame, and every such reading has a point |
| Trend.BgPointsInOrder | logic.js:1594-1602 | exactly one glucose point per reading in the time frame, in the order of the list |
| Trend.InsertByTime | logic.js:1650 | inserting keeps the points as a multiset |
| Trend.InsertKeepsSorted | logic.js:1650 | inserting into a time-sorted list keeps it sorted |
| Trend.SortByTime | logic.js:1650 | the result is a permutation of the input, sorted by time |
| Trend.ExtendsKeepsShown | logic.js:1604-1647 | a merge never loses a BG point or a rate already shown |
| Trend.MergeRatesExtends | logic.js:1604-1619 | merging a rate list keeps every earlier point in place and adds only rate-only points |
| Trend.MergeRatesFacts | logic.js:1604-1619 | merging a rate list keeps the points in the frame and every rate sound, and shows every rate reading of the frame |
| Trend.MergeRateStep | logic.js:1605-1617 | one merged rate keeps the points in the frame and sound, and is itself shown near its time |
| Trend.MergeStages | logic.js:1591-1647 | both merge stages keep their input points and add only rate-only points in the frame |
| Trend.MergedBgSound | logic.js:1591-1647 | every BG on the chart is a reading of the point's own family |
| Trend.MergedBgShown | logic.js:1591-1647 | every BG reading of the frame has its own point |
| Trend.MergedRatesShown | logic.js:1591-1647 | every rate reading of the frame is shown on a point less than a minute away |
| Trend.ChartSeriesFacts | logic.js:1588-1650 | the series is sorted, a permutation of the merged points, in the frame, and complete and sound for BG and rates |
| Trend.RateJoinsOtherFamily | logic.js:1632-1638 | a non-DKA rate can land on a DKA BG point |
| Trend.PushBgPoints | logic.js:1594-1602 | one glucose `forEach` appends exactly the list's points of the time frame |
| Trend.PushRates | logic.js:1604-1619 | one rate `forEach` yields exactly the merge of the list's rates into the points |
| Trend.BuildChartSeries | logic.js:1588-1650 | the four loops and the sort build exactly the chart series of the time frame |

## Left out

- Everything on the page: the DOM, the rendered HTML and message texts, `toFixed` formatting, the notifications, the forms and tabs, the weight converters, the calculator widget, the timer, the feedback form, and the Chart.js configuration and colours.
- Persistence. `localStorage` saving and loading, and `clearHistory`, are not modelled. The model holds the state in memory.
- The Gemini assistant (`gemini.js`, `api/`) is not part of this model.
- Time and randomness are parameters. `Date.now()` / `new Date()` become one `now` in milliseconds for a whole call; the page reads the clock several times within one call, a few milliseconds apart. A flag id (`Date.now() + Math.random()`) is an argument.
- The confirmation dialogs are the `needsConfirmation` field. A computation describes what happens once the user confirms. A declined confirmation does nothing.
- The side effects of a completed calculation are returned as data: its history entry and its monitoring record. `History.CalculationHistory.Record` and `Monitoring.Monitor.AddMonitoringData` then apply them.
- Numbers are exact reals and integers. IEEE double rounding is not modelled, and neither is the coercion of the BG to a number inside `parseInt`.
- History entries keep their id, protocol and critical mark. The input and result texts and the locale timestamp string are not modelled.
- A reading's `protocolType` field is left out. The list it sits in already tells it.
- Trend.BuildChartSeries: the datasets map a BG or a rate of 0 to a gap (`d.bg || null`, `d.rate || null`, logic.js:1657, 1669), while a negative BG is truthy and is drawn as a point at its value. The series keeps the 0. Records with a rate of 0 do occur: a current rate of 0 in the adjustment (logic.js:645, recorded as is at 842-849), the initial rate at a BG of 60 (logic.js:626), and a phase 1 or phase 2 rate of 0. DKA phase 2 rejects only NaN (logic.js:991) and records the BG as given (logic.js:1033), so a BG of 0 shows as a gap and a negative BG as a point. The datasets are not modelled.
- Trend.SortByTime: `Array.prototype.sort` is stable; the contract states sortedness and permutation only, not the order among points with equal times.
- Monitoring.Monitor.ClearTrackingData: the page's confirm texts are not modelled, and `updateGraph` is left out after a clear.
- The choice of displayed series ('bg', 'rates' or both) only selects datasets. It is not modelled.

## Findings

| source | as written | input that shows it | evidently intended | confidence | as-written member | corrected member |
|---|---|---|---|---|---|---|
| logic.js:842-849 | after an adjustment, the reading passed to the monitoring engine carries the current rate, because the test for "New Rate:" looks in the action text, not the rate line | rate 10, BG 120, previous BG 90: the decision says 9 units/hr, the record says 10 | record the rate in force after the adjustment, as the regex over the rate line means to | medium, not executed | NonDkaInsulin.RecordKeepsOldRate | NonDkaInsulin.CalculateInsulinAdjustmentRecordingNewRate |
