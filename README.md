# Guardian analysis engines in Dafny

This project models the rule engines of the infrastructure-accountability
platform. Each engine takes one submitted form and normalises it into a
record. It then derives the classification fields, runs a fixed list of
agents that each choose a narrative and a severity, and builds a timeline
and a list of alerts from the record.

- `src/lib/bharatGuardianEngine.ts` has two variants:
  - Road Guardian covers potholes: SLA classification, six agents, a lifecycle
    timeline, delay/performance/quality alerts and a contractor table.
  - Phantom-X covers suppliers: the phantom-stock percentage, an additive
    disruption-risk score, seven agents, a supply timeline, alerts, and a
    supplier score built from deductions.
- `src/lib/roadGuardianEngine.ts` is the older single-variant road engine.
  It matches duplicates on location only. It raises a separate at-risk alert,
  and it has its own contractor table and id format.

Layout:

| file | module | contents |
|---|---|---|
| `common.dfy` | `Common` | Shared pieces, defined once:<br>- the enumerations both type files declare;<br>- the SLA classifier, identical in both engines;<br>- `daysOpen`;<br>- the repeat-failure test;<br>- the pothole lifecycle;<br>- `Fired`, the "if (condition) list.push(item)" shape of every builder. |
| `text.dfy` | `Text` | ASCII case mapping, `slice`, `String(n)` and `padStart`, with decimal read-back. |
| `guardian_types.dfy` | `GuardianTypes` | The records of `src/types/bharatGuardian.ts`. |
| `pothole_types.dfy` | `PotholeTypes` | The records of `src/types/pothole.ts`. |
| `bharat_road.dfy` | `BharatRoad` | The road half of the two-variant engine. |
| `phantom_x.dfy` | `PhantomX` | The supply half of the two-variant engine. |
| `road_guardian.dfy` | `RoadGuardian` | The single-variant engine. |

How the model is written:

- Narrative text is replaced by the kind of message an agent selected. A
  message keeps the values that choose it (stage, SLA status, risk tier, the
  issue list).
- Dates are integers in milliseconds.
- Each builder that pushes onto a local array is a `method` that pushes onto
  a local sequence. The alert, issue and supply-timeline builders are proved
  equal to a specification function written with `Fired`. The two pothole
  timeline builders are proved equal, event by event, to `Milestones`, the
  list of lifecycle stages reached. The lemmas about lengths, kinds and
  conditions are proved about these specification functions.
- The accumulators are methods proved against score and band functions:
  `riskScore +=`, `baseScore -=`, and `issues.push` with `status` reassigned.

## Model

| member | source | states |
|---|---|---|
| Common.CalculateSlaStatus | src/lib/bharatGuardianEngine.ts:19-24 | For every positive SLA: on track iff 10·daysOpen < 7·SLA; at risk iff 7·SLA ≤ 10·daysOpen < 10·SLA; breached iff daysOpen ≥ SLA. |
| Common.RatioBelow | src/lib/roadGuardianEngine.ts:12-17 | The ratio test daysOpen/SLA < num/den equals the integer test den·daysOpen < num·SLA, which is how both engines' thresholds are restated. |
| Common.SlaMonotone | src/lib/roadGuardianEngine.ts:12-17 | For a fixed SLA, more days open never gives a less severe SLA status. |
| Common.SlaBoundaries | src/lib/bharatGuardianEngine.ts:19-24 | The results are 6/10 on track, 7/10 and 9/10 at risk, and 10/10 and 12/7 breached. |
| Common.DaysOpen | src/lib/roadGuardianEngine.ts:321 | max(1, floor(elapsed/day)) is ≥ 1. It is 1 exactly when less than two whole days have passed; otherwise it is the number of whole days elapsed. |
| Common.FrequentFailureCases | src/lib/bharatGuardianEngine.ts:307 | The recurrence test rejects an absent value and the value 0 (falsy). It rejects any value when there were no previous repairs. It accepts exactly the non-zero values below 90. |
| Common.ScoreBand | src/lib/roadGuardianEngine.ts:76-85 | The ≥ 80 / ≥ 60 / < 60 bands: the result is danger iff the score is below 60, and never info. |
| Common.ScoreBandAntitone | src/lib/bharatGuardianEngine.ts:86-109 | A higher score never yields a more severe band. |
| Common.StageIndex | src/lib/bharatGuardianEngine.ts:235-236 | The index of a status in the lifecycle [reported, assigned, in_progress, repaired, closed] is the position where that status sits. |
| Common.MilestonesShape | src/lib/bharatGuardianEngine.ts:224-271 | The stages a timeline shows: 1 to 5 entries, one per stage reached. The first is 'reported' at offset 0 and the last is the current status. Each entry is the lifecycle stage at its position. |
| Common.MilestonesGrowWithStatus | src/lib/roadGuardianEngine.ts:193-239 | A status further along the lifecycle gives a timeline that extends the shorter one as a prefix. |
| Common.Fired | src/lib/bharatGuardianEngine.ts:274-324 | The conditional push list is never longer than its candidate list. |
| Common.FiredMembership | src/lib/bharatGuardianEngine.ts:274-324 | An item is in the result iff some candidate carrying it fires. |
| Common.FiredEmpty | src/lib/bharatGuardianEngine.ts:176-221 | The result is empty iff no condition fires, which is the "no issues" branch of each alert agent. |
| Common.FiredMonotone | src/lib/bharatGuardianEngine.ts:614-665 | Making conditions hold at least as often never removes an item or shortens the list. One more firing condition lengthens it. |
| Text.LowerIdempotent | src/lib/bharatGuardianEngine.ts:29 | Lower-casing is idempotent, so a lower-cased location compares as itself. |
| Text.LowerOfUpper | src/lib/roadGuardianEngine.ts:22 | Upper-casing a location first does not change the case-insensitive comparison. |
| Text.Decimal | src/lib/bharatGuardianEngine.ts:699 | `String(n)` of a natural number is a non-empty string of digits. |
| Text.ParseDecimalOfDecimal | src/lib/bharatGuardianEngine.ts:699 | Reading the decimal form of n back gives n. |
| Text.DecimalLength | src/lib/bharatGuardianEngine.ts:779 | A number below 10^k has at most k digits. |
| Text.ParseDecimalIgnoresLeadingZeros | src/lib/roadGuardianEngine.ts:325 | Zero padding does not change the value of a digit string. |
| Text.PadStart | src/lib/roadGuardianEngine.ts:325 | The result is as long as the longer of the string and the width. It ends with the string, and every character before it is the pad character. |
| Text.PaddedNumber | src/lib/bharatGuardianEngine.ts:699 | `String(n).padStart(w, '0')` for n < 10^w has exactly w digits, and they read back as n. |
| Text.LowerIsNew | src/lib/roadGuardianEngine.ts:324 | `id.toLowerCase() === 'new'` holds exactly when the id has three characters, n or N, then e or E, then w or W. |
| Text.ResolveId | src/lib/roadGuardianEngine.ts:324-326 | The empty id and the eight case spellings of 'new' (n/N, e/E, w/W) are replaced by the generated id. Every other id is kept verbatim. |
| Text.SentinelSpellings | src/lib/bharatGuardianEngine.ts:698-700 | 'NEW', 'New', 'nEw' and '' are replaced; 'NEWS-1' and 'PH-001' are kept. |
| BharatRoad.HasRoadDuplicate | src/lib/bharatGuardianEngine.ts:28-32 | The `some` scan holds iff some existing record satisfies the duplicate predicate. |
| BharatRoad.RunRoadDetectionAgent | src/lib/bharatGuardianEngine.ts:27-55 | Warning with the duplicate message iff some existing pothole has another id, the same city and a location equal ignoring case; otherwise info with the new-pothole message carrying the monsoon note. |
| BharatRoad.RoadDuplicateExamples | src/lib/bharatGuardianEngine.ts:28-32 | A record never duplicates itself. Another id with the location upper-cased is a duplicate. The same record in another city is not. |
| BharatRoad.RoadSameIdNeverDuplicate | src/lib/bharatGuardianEngine.ts:31 | Records that all carry the pothole's own id never make it a duplicate. |
| BharatRoad.RunRoadTrackingAgent | src/lib/bharatGuardianEngine.ts:58-83 | The severity rank equals the SLA rank: success, warning or danger for on track, at risk or breached. The message carries the stage and the SLA status. |
| BharatRoad.RunRoadQualityAgent | src/lib/bharatGuardianEngine.ts:112-145 | Danger iff the recurrence test holds; success iff there were no previous repairs; warning otherwise. Each status comes with its own message. |
| BharatRoad.RunRoadTransparencyAgent | src/lib/bharatGuardianEngine.ts:148-173 | Always info, with a citizen update keyed on the status. |
| BharatRoad.RunRoadContractorAgent | src/lib/bharatGuardianEngine.ts:86-109 | The status is the score band. The message is excellent, moderate or poor by band. The result equals the specification `RoadContractorAnalysis`. |
| BharatRoad.UnfoldRoadIssues | src/lib/bharatGuardianEngine.ts:177-201 | The issue list is breach or at-risk, then underperforming, then repeat failure, then monsoon, each iff its condition holds. |
| BharatRoad.RunRoadAlertAgent | src/lib/bharatGuardianEngine.ts:176-221 | The message lists the issues in push order, or is all-clear iff no condition holds. Danger iff breached or the recurrence test holds. Warning iff not danger and (at risk or score < 60). The monsoon issue never raises the status. The result equals the specification `RoadAlertAnalysis`. |
| BharatRoad.GenerateRoadTimeline | src/lib/bharatGuardianEngine.ts:224-271 | One event per stage reached, labelled with that stage. Each is dated at the report date plus 0, 1, 2, daysOpen−1 or daysOpen days. Only the first event carries the project tag. The list equals the specification `RoadTimeline`. |
| BharatRoad.GenerateRoadAlerts | src/lib/bharatGuardianEngine.ts:274-324 | The alerts pushed are exactly the specification list `RoadAlerts`. |
| BharatRoad.UnfoldRoadAlerts | src/lib/bharatGuardianEngine.ts:274-324 | The alert list is the breach alert, then the performance alert, then the quality alert, each present iff its condition holds. |
| BharatRoad.RoadAlertsShape | src/lib/bharatGuardianEngine.ts:274-324 | At most 3 alerts. Delay iff breached (no at-risk alert in this variant); performance iff score < 60; quality iff the recurrence test holds. Severities are critical/high/high, with ids `alert-sla-<id>`, `alert-perf-<contractor>` and `alert-quality-<id>`. |
| BharatRoad.RoadAgentsAgreeWithAlerts | src/lib/bharatGuardianEngine.ts:58-145 | The tracking, scoring and quality agents are in danger exactly when the delay, performance and quality alerts are raised. |
| BharatRoad.LookupRoadContractor | src/lib/bharatGuardianEngine.ts:718-737 | An exact-name hit returns the seeded record; otherwise it returns the default, scored 70, under the given name. The result always carries the name asked for. |
| BharatRoad.OnlyOneRoadContractorUnderperforms | src/lib/bharatGuardianEngine.ts:718-727 | Only 'Municipal Corporation Works' gets a score below 60. |
| BharatRoad.GeneratedPotholeId | src/lib/bharatGuardianEngine.ts:698-700 | The id is `PH-`, then each of the state's first two characters upper-cased, `-`, each of the city's first three characters upper-cased, `-`, and four digit characters. Its length follows, and the four digits read back as the random suffix. |
| BharatRoad.NormalizeRoadForm | src/lib/bharatGuardianEngine.ts:694-714 | The record keeps the form's fields. The id is resolved against the generated one. daysOpen ≥ 1 is counted from the report date, and the SLA status is derived from daysOpen and the SLA. |
| BharatRoad.AnalyzeWithRoadGuardian | src/lib/bharatGuardianEngine.ts:672-752 | The report holds the normalised record and the looked-up contractor. The agent list is exactly, in source order, the detection, tracking, contractor (`RoadContractorAnalysis`), quality, transparency and alert (`RoadAlertAnalysis`) analyses of that record, so every agent's status and message is the one its own contract states. The timeline is `RoadTimeline` of the record (milestone stages and dates, project tag on the first event), with one event per stage reached. The alerts are `RoadAlerts`. |
| BharatRoad.BreachedAssignedScenario | src/lib/bharatGuardianEngine.ts:274-290 | An assigned pothole open 12 days on a 7-day SLA is breached. It raises exactly one delay alert, which is critical, and the tracking agent is in danger. |
| PhantomX.CalculatePhantomStock | src/lib/bharatGuardianEngine.ts:330-333 | 0 iff actual is absent or ≥ reported. Otherwise the result times reported equals (reported − actual)·100, and it lies in (0, 100] when 0 ≤ actual. |
| PhantomX.PhantomStockAntitone | src/lib/bharatGuardianEngine.ts:330-333 | A smaller physical count never gives a smaller phantom share. |
| PhantomX.PhantomStockExamples | src/lib/bharatGuardianEngine.ts:330-333 | The results are (100,100) → 0, (100,80) → 20, (100,120) → 0, (100, absent) → 0 and (1000,0) → 100. |
| PhantomX.RiskTier | src/lib/bharatGuardianEngine.ts:353-356 | Low iff score < 3; high iff 5 ≤ score < 7; critical iff score ≥ 7. |
| PhantomX.CalculateDisruptionRisk | src/lib/bharatGuardianEngine.ts:335-357 | The accumulated score is the sum of the five band functions, and the result is its tier. |
| PhantomX.RiskScoreBounds | src/lib/bharatGuardianEngine.ts:335-357 | The score always lies in [0, 11], and 11 is reached. |
| PhantomX.RiskTierMonotone | src/lib/bharatGuardianEngine.ts:353-356 | The tiers are ordered like the scores. |
| PhantomX.RiskMonotone | src/lib/bharatGuardianEngine.ts:338-351 | A supplier at least as bad on every band never gets a lower score or tier. The bands are phantom %, utilization, lead time, status points and tier 1. |
| PhantomX.RiskEscalation | src/lib/bharatGuardianEngine.ts:347-351 | Moving active → at_risk → disrupted, or becoming tier 1, never lowers the tier. |
| PhantomX.RiskExamples | src/lib/bharatGuardianEngine.ts:335-357 | A disrupted supplier is never low. A tier-1 supplier at 35% / 96% / 15 days and disrupted is critical. A healthy active supplier is low. |
| PhantomX.HasSupplierDuplicate | src/lib/bharatGuardianEngine.ts:361-363 | The `some` scan holds iff some existing record has the same name and city under another id. |
| PhantomX.RunPhantomIngestionAgent | src/lib/bharatGuardianEngine.ts:360-384 | Warning with the duplicate message iff a duplicate exists; otherwise info, registered. |
| PhantomX.SupplierDuplicateExamples | src/lib/bharatGuardianEngine.ts:361-363 | A record never duplicates itself, and the same name and city under another id is a duplicate. The name match is exact, so a different letter case is a new supplier. |
| PhantomX.RunPhantomTrackingAgent | src/lib/bharatGuardianEngine.ts:387-412 | Danger iff disrupted or blacklisted; warning iff at risk; info iff resolved; success iff active. |
| PhantomX.RunPhantomPredictionAgent | src/lib/bharatGuardianEngine.ts:415-445 | Danger iff critical; warning iff medium or high; success iff low. |
| PhantomX.RunPhantomValidationAgent | src/lib/bharatGuardianEngine.ts:448-479 | Danger iff phantom > 20%; warning iff 10% < phantom ≤ 20%; success iff ≤ 10%. The icon is check-circle with the contractor colour exactly on success, and alert-octagon with the alert colour otherwise. |
| PhantomX.RunPhantomScoringAgent | src/lib/bharatGuardianEngine.ts:482-505 | The status is the score band, and the message is excellent, moderate or poor by band. The result equals the specification `ScoringAnalysis`. |
| PhantomX.RunPhantomTransparencyAgent | src/lib/bharatGuardianEngine.ts:508-530 | Always info. Action is required iff the risk is high or critical. |
| PhantomX.RunPhantomAlertAgent | src/lib/bharatGuardianEngine.ts:533-578 | Issues are listed in push order, or all-clear iff none holds. Danger iff phantom > 20% or critical risk. Warning iff not danger and (high risk or score < 60). The capacity issue never raises the status. The bell icon and success colour appear exactly on all-clear. The result equals the specification `SupplyAlertAnalysis`. |
| PhantomX.UnfoldSupplyIssues | src/lib/bharatGuardianEngine.ts:533-561 | The issue list is phantom, then disruption (imminent or high), then underperforming, then capacity, each iff its condition holds. |
| PhantomX.GenerateSupplyTimeline | src/lib/bharatGuardianEngine.ts:581-611 | The events pushed are exactly the specification list `SupplyTimeline`. |
| PhantomX.UnfoldSupplyTimeline | src/lib/bharatGuardianEngine.ts:581-611 | The timeline has the audit event, then the discrepancy event iff phantom > 10%, then the status event iff the supplier is at risk or disrupted. |
| PhantomX.SupplyTimelineShape | src/lib/bharatGuardianEngine.ts:581-611 | The timeline has 1 to 3 events, and the first is the audit at the audit date. A discrepancy event appears iff phantom > 10%, one day after the audit. A status event appears iff the supplier is at risk or disrupted, dated now. Every event is tagged phantom_x. |
| PhantomX.GenerateSupplyAlerts | src/lib/bharatGuardianEngine.ts:614-665 | The alerts pushed are exactly the specification list `SupplyAlerts`. |
| PhantomX.UnfoldSupplyAlerts | src/lib/bharatGuardianEngine.ts:614-665 | The alert list is phantom, then disruption, then capacity, each iff its condition holds. |
| PhantomX.SupplyAlertsShape | src/lib/bharatGuardianEngine.ts:614-665 | At most 3 alerts: phantom_stock/critical iff phantom > 20%; disruption/critical iff the risk is critical; capacity/high iff utilization > 95. Each has its derived id. The capacity alert has no city or state. |
| PhantomX.SupplyAlertsMonotone | src/lib/bharatGuardianEngine.ts:614-665 | A supplier with the same identity that satisfies at least the same conditions raises every alert the first one does. It raises strictly more when one more condition holds. |
| PhantomX.SupplyAgentsAgreeWithAlerts | src/lib/bharatGuardianEngine.ts:448-665 | The validation and prediction agents are in danger exactly when the phantom and disruption alerts are raised. The capacity issue is listed exactly when the capacity alert is raised. |
| PhantomX.Round | src/lib/bharatGuardianEngine.ts:820 | `Math.round` returns the integer within half of x, rounding halves up. |
| PhantomX.Ceil | src/lib/bharatGuardianEngine.ts:822 | `Math.ceil` returns the least integer ≥ x. |
| PhantomX.IncidentCount | src/lib/bharatGuardianEngine.ts:822 | 0 when phantom ≤ 10%. Otherwise ceil(p/5), which is at least 3, satisfies p ≤ 5·r < p + 5, and is at most 20 when p ≤ 100. |
| PhantomX.OrderCounts | src/lib/bharatGuardianEngine.ts:823-824 | Corrected: the total is in [100, 600), and the fulfilled count is in [⌊3/4 of the total⌋, total). |
| PhantomX.OrderCountsAsWritten | src/lib/bharatGuardianEngine.ts:823-824 | As written, the total is in [100, 600), and the fulfilled count is non-negative but not bounded by the total. |
| PhantomX.OrdersCanExceedTotal | src/lib/bharatGuardianEngine.ts:823-824 | The draws 0, 0.5, 0.99 report 505 fulfilled of 100 orders. |
| PhantomX.ScoreSupplier | src/lib/bharatGuardianEngine.ts:807-824 | The score is 80 minus the phantom, status and capacity deductions. It lies in [30, 80], so the clamp never changes it. Accuracy is round(100 − p), within [0, 100] for p in [0, 100]. Delivery is 75 iff lead time > 7, else 85. Incidents come from `IncidentCount`. The order counts are the corrected `OrderCounts`, so fulfilled < total; the code as written does not keep that (see Findings). The record equals the specification `SupplierScoreFor`. |
| PhantomX.SupplierScoreAntitone | src/lib/bharatGuardianEngine.ts:807-815 | A larger phantom share, a worse status or a higher utilization never raises the score. |
| PhantomX.SupplierScoreBands | src/lib/bharatGuardianEngine.ts:807-815 | Over 20% phantom on a disrupted supplier is always poor. An active supplier with ≤ 10% phantom is never poor, and with ≤ 5% phantom and ≤ 95% utilization it is excellent. |
| PhantomX.GeneratedSupplierId | src/lib/bharatGuardianEngine.ts:778-780 | The id is `SUP-`, then each of the state's first two characters upper-cased, `-`, and four digit characters that read back as the suffix. |
| PhantomX.BaseSupplier | src/lib/bharatGuardianEngine.ts:778-802 | The record keeps the form's fields. The id is resolved, the phantom share is computed, and the provisional risk is low. |
| PhantomX.RunPhantomAgents | src/lib/bharatGuardianEngine.ts:827-835 | The agent list is exactly, in source order, the ingestion, tracking, prediction, validation, scoring (`ScoringAnalysis`), transparency and alert (`SupplyAlertAnalysis`) analyses of the final record and score. |
| PhantomX.AnalyzeWithPhantomX | src/lib/bharatGuardianEngine.ts:755-841 | The record is the base supplier with its risk tier filled in. The score record is `SupplierScoreFor` that record's phantom share: the deduction score, round(100 − p) accuracy, delivery 75 or 85 by lead time, `IncidentCount(p)` incidents and the corrected `OrderCounts`. The agent list is exactly the seven analyses of `RunPhantomAgents` on the final record and score. The timeline is `SupplyTimeline` and the alerts are `SupplyAlerts` of the final record. |
| RoadGuardian.HasDuplicate | src/lib/roadGuardianEngine.ts:21-23 | The `some` scan holds iff some existing record has another id and a location equal ignoring case. |
| RoadGuardian.RunDetectionAgent | src/lib/roadGuardianEngine.ts:20-42 | Warning iff a duplicate exists (city plays no part); otherwise info. |
| RoadGuardian.DuplicateExamples | src/lib/roadGuardianEngine.ts:21-23 | A record never duplicates itself. Any other record at the same location in capitals is a duplicate. |
| RoadGuardian.DuplicateMonotone | src/lib/roadGuardianEngine.ts:21-23 | Extending the list of existing records never withdraws a duplicate verdict. |
| RoadGuardian.RunTrackingAgent | src/lib/roadGuardianEngine.ts:45-69 | The severity rank equals the SLA rank. |
| RoadGuardian.RunQualityAgent | src/lib/roadGuardianEngine.ts:97-127 | Danger iff the recurrence test holds; success iff there were no previous repairs; warning otherwise. |
| RoadGuardian.RunTransparencyAgent | src/lib/roadGuardianEngine.ts:130-148 | Always info, with the citizen update for the status. |
| RoadGuardian.RunContractorAgent | src/lib/roadGuardianEngine.ts:72-94 | Score ≥ 80, ≥ 60 and < 60 give success, warning and danger, each with its own message. The result equals the specification `ContractorAnalysis`. |
| RoadGuardian.UnfoldIssues | src/lib/roadGuardianEngine.ts:151-171 | The issue list is breach or at-risk, then underperforming, then repeat failure, each iff its condition holds. |
| RoadGuardian.RunAlertAgent | src/lib/roadGuardianEngine.ts:151-190 | Success with the no-issues message iff no condition fires. Danger iff breached or the recurrence test holds, whatever the score. Warning iff not danger and (at risk or score < 60). The result equals the specification `AlertAnalysis`. |
| RoadGuardian.LowScoreAddsOneIssue | src/lib/roadGuardianEngine.ts:163-166 | A score below 60 adds exactly the underperforming issue and keeps every other issue. |
| RoadGuardian.GenerateTimeline | src/lib/roadGuardianEngine.ts:193-239 | One event per stage reached, each dated at the report date plus 0, 1, 2, daysOpen−1 or daysOpen days. The list equals the specification `Timeline`. |
| RoadGuardian.GenerateAlerts | src/lib/roadGuardianEngine.ts:242-296 | The alerts pushed are exactly the specification list `Alerts`. |
| RoadGuardian.UnfoldAlerts | src/lib/roadGuardianEngine.ts:242-296 | The alert list is the delay alert iff not on track, then performance, then quality, each iff its condition holds. |
| RoadGuardian.AlertsShape | src/lib/roadGuardianEngine.ts:242-296 | At most 3 alerts, including at most one delay alert. The delay alert is critical with `alert-sla-` exactly when breached, high with `alert-risk-` exactly when at risk, and absent when on track. Performance iff score < 60 and quality iff the recurrence test holds, both high. No safety alert. |
| RoadGuardian.AtRiskDaysRemainingPositive | src/lib/roadGuardianEngine.ts:257-263 | With the SLA status derived from the record, the days remaining quoted by the at-risk alert lie in [1, SLA − 1]. |
| RoadGuardian.LookupContractor | src/lib/roadGuardianEngine.ts:343-359 | An exact-name hit returns the seeded record; otherwise it returns the default, scored 70, under the given name. |
| RoadGuardian.OnlyQuickFixUnderperforms | src/lib/roadGuardianEngine.ts:343-359 | Only 'QuickFix Contractors' scores below 60, and an unknown name is rated moderate. |
| RoadGuardian.GeneratedId | src/lib/roadGuardianEngine.ts:324-326 | The id is `PH-`, then the digits of the year, `-`, and three digit characters. The year and the suffix read back from their positions. |
| RoadGuardian.NormalizeForm | src/lib/roadGuardianEngine.ts:319-340 | The record keeps the form's fields. The id is resolved, daysOpen ≥ 1, and the SLA status is derived. |
| RoadGuardian.AnalyzeWithRoadGuardian | src/lib/roadGuardianEngine.ts:299-382 | The report holds the normalised record and the looked-up contractor. The agent list is exactly, in source order, the detection, tracking, contractor (`ContractorAnalysis`), quality, transparency and alert (`AlertAnalysis`) analyses of that record. The timeline is `Timeline` of the record (milestone stages and dates), with one event per stage reached. The alerts are `Alerts`. |

## Left out

- Narrative text is not modelled: the message strings, `toFixed`, `toLocaleString`, `replace('_', ' ')` and the description and title fields of events and alerts. Each is replaced by the message kind or the values it is built from. The at-risk alert's remaining-days figure is kept as a field.
- Dates: `new Date()` and date parsing are parameters (`nowMs`, `year`), and dates are milliseconds. `pothole.dateReported \|\| new Date()` is modelled as the report date, which the engines always set.
- Randomness: the id suffixes and order-count draws are parameters in their documented ranges.
- Floating point: the phantom share, `Math.round`, `Math.ceil` and `Math.floor` are exact over `real`. IEEE rounding, NaN and Infinity are not modelled. Where a rounding error lands on a threshold the model and the program differ: for reported 100 and actual 45 the IEEE share is 55.00000000000001, so the program's `Math.ceil(p / 5)` is 12 while `IncidentCount` gives 11; for reported 200 and actual 89 the program's `Math.round(100 - p)` is 44 while the model gives 45.
- Case mapping is ASCII only. Unicode case mapping beyond A–Z is not modelled.
- CalculateSlaStatus: requires a positive SLA. Neither engine guards the SLA: zero divides by zero, and a negative SLA gives a negative ratio, so both engines return 'on_track'. The model leaves both cases out; the form enforces a minimum of 1.
- CalculatePhantomStock: requires a non-zero reported figure whenever the division is reached. The code has no guard, and the result on 0 would be Infinity or NaN.
- LookupRoadContractor, LookupContractor: the tables are keyed on the seeded names only. A name such as 'toString' or 'constructor' indexes the JavaScript object's prototype; the program then reads `.score` as undefined and the contractor agent reports danger, while the model returns the default record scored 70. The contractor comes from a fixed selection list in the form, so such a name does not reach the engines.
- `monsoonImpact?` is modelled as a boolean, absent meaning false; only its truthiness is read.
- GenerateSupplyAlerts: the source's unused `supplierScore` parameter is omitted.
- OrderCounts: the model uses the corrected fulfilled count (see Findings). The two-draw expression as written is `OrderCountsAsWritten`.
- ScoreSupplier: its order counts are the corrected `OrderCounts`, so its "fulfilled < total" holds of the intended program, not of bharatGuardianEngine.ts:824 as written.
- AnalyzeWithPhantomX: the score record it returns carries the corrected order counts, as `ScoreSupplier` does.
- The dashboard, components and page state are outside the engines and are not part of this model.

## Findings

| source | as written | input that shows it | evidently intended | confidence | as-written member | corrected member |
|---|---|---|---|---|---|---|
| src/lib/bharatGuardianEngine.ts:823-824 | `fulfilledOrders` multiplies the rate by a second, independent `Math.floor(Math.random() * 500) + 100` instead of `totalOrders`. The scorecard shows "fulfilled of total", and the fulfilled count can exceed the total. | Draws 0, 0.5, 0.99 give 100 total orders and 505 fulfilled. | fulfilled = floor(rate · totalOrders), with rate in [0.75, 0.95), so fulfilled < total. | not executed | PhantomX.OrdersCanExceedTotal | PhantomX.OrderCounts |
