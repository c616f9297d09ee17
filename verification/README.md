# Cloud-ops tool: verified core

A Dafny model of the parts of the cloud operations tool that carry real state,
protocol or arithmetic, with proofs of what they keep. `dafny verify
dfyconfig.toml` checks the whole project.

| module | what it models |
|---|---|
| `TenantIsolation` | row-level security, the transaction wrapper, and non-interference between tenants over whole schedules |
| `Wire`, `EventBus`, `BusInvariant`, `Delivery`, `Dispatcher` | notification row, event row, stream entry, consumer group and dispatcher as one state machine with failures and crashes; what a crash loses; the services on it |
| `Pace`, `Alerts`, `PaceCheck`, `Announcements`, `PaceService`, `PaceExamples` | budget pace and its tiers; the alert table; any number of overlapping checks, their locks, nested commits and notifications |
| `Recommendations` | the rightsizing sweep, tickets raised from recommendations, the savings log |
| `Sums`, `Regression` | least squares over monthly totals |
| `Grouping`, `MonthEnd` | the weekday-weighted month-end forecast |
| `Billing`, `Tags`, `Allocation`, `Anomaly` | the billing upsert, tag normalisation, allocation by tag, daily spend anomalies |
| `SpanTree` | linking and flattening the spans of a trace, cycles included |
| `Numerals`, `SqlText`, `SqlBuilder`, `Settings` | UPDATE statements built field by field with positional parameters: their text, how the database reads it, what it does |
| `CpuSample` | CPU counters summed in a wrapping 64-bit register |

How it is written:

- Code that changes tables or fields in place is a class whose methods are
  proved against functions of the old state. Safety over runs is proved of a
  `Step`/`Apply`/`Run` state machine whose invariant every step keeps, and
  `EnqueuedIsRun`, `PublishedIsRun`, `HandledIsRun`, `ConsumedIsRun`,
  `ConsumeBatch` and `CheckIsRun` show that what the methods leave behind is a
  run of it.
- Every failure outside the program's control (a lost connection, a failed
  COMMIT, a send that rejects, a crash between two commits) is a parameter or a
  step, so each theorem covers every combination of them.
- Amounts are `real`. `Math.sqrt` is any function `s` with `s(v) >= 0` and
  `s(v) * s(v) == v` for `v >= 0`.

Four properties one might expect do not hold of the code. Each is stated with
the exact condition under which it does, and a concrete run or input shows that
the failure occurs:

- A durable consumer is documented as never missing an event across restarts
  (`apps/api/src/event-bus/event-bus.service.ts:82-86`). The loop only reads new
  entries, so an entry a crashed consumer had read, or a handler threw on, stays
  pending for good. `PendingCanBeAckedIffHeld`: a delivered entry can still be
  acknowledged if and only if some consumer still holds it; `OrphanedForever`
  adds that its notification never changes again, and `OrphanExample` is such a
  run.
- A budget whose alert opens or gets worse is not always announced first.
  `NoticesCountRises` accounts for every stream entry and every rise in every
  run. The unannounced rises are those without a channel, those of a check that
  another check of the same budget overtook (`OvertakenIff`,
  `OvertakenExample`; never while the checks of a budget run one at a time,
  `SerialNeverOvertaken`), and acknowledgements that land on an alert resolved
  since it was looked up (`ReactivationIff`, `ReactivationExample`).
- Span indentation is the number of ancestors if and only if no listed span
  comes before a parent that is not a root (`DepthsRightIff`); otherwise it is
  too shallow, never too deep (`NeverTooDeep`, `ShallowExample`).
- Ticket creation is idempotent for serial calls only. A linked ticket is final
  if and only if no other creation for the same recommendation is under way
  (`TicketStableIff`); `OverlappingExample` reaches a state where one is.

Three more exact boundaries: lowering earlier spend never clears an anomaly
flag if and only if the percentage threshold is at most 1000
(`LessPriorStaysFlaggedIff`); a session reads only its own rows if and only if
the public-read flag is unset (`PrivateExactlyWithoutFlag`); and the register
difference of two CPU samples is the true growth if and only if that growth
fits in 64 bits (`GrowthExactIff`).

## Model

| member | source | states |
|---|---|---|
| `TenantIsolation.OwnStatement` | apps/api/src/database/migrations/1783945249566-CreateFoundationSchema.ts:110-119 | a statement of a tenant is denied, replies and writes exactly as it would on a database holding only that tenant's rows |
| `TenantIsolation.OtherStatement` | apps/api/src/database/migrations/1783945249566-CreateFoundationSchema.ts:110-119 | no statement of any other session, with or without the public-read flag, changes a tenant's rows |
| `TenantIsolation.UpdateExactly` | apps/api/src/database/migrations/1783945249566-CreateFoundationSchema.ts:110-119 | an UPDATE is refused if and only if it would give an addressed row away; otherwise exactly the addressed rows become what it sets, every other row stays, and the count is right |
| `TenantIsolation.DeleteAndSelectExactly` | apps/api/src/database/migrations/1783945249566-CreateFoundationSchema.ts:110-119 | a DELETE takes every occurrence of an addressed row and no other; a SELECT returns every occurrence of a readable row it asks for and changes nothing |
| `TenantIsolation.FlagOpensPublicPages` | apps/api/src/database/migrations/1784410000000-CreateStatusPages.ts:80-90 | the opt-in writes nothing and makes exactly the public status pages readable besides the session's own rows |
| `TenantIsolation.NonInterference` | apps/api/src/database/context/tenant-context.ts:9-31 | for every schedule of transactions with failures in it, a tenant's final rows and every outcome it sees equal those of the run with only its own transactions on only its own rows |
| `TenantIsolation.CommittedIsDurable` | apps/api/src/database/context/tenant-context.ts:16-24 | a committed transaction leaves the database its statements lead to one after the other, and returns their replies |
| `TenantIsolation.DeniedIsUndone` | apps/api/src/database/context/tenant-context.ts:25-27 | one denied statement undoes everything the transaction wrote before it |
| `TenantIsolation.InsertedIsRead` | apps/api/src/database/context/tenant-context.ts:9-31 | a row inserted by a committed transaction is read back by a later one of the same tenant |
| `TenantIsolation.PrivateExactlyWithoutFlag` | apps/api/src/database/migrations/1784410000000-CreateStatusPages.ts:70-90 | a session's reads stay within its own rows if and only if the public-read flag is unset |
| `TenantIsolation.PublicReadExactly` | apps/api/src/modules/monitoring/status-pages/status-pages.service.ts:194-218 | the anonymous lookup writes nothing, throws if it is lost, and otherwise returns exactly the public status pages it asks for |
| `TenantIsolation.BareQueryIsBlind` | apps/api/src/database/migrations/1783945249566-CreateFoundationSchema.ts:115-117 | outside a tenant transaction no row is read, updated or deleted, and every insert is denied |
| `TenantIsolation.Connection.WithTenantContext` | apps/api/src/database/context/tenant-context.ts:9-31 | the transaction returns if and only if the work returns and COMMIT succeeds; then the table is what the work leads to, otherwise what it was; the connection goes back with no session settings |
| `Wire.ParseFields` | apps/api/src/event-bus/event-bus.service.ts:162-174 | the map-filling loop gives every key its last value, none to a last key without one, and throws exactly when there is no payload |
| `Wire.ParseInvertsXadd` | apps/api/src/event-bus/event-bus.service.ts:52-65 | parsing the field list XADD stores gives back the published message, every field defined |
| `BusInvariant.StepKeepsInv` | apps/api/src/event-bus/event-bus.service.ts:115-160 | every publish, read, handle, acknowledge, failure and crash step keeps the invariant tying tables, stream, group, consumers, sends and statuses together |
| `BusInvariant.RunKeepsInv` | apps/api/src/event-bus/event-bus.service.ts:115-160 | the invariant holds in every reachable state |
| `BusInvariant.SentAtMostOnce` | apps/api/src/notifications/notification-dispatcher.service.ts:60-115 | in every run, `send` is invoked at most once per notification, although the dispatcher never tests the row's status |
| `BusInvariant.StreamIsRecorded` | apps/api/src/event-bus/event-bus.service.ts:35-65 | every stream entry has its matching event row, and every request its notification row in the same tenant |
| `BusInvariant.GroupPartition` | apps/api/src/event-bus/event-bus.service.ts:121-158 | the entries of a group split exactly into acknowledged, pending and not yet delivered |
| `BusInvariant.StatusesTellTheTruth` | apps/api/src/notifications/notification-dispatcher.service.ts:65-113 | an acknowledged request is `sent` or `failed`, so a queued notification's event is never acknowledged; `sent` implies that `send` resolved on a real channel |
| `Delivery.OrphanedForever` | apps/api/src/event-bus/event-bus.service.ts:124-158 | an entry no consumer holds any more is never acknowledged by any later run, and its notification keeps its status |
| `Delivery.PendingCanBeAckedIffHeld` | apps/api/src/event-bus/event-bus.service.ts:76-160 | some run acknowledges a pending entry if and only if a consumer still holds it |
| `Delivery.OrphanExample` | apps/api/src/event-bus/event-bus.service.ts:124-158 | a consumer that crashes after reading leaves a reachable state whose entry no run acknowledges and whose notification is queued |
| `Delivery.LeadsKeepsInv` | apps/api/src/event-bus/event-bus.service.ts:115-160 | whatever a service leaves behind as a run keeps the invariant |
| `Dispatcher.PublishedIsRun` | apps/api/src/event-bus/event-bus.service.ts:31-74 | publishing any other event, whether or not the append succeeds, is a run of the state machine |
| `Dispatcher.EnqueuedIsRun` | apps/api/src/notifications/notifications.service.ts:31-60 | an enqueue, wherever it stops, is a run of the state machine |
| `Dispatcher.HandledIsRun` | apps/api/src/notifications/notification-dispatcher.service.ts:60-115 | handling one event, whatever fails, is a run of the state machine |
| `Dispatcher.HandledDispatches` | apps/api/src/notifications/notification-dispatcher.service.ts:60-127 | a rendered notification on a registered channel is sent once; it ends `sent` if and only if the channel is email, slack, webhook, sms or voice, the send resolves and the UPDATE succeeds, else `failed`; a failed commit keeps the row and the sending; any other event does nothing |
| `Dispatcher.ConsumedIsRun` | apps/api/src/event-bus/event-bus.service.ts:148-158 | taking one entry of a batch from start to acknowledgement or error is a run of the state machine |
| `Dispatcher.ConsumedAdvances` | apps/api/src/event-bus/event-bus.service.ts:148-158 | one entry leaves stream, cursor and requests alone, drops the head of the batch, and is acknowledged exactly when its handler and the acknowledgement succeed |
| `Dispatcher.Bus.Publish` | apps/api/src/event-bus/event-bus.service.ts:31-74 | the event row is committed with its own fields; the entry follows if the append succeeds and nothing else changes |
| `Dispatcher.Bus.Enqueue` | apps/api/src/notifications/notifications.service.ts:31-60 | the queued row, then the event row, then the entry, for each point the call can stop at |
| `Dispatcher.Bus.HandleEvent` | apps/api/src/notifications/notification-dispatcher.service.ts:60-127 | the same of the method, spelled out by channel, rendering, sending, UPDATE and commit, and that it throws only on a failed commit |
| `Dispatcher.Bus.ConsumeOne` | apps/api/src/event-bus/event-bus.service.ts:148-158 | the tables and sends after one entry are those of dispatching its message, the head is dropped, and it is acknowledged only after a resolved handler |
| `Dispatcher.Bus.ConsumeBatch` | apps/api/src/event-bus/event-bus.service.ts:121-158 | one turn of the loop is a run of the state machine, so tables, sends and statuses stay as runs keep them; the acknowledged entries are the old ones and exactly those of the batch whose handling and acknowledgement succeeded |
| `Pace.SeverityMonotone` | apps/api/src/modules/cost/cost-pace.ts:47-61 | for any thresholds, more month-to-date spend never lowers the severity |
| `Pace.TiersExactly` | apps/api/src/modules/cost/cost-pace.ts:44-61 | projection times elapsed days is spend times days of the month; critical if and only if a set budget is exceeded or 100(P-B) >= critical*B, warning if and only if not critical and 100(P-B) >= warning*B, info if and only if neither and 100(P-B) >= 10B |
| `Pace.ResultExactly` | apps/api/src/modules/cost/cost-pace.ts:39-45 | there is a result if and only if a day has elapsed and the budget, or without one last month, is positive |
| `Pace.RanksRise` | apps/api/src/modules/cost/cost-pace-check.service.ts:151-153 | no alert ranks below info, info below warning, warning below critical |
| `Alerts.WriteMoves` | apps/api/src/modules/cost/cost-pace-check.service.ts:129-157 | a write whose reading still holds puts the budget at the verdict, any other leaves every standing alone; one active alert per budget either way |
| `Alerts.CheckSettles` | apps/api/src/modules/cost/cost-pace-check.service.ts:123-162 | after an uninterrupted check an alert is active if and only if the verdict has a severity, with that severity; no other budget moves; it announces exactly when the budget stands worse |
| `Alerts.CheckRewrites` | apps/api/src/modules/cost/cost-pace-check.service.ts:123-162 | row by row: the active alert of the budget is resolved or takes the severity, without one an open alert is added if there is a severity, every other row stays |
| `PaceCheck.StepKeepsInv` | apps/api/src/modules/cost/cost-pace-check.service.ts:123-162 | every step of any number of overlapping checks and outside calls keeps one active alert per budget, the locks, and that only a notice goes past the write |
| `PaceCheck.WrittenRowIsLocked` | apps/api/src/modules/cost/cost-pace-check.service.ts:130-157 | a row a check has written changes for no other check or call until that check ends |
| `PaceCheck.AtMostOneActive` | apps/api/src/database/migrations/1784140000000-CreateCostBudgetsAndAlertsExtension.ts:62-63 | in every reachable state a budget has at most one active alert |
| `PaceCheck.CommitSettlesIff` | apps/api/src/modules/cost/cost-pace-check.service.ts:123-162 | among overlapping checks and outside calls, a committed check leaves its budget at the verdict if and only if what it read still holds or the budget stood there already; no other budget moves |
| `Announcements.NoticesCountRises` | apps/api/src/modules/cost/cost-pace-check.service.ts:123-196 | in every run, with no condition on configuration or interleaving, the entries about a budget number exactly the announced rises, the false alarms and the open announced checks, and the rises exactly the announced and the three unannounced kinds |
| `Announcements.AnnouncedBeforeCommitted` | apps/api/src/modules/cost/cost-pace-check.service.ts:141-162 | at every point of every run with failures and crashes, every committed rise other than those three kinds already has its own entry in the stream |
| `Announcements.OvertakenIff` | apps/api/src/modules/cost/cost-pace-check.service.ts:151-160 | a check of a notifiable budget commits an unannounced rise if and only if its alert is active and stands below a verdict that is no higher than what the check read |
| `PaceCheck.OutsideCallExactly` | apps/api/src/modules/monitoring/alerts.service.ts:48-120 | a call nobody gets in the way of acknowledges an open alert or resolves an active one and changes nothing else |
| `PaceCheck.LateResolution` | apps/api/src/modules/monitoring/alerts.service.ts:94-120 | a resolution that lands on a resolved alert changes nothing |
| `Announcements.ReactivationIff` | apps/api/src/modules/monitoring/alerts.service.ts:94-120 | an outside call raises a budget if and only if it acknowledges an alert that has been resolved since it was looked up |
| `Announcements.FalseAlarmIff` | apps/api/src/modules/cost/cost-pace-check.service.ts:141-162 | an announced check raises nothing if and only if it fails, or its alert was resolved or raised as far meanwhile |
| `Announcements.SerialNeverOvertaken` | apps/api/src/modules/cost/cost-pace-check.service.ts:56-66 | while the checks of a budget do not overlap, none of its rises goes unannounced by being overtaken |
| `PaceExamples.OvertakenExample` | apps/api/src/modules/cost/cost-pace-check.service.ts:151-160 | two overlapping checks leave a budget back at critical with nothing in the stream |
| `PaceExamples.ReactivationExample` | apps/api/src/modules/monitoring/alerts.service.ts:94-120 | an acknowledgement overtaken by a check leaves a resolved alert active again with nothing in the stream |
| `Announcements.NoticesWithinChecks` | apps/api/src/modules/cost/cost-pace-check.service.ts:171-171 | there are never more entries about a budget than checks that found a channel and a recipient, so none without one |
| `PaceService.CheckIsRun` | apps/api/src/modules/cost/cost-pace-check.service.ts:123-163 | a check nobody gets in the way of, beside any open checks, is a run of the state machine, for each point it can stop at |
| `PaceService.Service.Notify` | apps/api/src/modules/cost/cost-pace-check.service.ts:165-196 | one request entry, or none and a throw, or none without channel and recipient |
| `PaceService.Service.CheckBudget` | apps/api/src/modules/cost/cost-pace-check.service.ts:69-163 | if it commits, the alert rows are rewritten as the pace says, row by row, and no other budget moves; if it fails, the table is as before; one request is added if and only if a notifiable budget comes to stand worse and the enqueue gets through |
| `PaceService.Service.WriteVerdict` | apps/api/src/modules/cost/cost-pace-check.service.ts:123-162 | the transaction of a check leaves exactly the tables of the model, for each point it can stop at |
| `PaceService.Service.CheckTenant` | apps/api/src/modules/cost/cost-pace-check.service.ts:45-67 | after the loop every budget whose check committed stands as its pace says, failed ones as before, and the count is of those with a severity |
| `Recommendations.EstimatesWithinSpend` | apps/api/src/modules/cost/cost-savings-estimate.ts:40-58 | estimates for all servers of an account total at most its last-month spend, with equality if and only if none is a rightsizing |
| `Recommendations.EstimateExactly` | apps/api/src/modules/cost/cost-savings-estimate.ts:28-59 | an estimate exists if and only if account, spend and servers do; times the servers it is last month's spend, or half of it for a rightsizing |
| `Recommendations.EvaluatedExactly` | apps/api/src/modules/cost/rightsizing-sweep.service.ts:139-202 | row by row: without samples nothing changes; under 5 percent idle, under 20 rightsize, opening or updating the resource's one open row with its estimate; from 20 on that row is resolved |
| `Recommendations.SweepTells` | apps/api/src/modules/cost/rightsizing-sweep.service.ts:99-122 | after a sweep of different resources the table says of each exactly what its reading says |
| `Recommendations.StepKeepsInv` | apps/api/src/modules/cost/rightsizing-sweep.service.ts:139-202 | every sweep, patch, ticket, logging and judging step keeps one open recommendation per resource and an honest log |
| `Recommendations.AtMostOneOpen` | apps/api/src/database/migrations/1784150000000-CreateRightsizingRecommendations.ts:46-46 | in every reachable state a resource has at most one open recommendation |
| `Recommendations.ClosedIsFrozen` | apps/api/src/modules/cost/recommendations.service.ts:59-121 | a recommendation that left `open` never returns and keeps its kind and estimate for good |
| `Recommendations.LogTellsTheTruth` | apps/api/src/modules/cost/cost-savings-sweep.service.ts:127-246 | in every reachable state each row expects its recommendation's estimate, no recommendation has two rows, an actual saving is there if and only if the row was judged, 14 days or more after logging, `verified` if and only if it is positive |
| `Recommendations.JudgedOnce` | apps/api/src/modules/cost/cost-savings-sweep.service.ts:170-246 | a judged row never changes again and no row changes before its window has passed |
| `Recommendations.TicketStableIff` | apps/api/src/modules/cost/recommendations.service.ts:72-121 | a linked ticket survives every later run if and only if no other creation for the recommendation is under way |
| `Recommendations.OverlappingExample` | apps/api/src/modules/cost/recommendations.service.ts:72-121 | two overlapping creations reach a state whose linked ticket a later step replaces |
| `Recommendations.AddsRowsKeepsInv` | apps/api/src/modules/cost/cost-savings-sweep.service.ts:127-168 | the logging pass keeps the invariant and changes no earlier row |
| `Recommendations.ReviewsRowsKeepsInv` | apps/api/src/modules/cost/cost-savings-sweep.service.ts:170-190 | the materialization pass keeps the invariant and moves rows only from `logged` to a terminal status after the window |
| `Recommendations.ReviewedExactly` | apps/api/src/modules/cost/cost-savings-sweep.service.ts:192-246 | a row logged 14 days ago with a known account and servers becomes `verified` if and only if average daily spend fell, with actual saving times servers equal to 30 times the difference; any other row stays |
| `Recommendations.LogStepsExactly` | apps/api/src/modules/cost/cost-savings-sweep.service.ts:127-246 | the state machine's logging and judging steps do to their row what the passes do |
| `Recommendations.FailedCallLeavesNoTrace` | apps/api/src/modules/cost/recommendations.service.ts:100-111 | a creation whose endpoint fails leaves the world as it was |
| `Recommendations.Services.EvaluateMonitor` | apps/api/src/modules/cost/rightsizing-sweep.service.ts:124-203 | one monitor, row by row as above and as a step of the state machine, flagged if and only if it has samples averaging under 20 percent |
| `Recommendations.Services.SweepTenant` | apps/api/src/modules/cost/rightsizing-sweep.service.ts:99-122 | the sweep evaluates every monitor in turn, keeps the invariant and counts the flagged ones |
| `Recommendations.Services.Update` | apps/api/src/modules/cost/recommendations.service.ts:59-70 | the patch step, or not found and nothing changed |
| `Recommendations.Services.CreateTicket` | apps/api/src/modules/cost/recommendations.service.ts:72-121 | each of the five outcomes with the state it leaves; a linked recommendation returns its ticket unchanged |
| `Recommendations.Services.CreateTicketTwice` | apps/api/src/modules/cost/recommendations.service.ts:89-93 | serial creations return the same ticket, whatever the endpoint would answer the second time |
| `Recommendations.Services.LogResolved` | apps/api/src/modules/cost/cost-savings-sweep.service.ts:127-168 | a recommendation gets a new row if and only if it is ticketed, its ticket is resolved, it has an estimate and no row yet; earlier rows stay |
| `Recommendations.Services.MaterializeLogged` | apps/api/src/modules/cost/cost-savings-sweep.service.ts:170-246 | every row is reviewed as above by its own figures, and the count is of the rows that changed |
| `Regression.NormalEquations` | apps/api/src/modules/cost/forecast.ts:128-141 | the residuals of the computed line sum to zero and are orthogonal to the month index |
| `Regression.LeastSquares` | apps/api/src/modules/cost/forecast.ts:128-137 | the computed slope and intercept have strictly smaller squared error than every other line |
| `Regression.DeviationAboutOwnMean` | apps/api/src/modules/cost/forecast.ts:139-142 | the residual deviation about 0 is the deviation about the residuals' own mean |
| `Regression.NoErrorIffOnLine` | apps/api/src/modules/cost/forecast.ts:139-142 | a line leaves no residual if and only if the data lies on it |
| `Regression.LinearRecovered` | apps/api/src/modules/cost/forecast.ts:128-142 | exactly linear totals are recovered with zero residual |
| `Regression.LineContinues` | apps/api/src/modules/cost/forecast.ts:128-156 | when the totals and those to come lie on one line and stay non-negative, the forecast is those to come, month by month, with no band |
| `Regression.ForecastMultiMonth` | apps/api/src/modules/cost/forecast.ts:121-157 | nothing under 3 months or a horizon under 1; otherwise point h is the unique best line at the last month plus h, floored at zero, low and high one root-mean-square residual away, low floored; a straight line is continued |
| `Grouping.TotalsConserved` | apps/api/src/modules/cost/forecast.ts:72-82 | group totals over any distinct covering list of keys sum to the whole |
| `MonthEnd.FillBuckets` | apps/api/src/modules/cost/forecast.ts:72-78 | the map holds exactly the weekdays seen, each with its own days' spend in order |
| `MonthEnd.ForecastMonthEnd` | apps/api/src/modules/cost/forecast.ts:55-102 | the bucket-filling, averaging and summing loops compute the forecast of the model |
| `MonthEnd.ForecastExactly` | apps/api/src/modules/cost/forecast.ts:55-102 | the figures: sum so far, each remaining day at its rate from 7 days on and at the flat mean before, the band on either side with the lower edge never below the sum |
| `MonthEnd.RateExactly` | apps/api/src/modules/cost/forecast.ts:79-86 | a weekday's rate times its days is what was spent on them; an unseen weekday takes the mean of all days |
| `MonthEnd.BandExactly` | apps/api/src/modules/cost/forecast.ts:91-94 | the band is non-negative and its square times the days elapsed is the squared deviations' sum times the days left |
| `MonthEnd.BucketsHoldTheMonth` | apps/api/src/modules/cost/forecast.ts:72-82 | bucket totals sum to the month-to-date spend |
| `MonthEnd.ForecastPermuted` | apps/api/src/modules/cost/forecast.ts:61-101 | the whole forecast is unchanged when the (weekday, spend) pairs are permuted |
| `MonthEnd.ProportionalMonth` | apps/api/src/modules/cost/forecast.ts:72-86 | if every weekday remains k times as often as it elapsed, the projected remainder is k times the month-to-date spend |
| `MonthEnd.ForecastBounds` | apps/api/src/modules/cost/forecast.ts:68-101 | for non-negative spend, `mtdSpend <= low <= projectedFullMonth <= high` in both branches |
| `MonthEnd.AgreesWithPace` | apps/api/src/modules/cost/cost-pace.ts:47-48 | under 7 days the forecast equals the projected full month of the pace calculation, whatever its baseline |
| `MonthEnd.MonthWeekdays` | apps/api/src/modules/cost/cost-dashboard.service.ts:129-141 | the two weekday lists are those of the elapsed and of the remaining calendar days |
| `MonthEnd.NoFallback` | apps/api/src/modules/cost/cost-dashboard.service.ts:129-146 | from 7 consecutive calendar days on every remaining day is projected at its own weekday's average |
| `Billing.SyncOverlays` | apps/api/src/modules/cost/cost-billing-sync.service.ts:158-177 | stored rows keep their place, each refreshed by the last item under its key or untouched, and keys stay unique |
| `Billing.SyncAdds` | apps/api/src/modules/cost/cost-billing-sync.service.ts:158-177 | a new row has a key that was missing and holds the last item synced under it |
| `Billing.SyncIsLastWriteWins` | apps/api/src/database/migrations/1784130000000-CreateCostLineItems.ts:39-40 | one row per key; a synced key holds its last item's values, every other key what it held |
| `Billing.SyncRepeats` | apps/api/src/modules/cost/cost-billing-sync.service.ts:158-188 | syncing the same items again changes nothing but the sync time |
| `Billing.CollideIff` | apps/api/src/database/migrations/1784130000000-CreateCostLineItems.ts:39-40 | two items of a credential share a row if and only if service, day and region, none counting as empty, agree |
| `Billing.CredentialsApart` | apps/api/src/database/migrations/1784130000000-CreateCostLineItems.ts:39-40 | items of different credentials never share a row |
| `Billing.NormaliseAllExactly` | apps/api/src/modules/cost/cost-billing-sync.service.ts:159-176 | every item is synced as it came, with its tags normalised and nothing else changed |
| `Billing.SyncKeepsTagsClean` | apps/api/src/modules/cost/cost-billing-sync.service.ts:159-177 | every stored tag map stays free of blank keys and values |
| `Billing.Store.SyncCredential` | apps/api/src/modules/cost/cost-billing-sync.service.ts:150-189 | the loop is the keyed fold over normalised items; a failed transaction changes nothing |
| `Tags.NormalMeans` | apps/api/src/modules/cost/cost-allocation.ts:13-32 | the normal form holds exactly the last surviving value of every key, trimmed and never blank; `__proto__`, which a plain object does not store, never survives |
| `Tags.NormalExactly` | apps/api/src/modules/cost/cost-allocation.ts:13-32 | a key has a value if and only if it is the trimmed text of the last entry giving it a string, number or boolean that is not blank |
| `Tags.TrimExactly` | apps/api/src/modules/cost/cost-allocation.ts:19-27 | trimming cuts white space off both ends, all of it and nothing else |
| `Tags.SpacesAre` | apps/api/src/modules/cost/cost-allocation.ts:19-27 | white space is exactly the code points JavaScript trims |
| `Tags.NormalizeAllocationTags` | apps/api/src/modules/cost/cost-allocation.ts:13-32 | the loop computes the normal form; an absent source gives the empty map |
| `Tags.Idempotent` | apps/api/src/modules/cost/cost-allocation.ts:13-32 | normalising a normalised map again changes nothing, in whatever order its entries come |
| `Allocation.SharesConserveSpend` | apps/api/src/modules/cost/cost-allocation.service.ts:61-78 | for every tag key the shares sum to the spend of the window |
| `Allocation.SharesPartition` | apps/api/src/modules/cost/cost-allocation.service.ts:61-69 | one share per tag value that occurs, with the sum of exactly its own line items, and every item is in one |
| `Allocation.SharesExactly` | apps/api/src/modules/cost/cost-allocation.service.ts:61-66 | each share is the sum of the items tagged with its value, or lacking a value for `(untagged)` |
| `Allocation.SelectExactly` | apps/api/src/modules/cost/cost-allocation.service.ts:49-59 | the window keeps exactly the items from the given day, or the month's start, to the given day if there is one |
| `Allocation.SortedSorts` | apps/api/src/modules/cost/cost-allocation.service.ts:66-67 | the sorted shares are the grouped ones, largest first |
| `Allocation.AllocationByTag` | apps/api/src/modules/cost/cost-allocation.service.ts:41-80 | the shares largest first, and a total that is the window's spend whatever the key |
| `Allocation.DefaultWindowIsMonthToDate` | apps/api/src/modules/cost/cost-dashboard.service.ts:35-38 | in the default window the total is the dashboard's month-to-date spend |
| `Allocation.UntaggedExactly` | apps/api/src/modules/cost/cost-allocation.service.ts:61-63 | on synced data `(untagged)` holds exactly the items lacking the key or literally so tagged |
| `Anomaly.MoreSpendStaysFlagged` | apps/api/src/modules/cost/cost-anomaly-detect.ts:22-40 | more spend on the latest day never clears the flag, for any thresholds |
| `Anomaly.LessPriorStaysFlaggedIff` | apps/api/src/modules/cost/cost-anomaly-detect.ts:22-40 | less earlier spend never clears the flag, across the near-zero branch too, if and only if the percentage threshold is at most 1000 |
| `Anomaly.FlaggedExactly` | apps/api/src/modules/cost/cost-anomaly-detect.ts:27-38 | flagged if and only if the increase reaches the floor and 100 times it the threshold times the baseline, a baseline of at most a cent counting as 1000 percent |
| `Anomaly.PercentageExactly` | apps/api/src/modules/cost/cost-anomaly-detect.ts:30-39 | the reported percentage is the deviation to the nearest whole number |
| `Anomaly.ConstantSpend` | apps/api/src/modules/cost/cost-anomaly-detect.ts:12-40 | equal spend s on the latest day and k earlier ones is flagged if and only if k <= 9 and s*(14-k) >= 70 |
| `Anomaly.SteadySpendFlagged` | apps/api/src/modules/cost/cost-anomaly-check.service.ts:41-77 | the same boundary read through the query, from the line items of a group in the window |
| `Anomaly.ReadIffSpent` | apps/api/src/modules/cost/cost-anomaly-check.service.ts:41-67 | a group is examined if and only if it has a line item on the latest day |
| `Anomaly.DismissedForGood` | apps/api/src/database/migrations/1784220000000-CreateCostAnomalies.ts:34-35 | over any run of sweeps and dismissals keys stay unique and a dismissed anomaly stays dismissed |
| `Anomaly.SweepIsLastWriteWins` | apps/api/src/modules/cost/cost-anomaly-check.service.ts:69-107 | after a sweep the key of a flagged reading holds the figures of the last one, dismissed only if it was before; every other key holds what it held |
| `Anomaly.Anomalies.CheckTenant` | apps/api/src/modules/cost/cost-anomaly-check.service.ts:36-110 | the loop upserts exactly the flagged readings and counts them |
| `Anomaly.Anomalies.Dismiss` | apps/api/src/modules/cost/cost-anomalies.service.ts:21-31 | the addressed record is dismissed, or not found and nothing changed |
| `SpanTree.AcyclicIffRooted` | apps/web/src/components/ApmSpanWaterfall.tsx:8-19 | the parent links are free of cycles if and only if every span's chain ends at a root |
| `SpanTree.ListingExact` | apps/web/src/components/ApmSpanWaterfall.tsx:20-22 | the listing holds exactly the spans whose parent chain ends at a root, each once |
| `SpanTree.PermutationIffAcyclic` | apps/web/src/components/ApmSpanWaterfall.tsx:8-23 | the listing is a permutation of the input if and only if there is no cycle |
| `SpanTree.SubtreesContiguous` | apps/web/src/components/ApmSpanWaterfall.tsx:20-22 | each span is followed at once by exactly its descendants |
| `SpanTree.SiblingsInOrder` | apps/web/src/components/ApmSpanWaterfall.tsx:11-22 | roots, and the children of a listed span, keep their input order |
| `SpanTree.StandsUnderParent` | apps/web/src/components/ApmSpanWaterfall.tsx:20-22 | a listed span with a parent stands after it, with nothing between them but spans below that parent |
| `SpanTree.LinksExactly` | apps/web/src/components/ApmSpanWaterfall.tsx:11-18 | a span is linked to an entry if and only if it names that entry's non-empty id, and to none if and only if no entry has the id it names |
| `SpanTree.ListedIffEnds` | apps/web/src/components/ApmSpanWaterfall.tsx:8-23 | exactly the spans whose chain of parent ids comes to an absent, empty or unknown id are listed, each once |
| `SpanTree.ListingIsWaterfall` | apps/web/src/components/ApmSpanWaterfall.tsx:8-23 | the same and the placing under parents, stated of spans and their ids alone |
| `SpanTree.DepthsRightIff` | apps/web/src/components/ApmSpanWaterfall.tsx:11-19 | every listed span has its number of ancestors as depth if and only if no listed span comes before a parent that is not a root |
| `SpanTree.NeverTooDeep` | apps/web/src/components/ApmSpanWaterfall.tsx:11-19 | a listed span's depth is at most its number of ancestors |
| `SpanTree.ShallowExample` | apps/web/src/components/ApmSpanWaterfall.tsx:13-15 | a grandchild listed before its parent gets depth 1 instead of 2 |
| `SpanTree.Entries` | apps/web/src/components/ApmSpanWaterfall.tsx:9-9 | the map's entries have distinct ids, come from the input, and are the input when its ids are distinct |
| `SpanTree.EntriesAreLast` | apps/web/src/components/ApmSpanWaterfall.tsx:9-9 | the entries are exactly the last span of every id |
| `SpanTree.EntriesInOrder` | apps/web/src/components/ApmSpanWaterfall.tsx:9-9 | they stand in the order in which their ids first appear |
| `SpanTree.Flatten` | apps/web/src/components/ApmSpanWaterfall.tsx:20-22 | the recursion on linked nodes terminates, cycles or not, and is the preorder of the links |
| `SpanTree.LinkAll` | apps/web/src/components/ApmSpanWaterfall.tsx:10-19 | the mutating pass leaves each node's children in input order, its depth, and the roots set aside |
| `SpanTree.BuildTree` | apps/web/src/components/ApmSpanWaterfall.tsx:8-23 | the result is the waterfall of the entries by id; a span has depth 0 without a parent, one more than a parent before it in the input, 1 under one after it |
| `Numerals.DecimalReads` | apps/api/src/modules/cost/cost-budgets.service.ts:47-52 | a written placeholder number is read as the number it was written from |
| `SqlText.TextReadsBack` | apps/api/src/modules/cost/cost-budgets.service.ts:72-77 | the text of every UPDATE, placeholders and all, is read back as exactly that statement |
| `SqlText.TextExample` | apps/api/src/modules/cost/cost-budgets.service.ts:74-76 | the text of the smallest statement, character by character |
| `SqlBuilder.BindsExactly` | apps/api/src/modules/cost/cost-budgets.service.ts:72-77 | the database accepts the parameters if and only if every placeholder has one and every one a placeholder |
| `SqlBuilder.ResolvesExactly` | apps/api/src/modules/cost/cost-budgets.service.ts:72-77 | it accepts the columns if and only if all are known and none is set twice |
| `SqlBuilder.SetBuilder.AssignIfGiven` | apps/api/src/modules/cost/cost-budgets.service.ts:47-66 | one push keeps clauses and parameters in step for the fields so far |
| `SqlBuilder.BuiltTextMeans` | apps/api/src/modules/cost/cost-budgets.service.ts:72-78 | the built text with its parameters patches the addressed row, unless the row exists and a given value breaks NOT NULL |
| `SqlBuilder.BuiltUpdateIsExact` | apps/api/src/modules/cost/cost-budgets.service.ts:47-79 | for every list of optional fields over distinct columns, exactly the supplied columns of exactly the addressed rows change; it is refused if and only if the row exists and a supplied value is null in a NOT NULL column |
| `Settings.Budgets.Update` | apps/api/src/modules/cost/cost-budgets.service.ts:37-81 | missing budget, refused null, nothing supplied and the built update: what each returns and what changes, field by field and column by column |
| `Settings.AiUpdateIsExact` | apps/api/src/ai/tenant-ai-settings.service.ts:79-103 | with the fixed parameter prefix, omitting the key leaves the stored key unchanged, supplying one stores it encrypted, and no other row or column moves |
| `Settings.AiSettings.Update` | apps/api/src/ai/tenant-ai-settings.service.ts:79-103 | the strings and parameters as the code pushes them are that statement |
| `Settings.AiSettings.Upsert` | apps/api/src/ai/tenant-ai-settings.service.ts:43-111 | rejected if and only if an open provider lacks a base URL; otherwise inserted or updated column by column, and the reply describes the stored row and whether it has a key |
| `CpuSample.ReadSample` | agent/metrics_linux.go:24-51 | a sample if and only if the line starts with `cpu`, has five fields and the rest are numbers; idle is the fourth of them and total the true sum modulo 2^64 |
| `CpuSample.ParseUintExactly` | agent/metrics_linux.go:40-43 | a field is read if and only if it is digits for a number below 2^64, and as that number |
| `CpuSample.ParsesNumerals` | agent/metrics_linux.go:40-43 | the decimal numeral of every number below 2^64 is read as that number |
| `CpuSample.GrowthExactIff` | agent/metrics_linux.go:68-69 | the register difference is the true growth if and only if that growth is in [0, 2^64) |
| `CpuSample.PercentIsBusyShare` | agent/metrics_linux.go:54-74 | for non-decreasing counters growing by less than 2^64 in all, the result is the true busy share, in [0, 100], 0 or 100 exactly at the extremes, and 0 without growth |

## Left out

- React pages other than the span tree, controllers, DTO validation, module wiring, timers, guards and the HTTP clients: no hard property of their own.
- AI completions, rationale and narrative texts, insight and reason wording, the template renderer: results of an external model, or plain strings.
- JSON text, UUID generation, pgcrypto and JWTs: payloads are taken as parsed, fresh ids are parameters, encryption is an arbitrary function.
- Floating-point rounding and `toFixed`: amounts are real numbers. The loss in converting a 64-bit counter to a float is not modelled either.
- Redis reconnects and resends of a command whose reply was lost, and XAUTOCLAIM, which the code does not use: XADD appends once, XREADGROUP with `>` hands each entry of a group out once.
- PostgreSQL aborting the rest of a transaction after a caught statement error: a caught failure of the UPDATE is followed by `failed` as the code intends.
- Interleavings finer than one transaction, except in `PaceCheck`, where reading, writing and each nested commit are separate steps, and ticket creation, which is two.
- Deadlocks between checks, and isolation levels other than the default (read committed).
- The `running` flags, the loops over tenants and the per-item try/catch of the sweeps: each tenant and item is one call of the modelled method.
- Uniqueness and foreign-key failures in the isolation model, row deletion and cascades elsewhere, and the cast of the tenant setting to a uuid.
- `buildDailySpend` is not part of this model: the forecast takes one amount per elapsed calendar day.
- The utilization, spend and server-count queries behind the rightsizing sweep and the materialization: their results are inputs.
- Channel implementations and the ticketing endpoint: they resolve or fail, or give an id, as a parameter says.
- The text of statements other than the built UPDATEs, the filters of the recommendation list, and the CHECK constraint on the AI provider.
- Splitting the `cpu` line into fields, and the memory and disk figures of the agent.
- Settings.Budgets.Update: with several rows under one id the returned row is the last of them; the primary key rules that out.
