# Stadium congestion: a verified model of the decision core

The project models the decision core of the stadium-congestion system and proves what it keeps
over whole runs: a bounded risk-priority intake queue, windowed forecasting, the selection of an
alternative gate with its two users (shuttle redirections and fan nudges), the time-based stores
(cooldowns, rejection suppression, degraded sources), the ranked action lists, the deadline
fallback, and the wired pipeline, whose asynchronous handlers interleave at their awaits.

`dafny verify dfyconfig.toml` checks everything.

## How it is laid out

| file | what it holds |
|---|---|
| Domain, Sorting, Filtering | shared entities; the runtime's stable sort as a function; what it means to be a filter of a list |
| FlatQueue, IntakeQueue | the reference queue with its ledger and run theorems; the four-bucket class that refines it |
| Forecast, SignalWindow | scores and risk bands; the pruned window against the whole history |
| Selection, Redirections | the alternative gate; redirections, suppression, the dispatcher's API |
| ExpiringStore, Nudges, Delivery | lazily evicting TTL maps against logs; nudges and cooldown; the delivery worker |
| Alerts, Recommendations, Fallback | rising-edge alerts; ranked actions and the active list; the last-known-score cache |
| PipelineMachine, PipelineSafety, PipelineLifecycle, PipelineRuns | the step machine of the pipeline, its invariant by concern, and the results over every run |
| PipelineCoverage | that nothing gets lost over a run: every redirection published, every fan checked, every due nudge stored, every pass complete, nothing stuck |
| AdviceOptimal | what redirections and nudges advise in every run whose forecasts come from the forecaster |
| AlertOverlap, PassOverlap | the two orders that the machine assumes, dropped: score handlers of one gate that overlap, delivery passes that overlap |
| Pipeline | the handlers as methods that update the pipeline's maps, each proved to be one step of the machine, and the results over every run as statements about those maps |

Code that the source writes as expressions is a function here; code that updates fields is a
class whose methods are proved against a specification function or a log.

## Assumptions

- Arithmetic is exact. `Math.round(x)` is floor(x + 1/2); growth factors and impact weights are
  the decimals the source writes. In doubles, impact ties and rounding boundaries may differ.
- Instants are integer milliseconds. Identifiers are opaque and non-empty; composite string keys
  and ids are tuples, so they are injective. Counts are finite real numbers.
- Results state durations as written-out numbers of seconds or minutes, not through the constants
  that the modelled code uses.
- `localeCompare` on gate ids is an arbitrary strict total order, passed as a parameter.
- In the pipeline: the clock never goes back; at most one score handler is in flight per gate
  (the per-gate order that `src/infra/kafka-topics.ts` asks for); a handler's reads of the cooldown
  store and of the rejection list come at most `skew` after its own clock reading, and a rejection
  enters the list at most `skew` after its own time. `skew` is a parameter; 0 is one clock reading
  per handler. Handlers of different gates, signals, rejections and the delivery pass interleave at
  every await.
- Also in the pipeline, delivery passes do not overlap. Nothing in the source sees to that:
  `src/pipeline.ts:320-322` starts a pass every 15 seconds without waiting for the one before.
  `PassOverlap` drops the assumption.
- A rejection in `ShuttleRedirectionApi` takes two clock readings, the request's and the TTL
  store's; the awaits inside one dispatcher request are not split.

## Where code and documentation disagree

The model follows the code.

- `src/signal-ingestion/priority-queue.ts:53` says the shed event is returned. The code returns
  an event only when the incoming one is dropped, and nothing after shedding an older one.
- `src/shuttle-redirection-advisor/redirections.ts:41-42` speaks of risk reached within the
  forecast horizon. The code reads only the current point.
- `src/recommendation-engine/recommendations.ts` counts the whole pruned window, stale and
  outlived events included; only the forecast filters again.

## What does not hold as one might expect

Each of these has a lemma with the failing input or the exact condition.

- Nudges for one fan and gate are 5 minutes apart over every run exactly when there is no skew
  (`FullCooldownIffNoSkew`); with skew the bound is 5 minutes less the skew, and it is attained
  (`SkewBoundTight`). Their ids are distinct over every run exactly when the skew is below 5 minutes
  (`DistinctIdsIffSkewBelowCooldown`).
- The pre-filtered rejection list agrees with the full log except exactly when the latest
  rejection's suppression ends strictly between the handler's two clock readings
  (`PrefilterAgreesUnlessExpiringBetween`); the TTL key agrees with the list except exactly while
  the pair's last rejection has run out by the request's reading and not yet by the store's
  (`TtlAgreesUnlessLagging`).
- When score handlers of one gate overlap, an alert may be raised twice (`OverlapDuplicatesAlert`)
  or not at all (`OverlapLosesAlert`). The alerts stay those of serial handling throughout a run
  exactly when every hot update that starts finds the previous risk as hot as the update before it
  was (`OverlappingRuns`); one handler at a time is one way to see to that (`OneAtATimeIsSerial`).
- When delivery passes overlap, a nudge is audited once per pass that began while it was queued
  (`AuditCount`), and a delivered nudge can end up cancelled (`TwoPassesDecideTwice`). Every nudge
  is audited at most once exactly when no pass begins while another still has a queued nudge ahead
  of it (`AuditedOnceIffHarmless`), and then no decided nudge changes (`DecidedForGood`).
- `executeAction` awaits between its read and its write. The list it leaves serves a newer update
  exactly when the id was not in the list it read, or when both updates call for the same list
  (`InterleavedExecution`, in integers and explained facts by `SameListIff`); it can bring back the
  actions of a gate that has returned to LOW (`ExecutionCanReviveActions`).

## Model

| member | source | states |
|---|---|---|
| IntakeQueue.PriorityIntakeQueue.Enqueue | src/signal-ingestion/priority-queue.ts:55-66 | the four-bucket queue moves exactly as the flat list does on an offer; an event comes back only when the newcomer is the one that is lost |
| IntakeQueue.PriorityIntakeQueue.ShedLowestPriority | src/signal-ingestion/priority-queue.ts:100-113 | removes the earliest event of the lowest level, and only if that level is strictly below the newcomer's |
| IntakeQueue.PriorityIntakeQueue.Dequeue | src/signal-ingestion/priority-queue.ts:73-82 | hands out the earliest event of the highest level, or nothing from an empty queue |
| IntakeQueue.PriorityIntakeQueue.DrainInPriorityOrder | src/signal-ingestion/priority-queue.ts:90-98 | terminates, empties the queue, and returns its events by descending level, in arrival order within a level |
| IntakeQueue.PriorityIntakeQueue.SizeIsBucketSum | src/signal-ingestion/priority-queue.ts:34-46 | after any operations the cached size is the number of buffered events, at most max(capacity, 0), and every event sits in the bucket of its level |
| FlatQueue.RunKeeps | src/signal-ingestion/priority-queue.ts:36-113 | over every mix of enqueue, dequeue and drain: offered = held + dequeued + shed + dropped as multisets, at most max(capacity, 0) held, and within a level events leave in the order they were accepted |
| FlatQueue.NoInversion | src/signal-ingestion/priority-queue.ts:55-66 | only an offer to a full queue loses an event, exactly one, and nothing kept afterwards is below it |
| FlatQueue.DrainIsStableSort | src/signal-ingestion/priority-queue.ts:84-98 | a drain yields the one list that is descending by level and keeps each level's order |
| FlatQueue.LevelBlocks | src/signal-ingestion/priority-queue.ts:55-66 | with enqueues only, each level's arrivals split into consecutive blocks: shed, held, dropped |
| FlatQueue.TopK | src/signal-ingestion/priority-queue.ts:55-66 | with enqueues only, the held events are, level by level, as many as among the `capacity` highest of all offered |
| Forecasting.ForecastWellFormed | src/congestion-forecaster/forecast.ts:81-125 | for every gate and window: one point for now and each 5 minutes up to 15, at those times, with the confidence of the whole; scores in 0..100; LOW below 40, MODERATE below 70, HIGH below 90, CRITICAL from 90; the first point is the one readers take for current |
| Forecasting.SilentWindow | src/congestion-forecaster/forecast.ts:86-94 | low confidence exactly when no event is both unmarked and at most 10 minutes old, and then score 0 and LOW at every offset |
| Forecasting.ForecastMonotone | src/congestion-forecaster/forecast.ts:96-122 | the forecast depends only on the multiset of counted events, and counting more never lowers a score or a risk at any offset |
| Forecasting.ScoreIsRoundedPercentage | src/congestion-forecaster/forecast.ts:101-107 | every score is the people of the fresh events (one per scan, the counts, the passengers, negatives as none) as a percentage of the capacity, at least one, capped at 100, raised 5 percent per 5 minutes ahead, rounded to the nearest integer with halves upwards |
| Forecasting.RecentPicks | src/congestion-forecaster/forecast.ts:86-92 | the counted events are exactly those neither stale nor older than 10 minutes, in order |
| Forecasting.HorizonRise | src/congestion-forecaster/forecast.ts:104-122 | along the horizon scores never fall, rise by at most 13 points, and climb at most one risk band |
| Forecasting.HorizonRiseTight | src/congestion-forecaster/forecast.ts:20-25 | the 13-point rise is attained |
| SignalWindow.WindowIsRecentHistory | src/pipeline.ts:131-137 | under a clock that never goes back the window is exactly the earlier history of the last 10 minutes, in order, followed by the new event |
| SignalWindow.CacheAgreesWithHistory | src/pipeline.ts:131-137 | forecasting from the pruned window equals forecasting from every event ever appended, at any instant not before an append |
| SignalWindow.AppendForecasts | src/pipeline.ts:131-137 | what an append prunes shows in no forecast made from then on |
| SignalWindow.EarlierForecastCanMiss | src/pipeline.ts:131-137 | at an earlier instant the two can differ |
| Selection.PickAlternativeGate | src/congestion-forecaster/risk-comparison.ts:35-71 | whatever order the map is iterated in, the answer is the one gate of strictly lower risk that precedes every other such gate by risk, then score, then id |
| Selection.SelectionOptimal | src/congestion-forecaster/risk-comparison.ts:47-70 | with risks that are the bands of their scores, the answer is the gate of least (score, id) among all others when its risk is strictly lower than the origin's, and none otherwise |
| Selection.LeastScoredExists | src/congestion-forecaster/risk-comparison.ts:56-58 | such a least gate exists exactly when there is another gate at all; without one there is no alternative |
| Selection.AlternativeStable | src/congestion-forecaster/risk-comparison.ts:42-54 | raising the origin's risk never removes or changes an alternative that was available |
| Expiry.ExpiringStore.GetIfNotExpired | src/server.ts:85-98 | the lazily evicting map answers exactly the last write of its log if that is younger than its TTL, and keeps no entry it did not answer with |
| Expiry.ExpiringStore.Put | src/server.ts:106-116 | a write appends to the log that the map stands for |
| Expiry.LiveIffRecentWrite | src/server.ts:93-96 | with one TTL per key, a key is live exactly when some write to it is younger than the TTL |
| Expiry.DegradedSourceTracker.MarkActive | src/signal-ingestion/degraded-source.ts:26-29 | a signal restarts its source's timer: 90 seconds for a transit feed, 45 for a counter or scanner |
| Expiry.DegradedSourceTracker.IsDegraded | src/signal-ingestion/degraded-source.ts:32-34 | a transit feed is degraded exactly when no signal of it is younger than 90 seconds, a counter or scanner exactly when none is younger than 45 |
| Redirecting.GenerateRedirections | src/shuttle-redirection-advisor/redirections.ts:55-106 | the whole advice, element by element: nothing unless the gate is High or Critical with an alternative; then one pending redirection for exactly the assigned routes without a rejection of the pair in the last 5 minutes, in route order |
| Redirecting.RecommendedExactly | src/shuttle-redirection-advisor/redirections.ts:62-103 | a pair is recommended if and only if the origin is High or Critical, the route is assigned, the gate is the selected one and no listed rejection of the pair is younger than 5 minutes; its risk is strictly lower than the origin's |
| Redirecting.RedirectionsStable | src/shuttle-redirection-advisor/redirections.ts:62-103 | more people counted at the origin never lower its risk and keep every earlier redirection, route by route |
| Redirecting.SuppressionFormsAgree | src/shuttle-redirection-advisor/redirections.ts:21-37 | when each rejection takes one clock reading, scanning the full rejection log, scanning the pre-filtered list and asking the TTL key agree for every pair |
| Redirecting.TtlAgreesUnlessLagging | src/shuttle-redirection-advisor/api.ts:64-81 | with two clock readings per rejection, the TTL key and the list agree except exactly while the pair's last rejection has run out by the one reading and not yet by the other |
| Redirecting.PrefilterAgreesUnlessExpiringBetween | src/server.ts:484-488 | with two clock readings the pre-filtered scan agrees except exactly when the latest suppression ends strictly between them |
| Redirecting.RejectedPairStaysAway | src/shuttle-redirection-advisor/redirections.ts:90-92 | a rejected pair is not recommended again within 5 minutes, less the time between the two readings |
| Redirecting.ShuttleRedirectionApi.UpdateRecommendation | src/server.ts:195-205 | ids stay unique per route; the recommendation of that id is replaced in place, a new one is appended behind all others |
| Redirecting.ShuttleRedirectionApi.AcceptRedirection | src/shuttle-redirection-advisor/api.ts:37-57 | marks the one recommendation as accepted and changes nothing else; unknown ids change nothing |
| Redirecting.ShuttleRedirectionApi.RejectRedirection | src/shuttle-redirection-advisor/api.ts:59-84 | marks the one recommendation as rejected and records its pair in both suppression forms, in the list with the request's time, under the TTL key with the store's own later reading; unknown ids change nothing |
| Redirecting.ShuttleRedirectionApi.IsRejectionSuppressed | src/shuttle-redirection-advisor/suppression.ts:20-22 | the TTL answer equals the scan of every rejection ever made, except exactly between the two expiries of the pair's last rejection |
| Nudging.GenerateFanNudge | src/fan-notification-system/nudges.ts:28-76 | a nudge if and only if cooled down and the gate is High or Critical; addressed to that fan and gate as of the handler's start; it carries exactly one alternative: the selected gate, of strictly lower risk, or an arrival 20 minutes later |
| Nudging.FanNotificationService.OnScoreUpdate | src/fan-notification-system/service.ts:24-48 | checks and sets the cooldown fan by fan, duplicates included, each on the forecasts of its own moment, keeping the log of nudges spaced |
| Nudging.EnqueuedAll | src/fan-notification-system/service.ts:43-44 | nudges with ids of their own are all in the store afterwards, and nothing else there changes |
| Nudging.CooldownOverRuns | src/fan-notification-system/service.ts:32-45 | over every run of serial updates, nudges for one fan and gate are at least 5 minutes apart, less the skew, and their ids are distinct |
| Nudging.NudgesPerSpan | src/fan-notification-system/nudges.ts:35-40 | at most floor(T / (5 min - skew)) + 1 nudges for one fan and gate in any span T |
| Nudging.SkewBoundTight | src/server.ts:106-116 | with a late store reading, two nudges of serial updates do come 5 minutes less the skew apart, or at one instant when the skew reaches 5 minutes |
| Nudging.FullCooldownIffNoSkew | src/fan-notification-system/service.ts:32-45 | the full 5 minutes hold over every run exactly when the skew is 0 |
| Nudging.DistinctIdsIffSkewBelowCooldown | src/fan-notification-system/nudges.ts:66-75 | nudge ids are distinct over every run exactly when the skew is below the cooldown |
| Nudging.EvictionDecides | src/server.ts:93-96 | eviction changes the cooldown decision exactly when the store's clock passed the expiry while the handler's is still inside the cooldown |
| Delivering.SimulateDelivery | src/fan-notification-system/delivery.ts:27-58 | delivered with a record exactly when the gate is High or Critical now, cancelled otherwise; everything else about the nudge is kept |
| Delivering.FanNudgeDeliveryWorker.ProcessQueue | src/fan-notification-system/delivery-worker.ts:28-53 | in one pass every queued nudge is decided, on the forecasts of its own visit, and audited exactly once; nothing else changes and nothing stays queued |
| Alerting.AlertsAreBlockStarts | src/ops-dashboard/alerts.ts:36-41 | alerts are, in order, the starts of the maximal High/Critical blocks of a gate's updates, at least two updates apart, at most ceil(n/2) |
| Recommending.RankingCharacterised | src/recommendation-engine/recommendations.ts:96-117 | no actions exactly for LOW; otherwise each of the four once, ranked 1 to 4, ordered by impact and then name |
| Recommending.RankingInIntegers | src/recommendation-engine/recommendations.ts:34-51 | over the numbers of counter, scan and transit events: the six pairwise orders as integer conditions; opening always precedes the nudge campaign, redirecting always precedes holding, and redirecting is first exactly when 30 transit > score + 20 counter + 5 scan |
| Recommending.ActionsExplained | src/recommendation-engine/recommendations.ts:53-117 | every action is the gate's, made at the time of the current point, unexecuted, and explained by the first signals of the window, five at most, the score and the confidence |
| Recommending.ActiveActions.OnScoreUpdate | src/recommendation-engine/service.ts:37-47 | the gate's list is replaced, never merged, and other gates' lists are untouched |
| Recommending.ActiveActions.ExecuteAction | src/recommendation-engine/api.ts:24-47 | its read and its write with nothing in between: the one action of that id is marked in its place and the list stays that of the last update; unknown ids change nothing |
| Recommending.ServedList | src/recommendation-engine/service.ts:41-46 | after any serial run of updates and executions a list is empty exactly when the last handled risk is LOW, otherwise four actions ranked 1 to 4 |
| Recommending.SameListIff | src/recommendation-engine/recommendations.ts:96-117 | two updates call for the same list exactly when both are LOW, or neither is and they agree on forecast time, explained facts and the integer conditions of the pairwise orders |
| Recommending.InterleavedExecution | src/recommendation-engine/api.ts:30-44 | an execution that read a list of an earlier update and finds one of a newer update leaves a list of the newer update exactly when the id was not in the list it read, so nothing is written, or both updates call for the same list; other gates are untouched |
| Recommending.ExecutionCanReviveActions | src/recommendation-engine/api.ts:30-44 | an execution of a listed action that straddles a return to LOW brings back four actions |
| Fallback.ForecastFallback.ComputeForecastWithFallback | src/congestion-forecaster/fallback.ts:11-49 | an attempt in time answers the forecast of its own window and caches its current point; a timeout leaves the cache alone |
| Fallback.FallbackSound | src/congestion-forecaster/fallback.ts:28-48 | every published result is well-formed and uniformly outdated or not; an attempt in time publishes the forecast of its window; a timeout publishes the current point of the latest attempt in time, marked outdated, or score 0 when there was none |
| Pipeline.WiredPipeline.TrackFansForEvent | src/pipeline.ts:148-165 | each gate's fans grow, at the end, by exactly the fans that the event mentions at it: of a scan, or of a transit arrival with a destination |
| Pipeline.WiredPipeline.AlertsAreRisingEdges | src/pipeline.ts:248-257 | after any interleaving of the methods, per gate: `alerts` are the rising edges of its updates, `previousRiskLevelByGate` is the last one's risk unless a handler is in flight, and `forecastsByGate` holds the one in handling |
| Pipeline.WiredPipeline.ListsAreLatest | src/pipeline.ts:191-196 | after any interleaving, both action maps of a gate without a handler hold the list of its last forecast and its own signals |
| Pipeline.WiredPipeline.WindowsForecastHistory | src/pipeline.ts:131-143 | after any interleaving, `signalWindowByGate` holds the last 10 minutes of each gate and forecasts as the whole history does |
| Pipeline.WiredPipeline.FansAreMentioned | src/pipeline.ts:148-165 | after any interleaving, `fansByGate` holds exactly the fans mentioned so far, each once |
| Pipeline.WiredPipeline.AdviceIsSpaced | src/pipeline.ts:266-278 | after any interleaving, the cooldown map answers as its log does, the log is spaced, and every published redirection obeys the rejection list as it was when it was made |
| Pipeline.WiredPipeline.NudgesAreAuditedOnce | src/fan-notification-system/delivery-worker.ts:34-52 | after any interleaving, `queuedNudges` holds genuine nudges, addressed as their ids say, and `nudgeAudit` one true entry per decided nudge, bar the one being written |
| Pipeline.WiredPipeline.NothingIsDropped | src/pipeline.ts:266-278 | after any interleaving, everything generated for a gate is published or in its handler's hand, and every fan it found is decided or still to come |
| Pipeline.WiredPipeline.DueNudgesAreStored | src/fan-notification-system/service.ts:32-45 | after any interleaving, `queuedNudges` holds the nudges that were due and no others, bar those about to be stored, each as it was generated |
| PipelineSafety.AlertsSerialKept | src/pipeline.ts:251-257 | every step of every gate keeps each gate's alerts those of handling its updates serially |
| PipelineSafety.ListsLatestKept | src/pipeline.ts:263-264 | every step keeps the engine's and the dashboard's lists those of the gate's latest update, once stored and published |
| PipelineSafety.CooldownsKeptKept | src/fan-notification-system/service.ts:32-45 | every step keeps the cooldown map true to its log, the log spaced, and a cooldown read in flight still valid |
| PipelineSafety.RejectionsRespectedKept | src/pipeline.ts:266-271 | every step keeps published and pending redirections clear of every pair rejected in the 5 minutes before their handler's start, less the skew |
| PipelineLifecycle.LifecycleKept | src/fan-notification-system/delivery-worker.ts:28-53 | every step keeps nudges genuine, cooldowns matched by nudges, and audit entries one per decided nudge |
| PipelineLifecycle.TerminalForGood | src/fan-notification-system/delivery.ts:32-57 | in every step, with passes that do not overlap, no nudge disappears, a decided one never changes, and a queued one changes only in its status and time, by delivery at the time of the pass under High or Critical risk or cancellation otherwise |
| PipelineRuns.InterleavingSafety | src/pipeline.ts:248-279 | in every interleaving, per gate: the published forecast is that of its latest update, the previous risk is that of its updates' last one when the handler is done, and the alerts are the rising edges of the updates that the run brought |
| PipelineRuns.HistoriesOfRun | src/pipeline.ts:217-256 | what the states hold of signals, updates, forecasts and rejections is exactly what the run has brought, in order |
| PipelineRuns.EveryNudgeMade | src/fan-notification-system/service.ts:34-44 | in every interleaving every stored nudge, up to its decision, is exactly what its gate's handler generated from the forecasts of that moment |
| PipelineRuns.ActionListsLatest | src/recommendation-engine/service.ts:41-46 | in every interleaving a gate whose handler is done shows, in both stores, the list of its last forecast and of a window of its own signals that misses none from before that update; none exactly for LOW, else four ranked actions |
| PipelineRuns.WindowsOverRuns | src/pipeline.ts:131-143 | in every interleaving a gate's window is exactly what it received in the 10 minutes before its last signal, in order, and that signal; and forecasting from it is forecasting from everything it received |
| PipelineRuns.FansOverRuns | src/pipeline.ts:148-165 | in every interleaving a gate's fans are exactly those that some signal so far mentioned at it, each once |
| PipelineRuns.SpacingOverRuns | src/pipeline.ts:266-278 | in every interleaving cooldowns stay spaced, and whatever is rejected later, no published redirection is of a pair rejected in the 5 minutes before its handler's start, less the skew |
| PipelineRuns.RedirectionsObeyList | src/pipeline.ts:266-271 | in every interleaving every redirection was generated against the whole rejection list of that moment: no pair that had been rejected by then, before the handler's start or after it, within 5 minutes less the skew |
| PipelineRuns.StoredNudgesSpaced | src/fan-notification-system/service.ts:40-43 | in every interleaving two stored nudges for one fan and gate are 5 minutes apart, less the skew |
| PipelineRuns.NudgeLifecycle | src/fan-notification-system/delivery-worker.ts:34-52 | in every interleaving with passes that do not overlap, every nudge was generated under High or Critical risk and is addressed to the fan and gate of its id, every cooldown set by a finished handler has its stored nudge, and each decided nudge has exactly one true audit entry, whose record names that fan and gate, delivered ones decided under High or Critical risk |
| PipelineRuns.PassLeavesNoneQueued | src/fan-notification-system/delivery-worker.ts:32-52 | when a pass has visited its snapshot, no nudge present at its start is still queued |
| PipelineCoverage.EverythingPublished | src/pipeline.ts:267-271 | in every interleaving, what is published of a gate and then what its handler still has in hand is what its handlers generated: all of it, once, in that order, nothing else |
| PipelineCoverage.AdvicePublished | src/pipeline.ts:266-271 | once a gate has none in hand, the whole advice of each of its handlers is published in one piece: one redirection, to the alternative of that moment and as of the handler's start, for every assigned route that was clear, in route order; none if the gate was not hot or had no alternative |
| PipelineCoverage.OneRedirectPerUpdate | src/pipeline.ts:249-279 | in every interleaving every score update comes to its redirections exactly once, and finishes once |
| PipelineCoverage.EveryFanDecided | src/pipeline.ts:273-275 | in every interleaving the fans decided about, and then those still to come, are the fans that the handlers found at their gate, each once and in order |
| PipelineCoverage.EveryDueNudgeStored | src/fan-notification-system/service.ts:32-45 | in every interleaving a fan that is decided about gets a nudge exactly when its gate is hot and its last live nudge is 5 minutes old; those nudges, and no others, are in the store or about to be |
| PipelineCoverage.PassDecidesAll | src/fan-notification-system/delivery-worker.ts:32-52 | whenever no delivery pass is running, every nudge that was stored when any pass began is decided |
| PipelineCoverage.NothingStuck | src/pipeline.ts:249-279 | after any run every handler in flight and every pass can take its next step, and signals, rejections and updates can come |
| PipelineCoverage.HandlerEnds | src/pipeline.ts:249-279 | every step of a handler brings it nearer to its end |
| PipelineCoverage.PassEnds | src/fan-notification-system/delivery-worker.ts:34-52 | every step of a pass leaves it less to do |
| AdviceOptimal.AlternativeIsBest | src/congestion-forecaster/risk-comparison.ts:47-70 | with consistent forecasts an alternative is named exactly when some gate is both of the least (score, id) among the others and of strictly lower risk, and then it is that gate |
| AdviceOptimal.AdviceWasBest | src/pipeline.ts:264-278 | in every interleaving whose forecasts come from the forecaster or its fallback, every published redirection and every stored nudge names the gate that was that best alternative when its handler made it; a nudge names none exactly when there was none |
| AlertOverlap.UnguardedStart | src/pipeline.ts:251-257 | in any state with serial alerts so far, a score handler's start keeps them serial exactly when the update is not hot, or the previous risk is as hot as the last update |
| AlertOverlap.MovesAsInPipeline | src/pipeline.ts:248-257 | the moves are what the pipeline's two steps do to the scores |
| AlertOverlap.OverlappingRuns | src/pipeline.ts:248-257 | however handlers of a gate overlap, its alerts have been the rising edges at every moment of the run if and only if every start met that condition |
| AlertOverlap.OneAtATimeIsSerial | src/infra/kafka-topics.ts:5-10 | one handler of the gate at a time meets it throughout |
| AlertOverlap.OverlapDuplicatesAlert | src/pipeline.ts:251-257 | two overlapping hot updates of a calm gate raise two alerts for one rise |
| AlertOverlap.OverlapLosesAlert | src/pipeline.ts:251-257 | a calm and a hot update of a hot gate that overlap raise none for the rise |
| PassOverlap.AuditCount | src/fan-notification-system/delivery-worker.ts:32-52 | however delivery passes overlap, once they are through a nudge has exactly as many audit entries as passes began while it was queued, and is decided if there was one |
| PassOverlap.SinglePassAsInPipeline | src/fan-notification-system/delivery-worker.ts:34-52 | a single pass visits and audits as the pipeline's worker does |
| PassOverlap.AuditedOnceIffHarmless | src/pipeline.ts:320-322 | then no nudge has two entries if and only if no pass began while another had a nudge ahead that was still queued |
| PassOverlap.DecidedForGood | src/fan-notification-system/delivery-worker.ts:34-45 | and as long as passes begin so, no turn changes a decided nudge |
| PassOverlap.TwoPassesDecideTwice | src/pipeline.ts:320-322 | two passes with one queued nudge in both snapshots can deliver it and then cancel it, with two audit entries |

## Left out

- Express routes, CORS, logging, WebSocket streaming, process lifecycle, API keys: plumbing around the decisions.
- Real Redis, Kafka and SQL: only the in-memory TTL semantics are modelled.
- Parsing and serialising signals, and their timing classification: events are taken as parsed, with `isStale` given.
- Explanation and message texts, random ids and ISO formatting: opaque; the facts that texts quote are fields.
- Data-quality alerts, alert acknowledgement, snapshot and audit queries: readers and setters that no decision modelled here depends on.
- The forecast scheduler's ticks: in the pipeline model a forecast for any gate may be published at any time.
- Terminal statuses of redirections: accepting and rejecting have no status guard in the source, so none is claimed.
- The redirection store inside the pipeline machine: `ShuttleRedirectionApi` models it; the machine records what is published.
- `executeAction` inside the pipeline machine: `ActiveActions` models its two stretches, and `InterleavedExecution` says exactly what its await lets happen.
- Sorting in place: the sorted arrays are local to one call, so they are modelled as values; `Sorting.SortBy` is the runtime's stable sort.
- PipelineRuns.NudgeLifecycle: assumes that the skew is below the 5-minute cooldown, because nudge ids are unique only then (`DistinctIdsIffSkewBelowCooldown`), and passes that do not overlap (`AuditedOnceIffHarmless` says when overlapping ones agree).
- PipelineLifecycle.TerminalForGood: under the same two assumptions; `DecidedForGood` is its counterpart for overlapping passes.
- Nudging.FanNotificationService.OnScoreUpdate: one handler at a time; interleaved handlers are in the pipeline machine.
- Redirecting.ShuttleRedirectionApi.RejectRedirection: the awaits within one request are not split; in the pipeline machine a rejection reaches the list later than its own time.
