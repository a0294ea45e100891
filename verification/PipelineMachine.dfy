/**
 The wired pipeline of src/pipeline.ts as a step machine.

 A step is a stretch of a handler between two awaits, so steps of different handlers interleave
 freely. Four things are assumed of the environment, all of them visible in `Enabled`: the clock
 never goes back; at most one score handler is in flight per gate, the per-gate order that
 src/infra/kafka-topics.ts asks of the transport (`AlertOverlap` says exactly what happens without
 it); one delivery pass runs at a time, which the source's timer does not see to (`PassOverlap`
 says exactly when overlapping passes do no harm); and a handler's store reads, and a rejection's
 entry into the list, come at most `skew` after their own clock readings.

 The fields called history below are for stating properties: no other effect depends on them.
 */
module PipelineMachine {
  import opened Domain
  import opened SignalWindow
  import opened Selection
  import opened Expiry
  import opened Redirecting
  import opened Nudging
  import opened Delivering
  import opened Alerting
  import opened Recommending

  datatype Config = Config(before: GateOrder, routes: seq<RouteId>, skew: nat)

  /** Where a score handler waits. The comments name the awaited call. */
  datatype Phase =
    | AlertRaised                                                             // raiseRiskLevelAlertIfTransitioned
    | WindowRead(window: seq<SignalEvent>)                                    // getWindowForGate
    | ActionsStored(actions: seq<RecommendedAction>)                          // setActiveActions
    | ActionsPublished                                                        // publishActions
    | Publishing(pending: seq<Redirection>)                                   // updateRecommendation
    | Checking(fans: seq<FanId>)                                              // enqueue, or the head of the fan loop
    | CooldownRead(fans: seq<FanId>, last: Option<Time>, readAt: Time)        // getLastNudgeAt for fans[0]
    | CooldownSet(fans: seq<FanId>, nudge: FanNudge)                          // setLastNudgeAt for fans[0]

  datatype Handler = Handler(gate: Gate, result: ForecastResult, now: Time, phase: Phase)

  /** A delivery pass: what it still has to visit of its snapshot, and the store's ids at its start. */
  datatype Worker =
    | Resting
    | Scanning(pending: seq<FanNudge>, started: set<NudgeId>, now: Time)
    | Auditing(entry: AuditEntry, pending: seq<FanNudge>, started: set<NudgeId>, now: Time)

  /** Signals: the per-gate windows and fan lists; `arrivals` is history. */
  datatype Intake = Intake(
    windows: map<GateId, seq<SignalEvent>>,
    fans: map<GateId, seq<FanId>>,
    arrivals: map<GateId, seq<Arrival>>)

  /** Scores: the latest forecasts, the previous risks, the alerts; `history` lists the updates per gate. */
  datatype Scores = Scores(
    forecasts: Forecasts,
    previousRisk: map<GateId, RiskLevel>,
    alerts: seq<Alert>,
    history: map<GateId, seq<Handled>>)

  /** Action lists: the engine's store and the dashboard's copy; `served` is history. */
  datatype Lists = Lists(
    actions: map<GateId, seq<RecommendedAction>>,
    dashboard: map<GateId, seq<RecommendedAction>>,
    served: map<GateId, Served>)

  /** The server's rejection list; `published` lists the redirections put on the bus. */
  datatype Advice = Advice(rejections: seq<RejectionRecord>, published: seq<Redirection>)

  /** The cooldown map and the nudge store, with the audit sink; `log` is history. */
  datatype Nudges = Nudges(
    cooldowns: map<CooldownKey, Entry<Time>>,
    log: CooldownLog,
    queue: map<NudgeId, FanNudge>,
    audit: seq<AuditEntry>)

  datatype State = State(
    clock: Time,
    intake: Intake,
    scores: Scores,
    lists: Lists,
    advice: Advice,
    nudges: Nudges,
    handlers: map<GateId, Handler>,
    worker: Worker)

  datatype Step =
    | Signal(event: SignalEvent, now: Time)
    | Reject(route: RouteId, alternative: GateId, rejectedAt: Time, now: Time)
    | ScoreStart(gate: Gate, result: ForecastResult, now: Time)
    | SetPrevious(id: GateId)
    | StoreActions(id: GateId)
    | PublishActions(id: GateId)
    | Redirect(id: GateId, now: Time)
    | PublishRedirection(id: GateId)
    | ReadCooldown(id: GateId, now: Time)
    | Decide(id: GateId, now: Time)
    | Enqueue(id: GateId)
    | Finish(id: GateId)
    | PassStart(order: seq<NudgeId>, now: Time)
    | PassVisit
    | PassAudit

  function Start(clock: Time): State {
    State(clock, Intake(map[], map[], map[]), Scores(map[], map[], [], map[]), Lists(map[], map[], map[]),
          Advice([], []), Nudges(map[], [], map[], []), map[], Resting)
  }

  function ListAt<T>(m: map<GateId, seq<T>>, gate: GateId): seq<T> {
    if gate in m then m[gate] else []
  }

  function PreviousRisk(scores: Scores, gate: GateId): RiskLevel {
    if gate in scores.previousRisk then scores.previousRisk[gate] else LOW
  }

  // ---------- Fan tracking ----------

  /** The keys of a fan map, in insertion order. */
  function AddFan(fans: seq<FanId>, fan: FanId): seq<FanId> {
    if fan in fans then fans else fans + [fan]
  }

  function AddFans(fans: seq<FanId>, more: seq<FanId>): seq<FanId> {
    if more == [] then fans else AddFan(AddFans(fans, more[..|more| - 1]), more[|more| - 1])
  }

  function TrackFans(fans: map<GateId, seq<FanId>>, event: SignalEvent): map<GateId, seq<FanId>> {
    match event.payload
    case GateCounter(_) => fans
    case TicketScan(fan) =>
      if event.gateId.None? then fans
      else fans[event.gateId.value := AddFan(ListAt(fans, event.gateId.value), fan)]
    case TransitArrival(_, destination, fanIds) =>
      if destination.None? || fanIds.None? then fans
      else fans[destination.value := AddFans(ListAt(fans, destination.value), fanIds.value)]
  }

  // ---------- Steps ----------

  /** The handler of a gate is waiting in the phase that the step resumes. */
  predicate Resumes(s: State, step: Step) {
    match step
    case SetPrevious(id) => id in s.handlers && s.handlers[id].phase.AlertRaised?
    case StoreActions(id) => id in s.handlers && s.handlers[id].phase.WindowRead?
    case PublishActions(id) => id in s.handlers && s.handlers[id].phase.ActionsStored?
    case Redirect(id, _) => id in s.handlers && s.handlers[id].phase.ActionsPublished?
    case PublishRedirection(id) => id in s.handlers && s.handlers[id].phase.Publishing?
    case ReadCooldown(id, _) => id in s.handlers && s.handlers[id].phase.Checking? && s.handlers[id].phase.fans != []
    case Decide(id, _) => id in s.handlers && s.handlers[id].phase.CooldownRead? && s.handlers[id].phase.fans != []
    case Enqueue(id) => id in s.handlers && s.handlers[id].phase.CooldownSet? && s.handlers[id].phase.fans != []
    case Finish(id) => id in s.handlers && s.handlers[id].phase == Checking([])
    case PassVisit => s.worker.Scanning?
    case PassAudit => s.worker.Auditing?
    case _ => true
  }

  /** `order` lists the keys of the nudge store, each once. */
  ghost predicate Enumerates(order: seq<NudgeId>, queue: map<NudgeId, FanNudge>) {
    && (forall i, j :: 0 <= i < j < |order| ==> order[i] != order[j])
    && (forall id :: id in order <==> id in queue)
  }

  ghost predicate Enabled(cfg: Config, s: State, step: Step) {
    && Resumes(s, step)
    && match step
       case Signal(_, now) => s.clock <= now
       case Reject(_, _, rejectedAt, now) => s.clock <= now && rejectedAt <= now <= rejectedAt + cfg.skew
       case ScoreStart(gate, _, now) => s.clock <= now && gate.gateId !in s.handlers
       case Redirect(id, now) => s.clock <= now <= s.handlers[id].now + cfg.skew
       case ReadCooldown(id, now) => s.clock <= now <= s.handlers[id].now + cfg.skew
       case Decide(_, now) => s.clock <= now
       case PassStart(order, now) => s.clock <= now && s.worker.Resting? && Enumerates(order, s.nudges.queue)
       case _ => true
  }

  /** The handler's map with one handler moved on to its next wait. */
  function Advance(handlers: map<GateId, Handler>, id: GateId, phase: Phase): map<GateId, Handler>
    requires id in handlers
  {
    handlers[id := handlers[id].(phase := phase)]
  }

  /** The signal handler up to its recompute: fans first, then the window of an event with a gate. */
  function Received(intake: Intake, event: SignalEvent, now: Time): Intake {
    var tracked := intake.(fans := TrackFans(intake.fans, event));
    if event.gateId.None? then tracked
    else
      var gate := event.gateId.value;
      tracked.(windows := intake.windows[gate := Append(ListAt(intake.windows, gate), event, now)],
               arrivals := intake.arrivals[gate := ListAt(intake.arrivals, gate) + [Arrival(event, now)]])
  }

  /** A score handler up to its first await: the forecast is published and an alert may be raised. */
  function Started(scores: Scores, gate: GateId, result: ForecastResult, now: Time): Scores {
    var risk := RiskOf(result);
    var alert := CheckRiskLevelTransition(gate, PreviousRisk(scores, gate), risk, now);
    scores.(
      forecasts := scores.forecasts[gate := result],
      alerts := scores.alerts + if alert.Some? then [alert.value] else [],
      history := scores.history[gate := ListAt(scores.history, gate) + [Handled(risk, now)]])
  }

  function Replaced(lists: Lists, gate: GateId, served: Served): Lists {
    lists.(actions := lists.actions[gate := GenerateRecommendations(gate, served.forecast, served.window)],
           served := lists.served[gate := served])
  }

  /** What the handler of a gate generates once its cooldown read has come back. */
  function NudgeFor(cfg: Config, forecasts: Forecasts, id: GateId, h: Handler): Option<FanNudge>
    requires StrictTotalOrder(cfg.before) && h.phase.CooldownRead? && h.phase.fans != []
  {
    GenerateFanNudge(cfg.before, h.phase.fans[0], id, forecasts, h.phase.last, h.now)
  }

  function CooledDown(nudges: Nudges, key: CooldownKey, generatedAt: Time, now: Time): Nudges {
    nudges.(cooldowns := Stored(nudges.cooldowns, key, generatedAt, now, COOLDOWN_PERIOD_MS),
            log := nudges.log + [Write(key, generatedAt, now, COOLDOWN_PERIOD_MS)])
  }

  function OnSignal(s: State, event: SignalEvent, now: Time): State {
    s.(clock := now, intake := Received(s.intake, event, now))
  }

  /** The dispatcher's request carries its own time, and reaches the list after its awaits. */
  function OnReject(s: State, record: RejectionRecord, now: Time): State {
    s.(clock := now, advice := s.advice.(rejections := s.advice.rejections + [record]))
  }

  function OnScoreStart(s: State, gate: Gate, result: ForecastResult, now: Time): State {
    s.(clock := now,
       scores := Started(s.scores, gate.gateId, result, now),
       handlers := s.handlers[gate.gateId := Handler(gate, result, now, AlertRaised)])
  }

  function OnSetPrevious(s: State, id: GateId): State
    requires Resumes(s, SetPrevious(id))
  {
    s.(scores := s.scores.(previousRisk := s.scores.previousRisk[id := RiskOf(s.handlers[id].result)]),
       handlers := Advance(s.handlers, id, WindowRead(ListAt(s.intake.windows, id))))
  }

  function OnStoreActions(s: State, id: GateId): State
    requires Resumes(s, StoreActions(id))
  {
    var h := s.handlers[id];
    var lists := Replaced(s.lists, id, Served(h.result, h.phase.window));
    s.(lists := lists, handlers := Advance(s.handlers, id, ActionsStored(lists.actions[id])))
  }

  function OnPublishActions(s: State, id: GateId): State
    requires Resumes(s, PublishActions(id))
  {
    s.(lists := s.lists.(dashboard := s.lists.dashboard[id := s.handlers[id].phase.actions]),
       handlers := Advance(s.handlers, id, ActionsPublished))
  }

  function OnRedirect(cfg: Config, s: State, id: GateId, now: Time): State
    requires StrictTotalOrder(cfg.before) && Resumes(s, Redirect(id, now))
  {
    var h := s.handlers[id];
    var listed := RecentRejections(s.advice.rejections, now);
    var pending := Redirections(cfg.before, h.gate, s.scores.forecasts, cfg.routes, listed, h.now);
    s.(clock := now, handlers := Advance(s.handlers, id, Publishing(pending)))
  }

  function OnPublishRedirection(s: State, id: GateId): State
    requires Resumes(s, PublishRedirection(id))
  {
    var pending := s.handlers[id].phase.pending;
    if pending == [] then
      s.(handlers := Advance(s.handlers, id, Checking(ListAt(s.intake.fans, id))))
    else
      s.(advice := s.advice.(published := s.advice.published + [pending[0]]),
         handlers := Advance(s.handlers, id, Publishing(pending[1..])))
  }

  function OnReadCooldown(s: State, id: GateId, now: Time): State
    requires Resumes(s, ReadCooldown(id, now))
  {
    var fans := s.handlers[id].phase.fans;
    var key := (fans[0], id);
    s.(clock := now,
       nudges := s.nudges.(cooldowns := Evicted(s.nudges.cooldowns, key, now)),
       handlers := Advance(s.handlers, id, CooldownRead(fans, Lookup(s.nudges.cooldowns, key, now), now)))
  }

  function OnDecide(cfg: Config, s: State, id: GateId, now: Time): State
    requires StrictTotalOrder(cfg.before) && Resumes(s, Decide(id, now))
  {
    var h := s.handlers[id];
    var fans := h.phase.fans;
    match NudgeFor(cfg, s.scores.forecasts, id, h)
    case None => s.(clock := now, handlers := Advance(s.handlers, id, Checking(fans[1..])))
    case Some(nudge) =>
      s.(clock := now,
         nudges := CooledDown(s.nudges, (fans[0], id), h.now, now),
         handlers := Advance(s.handlers, id, CooldownSet(fans, nudge)))
  }

  function OnEnqueue(s: State, id: GateId): State
    requires Resumes(s, Enqueue(id))
  {
    var phase := s.handlers[id].phase;
    s.(nudges := s.nudges.(queue := s.nudges.queue[phase.nudge.id := phase.nudge]),
       handlers := Advance(s.handlers, id, Checking(phase.fans[1..])))
  }

  function OnFinish(s: State, id: GateId): State {
    s.(handlers := s.handlers - {id})
  }

  function OnPassStart(s: State, order: seq<NudgeId>, now: Time): State
    requires forall id | id in order :: id in s.nudges.queue
  {
    var queue := s.nudges.queue;
    s.(clock := now,
       worker := Scanning(seq(|order|, i requires 0 <= i < |order| => queue[order[i]]), queue.Keys, now))
  }

  /** Visits the next nudge of the snapshot: decides it if it is queued; ends the pass after the last. */
  function OnPassVisit(s: State): State
    requires s.worker.Scanning?
  {
    var w := s.worker;
    if w.pending == [] then
      s.(worker := Resting)
    else if w.pending[0].status != QUEUED then
      s.(worker := Scanning(w.pending[1..], w.started, w.now))
    else
      var entry := Decision(w.pending[0], s.scores.forecasts, w.now);
      s.(nudges := s.nudges.(queue := s.nudges.queue[entry.nudge.id := entry.nudge]),
         worker := Auditing(entry, w.pending[1..], w.started, w.now))
  }

  function OnPassAudit(s: State): State
    requires s.worker.Auditing?
  {
    s.(nudges := s.nudges.(audit := s.nudges.audit + [s.worker.entry]),
       worker := Scanning(s.worker.pending, s.worker.started, s.worker.now))
  }

  function Next(cfg: Config, s: State, step: Step): State
    requires StrictTotalOrder(cfg.before) && Enabled(cfg, s, step)
  {
    match step
    case Signal(event, now) => OnSignal(s, event, now)
    case Reject(route, alternative, rejectedAt, now) =>
      OnReject(s, RejectionRecord(route, alternative, rejectedAt), now)
    case ScoreStart(gate, result, now) => OnScoreStart(s, gate, result, now)
    case SetPrevious(id) => OnSetPrevious(s, id)
    case StoreActions(id) => OnStoreActions(s, id)
    case PublishActions(id) => OnPublishActions(s, id)
    case Redirect(id, now) => OnRedirect(cfg, s, id, now)
    case PublishRedirection(id) => OnPublishRedirection(s, id)
    case ReadCooldown(id, now) => OnReadCooldown(s, id, now)
    case Decide(id, now) => OnDecide(cfg, s, id, now)
    case Enqueue(id) => OnEnqueue(s, id)
    case Finish(id) => OnFinish(s, id)
    case PassStart(order, now) => OnPassStart(s, order, now)
    case PassVisit => OnPassVisit(s)
    case PassAudit => OnPassAudit(s)
  }

  /** The steps by name, for proofs that keep `Next` hidden. */
  lemma Dispatch(cfg: Config, s: State, step: Step)
    requires StrictTotalOrder(cfg.before) && Enabled(cfg, s, step)
    ensures var t := Next(cfg, s, step);
      && (step.Signal? ==> t == OnSignal(s, step.event, step.now))
      && (step.Reject? ==> t == OnReject(s, RejectionRecord(step.route, step.alternative, step.rejectedAt), step.now))
      && (step.ScoreStart? ==> t == OnScoreStart(s, step.gate, step.result, step.now))
      && (step.SetPrevious? ==> t == OnSetPrevious(s, step.id))
      && (step.StoreActions? ==> t == OnStoreActions(s, step.id))
      && (step.PublishActions? ==> t == OnPublishActions(s, step.id))
      && (step.Redirect? ==> t == OnRedirect(cfg, s, step.id, step.now))
      && (step.PublishRedirection? ==> t == OnPublishRedirection(s, step.id))
      && (step.ReadCooldown? ==> t == OnReadCooldown(s, step.id, step.now))
      && (step.Decide? ==> t == OnDecide(cfg, s, step.id, step.now))
      && (step.Enqueue? ==> t == OnEnqueue(s, step.id))
      && (step.Finish? ==> t == OnFinish(s, step.id))
      && (step.PassStart? ==> t == OnPassStart(s, step.order, step.now))
      && (step.PassVisit? ==> t == OnPassVisit(s))
      && (step.PassAudit? ==> t == OnPassAudit(s))
  {
    hide StrictTotalOrder, OnSignal, OnReject, OnScoreStart, OnSetPrevious, OnStoreActions, OnPublishActions;
    hide OnRedirect, OnPublishRedirection, OnReadCooldown, OnDecide, OnEnqueue, OnFinish, OnPassStart, OnPassVisit,
        OnPassAudit;
  }

  // ---------- What a step leaves alone ----------

  /** The gate whose handler a step starts, resumes or ends. */
  function Owner(step: Step): Option<GateId> {
    match step
    case ScoreStart(gate, _, _) => Some(gate.gateId)
    case SetPrevious(id) => Some(id)
    case StoreActions(id) => Some(id)
    case PublishActions(id) => Some(id)
    case Redirect(id, _) => Some(id)
    case PublishRedirection(id) => Some(id)
    case ReadCooldown(id, _) => Some(id)
    case Decide(id, _) => Some(id)
    case Enqueue(id) => Some(id)
    case Finish(id) => Some(id)
    case _ => None
  }

  lemma Frame(cfg: Config, s: State, step: Step)
    requires StrictTotalOrder(cfg.before) && Enabled(cfg, s, step)
    ensures var t := Next(cfg, s, step);
      && s.clock <= t.clock
      && (!step.Signal? ==> t.intake == s.intake)
      && (!step.ScoreStart? && !step.SetPrevious? ==> t.scores == s.scores)
      && (!step.StoreActions? && !step.PublishActions? ==> t.lists == s.lists)
      && (!step.Reject? && !step.PublishRedirection? ==> t.advice == s.advice)
      && (!step.ReadCooldown? && !step.Decide? && !step.Enqueue? && !step.PassVisit? && !step.PassAudit? ==>
            t.nudges == s.nudges)
      && (!step.PassStart? && !step.PassVisit? && !step.PassAudit? ==> t.worker == s.worker)
      && (forall id | Owner(step) != Some(id) ::
            && (id in t.handlers <==> id in s.handlers)
            && (id in s.handlers ==> t.handlers[id] == s.handlers[id]))
  {
    hide StrictTotalOrder, NudgeFor, Redirections, RecentRejections;
    hide Received, Started, Replaced, CooledDown, Decision, Lookup, Evicted;
  }

  /** A handler that has not yet published its action list. */
  predicate Early(phase: Phase) {
    phase.AlertRaised? || phase.WindowRead? || phase.ActionsStored?
  }

  predicate EarlyStep(step: Step) {
    step.ScoreStart? || step.SetPrevious? || step.StoreActions? || step.PublishActions?
  }

  /** Only a start publishes scores, and only a start or a finish does more to a handler than move it on. */
  lemma OwnerFrame(cfg: Config, s: State, step: Step)
    requires StrictTotalOrder(cfg.before) && Enabled(cfg, s, step) && !step.ScoreStart?
    ensures var t := Next(cfg, s, step);
      && t.scores == s.scores.(previousRisk := t.scores.previousRisk)
      && t.handlers.Keys == s.handlers.Keys - (if step.Finish? then {step.id} else {})
      && (forall id | id in t.handlers :: t.handlers[id] == s.handlers[id].(phase := t.handlers[id].phase))
      && (forall id | id in t.handlers && Owner(step) == Some(id) :: !t.handlers[id].phase.AlertRaised?)
  {
    hide StrictTotalOrder, NudgeFor, Redirections, RecentRejections;
    hide Received, Started, Replaced, CooledDown, Decision, Lookup, Evicted;
  }

  lemma LateFrame(cfg: Config, s: State, step: Step)
    requires StrictTotalOrder(cfg.before) && Enabled(cfg, s, step) && !EarlyStep(step)
    ensures var t := Next(cfg, s, step);
      forall id | Owner(step) == Some(id) ::
        id in s.handlers && !Early(s.handlers[id].phase) && (id in t.handlers ==> !Early(t.handlers[id].phase))
  {
    hide StrictTotalOrder, NudgeFor, Redirections, RecentRejections;
    hide Received, Started, Replaced, CooledDown, Decision, Lookup, Evicted;
  }

  /** Only `Decide` leaves a handler with a nudge in hand, and only `Enqueue` takes it from it. */
  lemma NudgeFrame(cfg: Config, s: State, step: Step)
    requires StrictTotalOrder(cfg.before) && Enabled(cfg, s, step)
    ensures var t := Next(cfg, s, step);
      && (!step.Decide? ==>
            forall id | Owner(step) == Some(id) && id in t.handlers :: !t.handlers[id].phase.CooldownSet?)
      && (!step.Enqueue? ==>
            forall id | Owner(step) == Some(id) && id in s.handlers :: !s.handlers[id].phase.CooldownSet?)
      && (step.ReadCooldown? ==> t.nudges == s.nudges.(cooldowns := t.nudges.cooldowns))
  {
    hide StrictTotalOrder, NudgeFor, Redirections, RecentRejections;
    hide Received, Started, Replaced, CooledDown, Decision, Lookup, Evicted;
  }

  lemma QueueFrame(cfg: Config, s: State, step: Step)
    requires StrictTotalOrder(cfg.before) && Enabled(cfg, s, step) && !step.Enqueue? && !step.PassVisit?
    ensures Next(cfg, s, step).nudges.queue == s.nudges.queue
  {
    hide StrictTotalOrder, NudgeFor, Redirections, RecentRejections;
    hide Received, Started, Replaced, Decision, Lookup, Evicted;
  }

  lemma CooldownFrame(cfg: Config, s: State, step: Step)
    requires StrictTotalOrder(cfg.before) && Enabled(cfg, s, step) && !step.ReadCooldown? && !step.Decide?
    ensures var t := Next(cfg, s, step);
      && t.nudges.cooldowns == s.nudges.cooldowns && t.nudges.log == s.nudges.log
      && forall id | Owner(step) == Some(id) && id in t.handlers :: !t.handlers[id].phase.CooldownRead?
  {
    hide StrictTotalOrder, NudgeFor, Redirections, RecentRejections;
    hide Received, Started, Replaced, CooledDown, Decision, Lookup, Evicted;
  }

  lemma PublishingFrame(cfg: Config, s: State, step: Step)
    requires StrictTotalOrder(cfg.before) && Enabled(cfg, s, step)
    ensures var t := Next(cfg, s, step);
      && (!step.Redirect? && !step.PublishRedirection? ==>
            forall id | Owner(step) == Some(id) && id in t.handlers :: !t.handlers[id].phase.Publishing?)
      && (!step.PublishRedirection? ==> t.advice.published == s.advice.published)
      && (!step.Reject? ==> t.advice.rejections == s.advice.rejections)
  {
    hide StrictTotalOrder, NudgeFor, Redirections, RecentRejections;
    hide Received, Started, Replaced, CooledDown, Decision, Lookup, Evicted;
  }

  lemma StartedAt(scores: Scores, gate: GateId, result: ForecastResult, now: Time, id: GateId)
    ensures var after := Started(scores, gate, result, now); var before := ListAt(scores.history, id);
      && after.previousRisk == scores.previousRisk
      && (id != gate ==>
            ListAt(after.history, id) == before && GateRisk(after.forecasts, id) == GateRisk(scores.forecasts, id))
      && (id == gate ==> ListAt(after.history, id) == before + [Handled(RiskOf(result), now)])
      && (id == gate ==> GateRisk(after.forecasts, id) == RiskOf(result))
      && (before + [Handled(RiskOf(result), now)])[..|before|] == before
  {
  }

  // ---------- Runs ----------

  /** The state after a run of enabled steps; None when some step was not enabled. */
  ghost function Run(cfg: Config, clock: Time, steps: seq<Step>): Option<State>
    requires StrictTotalOrder(cfg.before)
  {
    if steps == [] then
      Some(Start(clock))
    else
      var n := |steps| - 1;
      var earlier := Run(cfg, clock, steps[..n]);
      if earlier.Some? && Enabled(cfg, earlier.value, steps[n]) then Some(Next(cfg, earlier.value, steps[n])) else None
  }

  lemma RunExtends(cfg: Config, clock: Time, steps: seq<Step>, step: Step)
    requires StrictTotalOrder(cfg.before)
    requires Run(cfg, clock, steps).Some? && Enabled(cfg, Run(cfg, clock, steps).value, step)
    ensures Run(cfg, clock, steps + [step]) == Some(Next(cfg, Run(cfg, clock, steps).value, step))
  {
    hide Next, Enabled, StrictTotalOrder;
    assert (steps + [step])[..|steps|] == steps;
  }
}
