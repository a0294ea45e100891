/**
 The life of a nudge, over every interleaving of score handlers with a delivery pass. It rests
 on the cooldown: only because nudges for one fan and gate are spaced is a new nudge's id new,
 so that storing it cannot overwrite a nudge that has already been decided. Hence the
 assumption, throughout, that the clock skew stays below the cooldown.
 */
module PipelineLifecycle {
  import opened Domain
  import opened Selection
  import opened Expiry
  import opened Nudging
  import opened Delivering
  import opened PipelineMachine
  import opened PipelineSafety

  type Handlers = map<GateId, Handler>

  function IdOf(w: Write<CooldownKey, Time>): NudgeId {
    (w.key.0, w.key.1, w.value)
  }

  ghost predicate Logged(log: CooldownLog, id: NudgeId) {
    exists w :: w in log && IdOf(w) == id
  }

  /** A nudge as generated for its gate: under High or Critical risk, with its cooldown written. */
  ghost predicate Genuine(n: FanNudge, id: NudgeId, log: CooldownLog) {
    && n.id == id && n.fanId == id.0 && n.originGateId == id.1 && n.generatedAt == id.2
    && IsHot(n.originRisk) && Logged(log, id)
  }

  predicate Holds(handlers: Handlers, gate: GateId) {
    gate in handlers && handlers[gate].phase.CooldownSet?
  }

  /** Stored nudges are genuine; a nudge in a handler's hand is genuine, queued and not yet stored. */
  ghost predicate QueueSound(nudges: Nudges, handlers: Handlers) {
    && (forall id | id in nudges.queue :: Genuine(nudges.queue[id], id, nudges.log))
    && (forall gate | Holds(handlers, gate) :: InHand(nudges, handlers[gate].phase.nudge, gate))
  }

  ghost predicate InHand(nudges: Nudges, n: FanNudge, gate: GateId) {
    n.id.1 == gate && n.status == QUEUED && Genuine(n, n.id, nudges.log) && n.id !in nudges.queue
  }

  /** Every cooldown that was set has its nudge, stored or still in the hand of its gate's handler. */
  ghost predicate NoneLost(nudges: Nudges, handlers: Handlers) {
    forall w | w in nudges.log ::
      IdOf(w) in nudges.queue || (Holds(handlers, w.key.1) && handlers[w.key.1].phase.nudge.id == IdOf(w))
  }

  // ---------- Generation ----------

  lemma NewIdIsNew(log: CooldownLog, w: Write<CooldownKey, Time>, skew: nat)
    requires Spaced(log + [w], skew) && skew < 5 * MINUTE
    ensures !Logged(log, IdOf(w))
  {
    forall v | v in log ensures IdOf(v) != IdOf(w) {
      var i :| 0 <= i < |log| && log[i] == v;
      assert (log + [w])[i] == v && (log + [w])[|log|] == w;
    }
  }

  lemma LoggedGrows(log: CooldownLog, w: Write<CooldownKey, Time>)
    ensures Logged(log + [w], IdOf(w)) && forall id | Logged(log, id) :: Logged(log + [w], id)
  {
    assert w in log + [w];
    forall id | Logged(log, id) ensures Logged(log + [w], id) {
      var v :| v in log && IdOf(v) == id;
      assert v in log + [w];
    }
  }

  lemma GeneratedGenuine(cfg: Config, s: State, id: GateId, w: Write<CooldownKey, Time>)
    requires StrictTotalOrder(cfg.before) && Resumes(s, Decide(id, 0))
    requires var h := s.handlers[id];
      NudgeFor(cfg, s.scores.forecasts, id, h).Some? && IdOf(w) == (h.phase.fans[0], id, h.now)
    ensures var n := NudgeFor(cfg, s.scores.forecasts, id, s.handlers[id]).value;
      && n.id == IdOf(w) && n.status == QUEUED
      && Genuine(n, n.id, s.nudges.log + [w])
  {
    LoggedGrows(s.nudges.log, w);
  }

  lemma DecideKeepsQueue(cfg: Config, s: State, id: GateId, now: Time)
    requires StrictTotalOrder(cfg.before) && Enabled(cfg, s, Decide(id, now)) && cfg.skew < 5 * MINUTE
    requires HandlersLatest(s) && CooldownsKept(cfg, s)
    requires QueueSound(s.nudges, s.handlers) && NoneLost(s.nudges, s.handlers)
    ensures var t := OnDecide(cfg, s, id, now); QueueSound(t.nudges, t.handlers) && NoneLost(t.nudges, t.handlers)
  {
    hide StrictTotalOrder, NudgeFor, Stored, Logged, CooldownsKept, HandlersLatest;
    var h := s.handlers[id];
    var t := OnDecide(cfg, s, id, now);
    if NudgeFor(cfg, s.scores.forecasts, id, h).Some? {
      var w := Write((h.phase.fans[0], id), h.now, now, COOLDOWN_PERIOD_MS);
      SpacedAfterDecide(cfg, s, id, now);
      NewIdIsNew(s.nudges.log, w, cfg.skew);
      LoggedGrows(s.nudges.log, w);
      GeneratedGenuine(cfg, s, id, w);
      forall v | v in t.nudges.log && v != w ensures v in s.nudges.log {
      }
    }
  }

  lemma SpacedAfterDecide(cfg: Config, s: State, id: GateId, now: Time)
    requires StrictTotalOrder(cfg.before) && Enabled(cfg, s, Decide(id, now))
    requires HandlersLatest(s) && CooldownsKept(cfg, s)
    ensures Spaced(OnDecide(cfg, s, id, now).nudges.log, cfg.skew)
  {
    hide OnDecide, HandlersLatest;
    DecideKeepsCooldowns(cfg, s, id, now);
  }

  lemma EnqueueKeepsQueue(s: State, id: GateId)
    requires Resumes(s, Enqueue(id))
    requires QueueSound(s.nudges, s.handlers) && NoneLost(s.nudges, s.handlers)
    ensures var t := OnEnqueue(s, id); QueueSound(t.nudges, t.handlers) && NoneLost(t.nudges, t.handlers)
  {
    hide Logged;
    assert InHand(s.nudges, s.handlers[id].phase.nudge, id);
  }

  // ---------- Delivery ----------

  /**
   An audit entry: terminal, with a record exactly when delivered, and delivered exactly under
   High or Critical risk. The record names the fan and the gate that the nudge's id names.
   */
  predicate EntrySound(e: AuditEntry) {
    && e.nudge.fanId == e.nudge.id.0 && e.nudge.originGateId == e.nudge.id.1
    && (e.record.Some? ==>
          && e.record.value.fanId == e.nudge.id.0 && e.record.value.targetGate == e.nudge.id.1
          && e.nudge.simulatedDeliveryTimestamp == Some(e.record.value.simulatedDeliveryTimestamp))
    && e.nudge.status != QUEUED
    && (e.record.Some? <==> e.nudge.status == SIMULATED_DELIVERED)
    && (e.record.Some? <==> IsHot(e.decidedUnder))
  }

  predicate Audited(audit: seq<AuditEntry>, id: NudgeId) {
    exists e :: e in audit && e.nudge.id == id
  }

  /** One sound entry per decided nudge, which is as the entry says; the worker may owe the latest one. */
  ghost predicate AuditSound(nudges: Nudges, worker: Worker) {
    && (forall e | e in nudges.audit ::
          EntrySound(e) && e.nudge.id in nudges.queue && nudges.queue[e.nudge.id] == e.nudge)
    && (forall i, j :: 0 <= i < j < |nudges.audit| ==> nudges.audit[i].nudge.id != nudges.audit[j].nudge.id)
    && (forall id | id in nudges.queue && nudges.queue[id].status != QUEUED ::
          Audited(nudges.audit, id) || (worker.Auditing? && worker.entry.nudge.id == id))
    && (worker.Auditing? ==>
          && EntrySound(worker.entry) && worker.entry.nudge.id in nudges.queue
          && nudges.queue[worker.entry.nudge.id] == worker.entry.nudge
          && !Audited(nudges.audit, worker.entry.nudge.id))
  }

  /**
   The rest of a pass: distinct stored nudges, the queued ones up to date, covering every queued
   one from its start.
   */
  ghost predicate PassSound(queue: map<NudgeId, FanNudge>, pending: seq<FanNudge>, started: set<NudgeId>) {
    && (forall i, j :: 0 <= i < j < |pending| ==> pending[i].id != pending[j].id)
    && (forall n | n in pending :: n.id in queue && (n.status == QUEUED ==> queue[n.id] == n))
    && (forall id | id in started :: id in queue && (queue[id].status == QUEUED ==> queue[id] in pending))
  }

  ghost predicate WorkerSound(nudges: Nudges, worker: Worker) {
    worker.Resting? || PassSound(nudges.queue, worker.pending, worker.started)
  }

  ghost predicate DeliverySound(nudges: Nudges, worker: Worker) {
    AuditSound(nudges, worker) && WorkerSound(nudges, worker)
  }

  lemma EnqueueKeepsDelivery(s: State, id: GateId)
    requires Resumes(s, Enqueue(id)) && QueueSound(s.nudges, s.handlers) && DeliverySound(s.nudges, s.worker)
    ensures DeliverySound(OnEnqueue(s, id).nudges, s.worker)
  {
    hide Logged, Audited;
    assert InHand(s.nudges, s.handlers[id].phase.nudge, id);
  }

  lemma PassStartKeepsDelivery(s: State, order: seq<NudgeId>, now: Time)
    requires s.worker.Resting? && Enumerates(order, s.nudges.queue)
    requires KeyedById(s.nudges.queue) && DeliverySound(s.nudges, s.worker)
    ensures DeliverySound(s.nudges, OnPassStart(s, order, now).worker)
  {
    hide Audited;
    var pending := OnPassStart(s, order, now).worker.pending;
    forall id | id in s.nudges.queue ensures s.nudges.queue[id] in pending {
      var i :| 0 <= i < |order| && order[i] == id;
      assert pending[i] == s.nudges.queue[id];
    }
  }

  /** Every stored nudge is addressed as its id says. */
  ghost predicate Addressed(queue: map<NudgeId, FanNudge>) {
    forall id | id in queue :: queue[id].id == id && queue[id].fanId == id.0 && queue[id].originGateId == id.1
  }

  lemma VisitKeepsDelivery(s: State)
    requires s.worker.Scanning? && Addressed(s.nudges.queue) && DeliverySound(s.nudges, s.worker)
    ensures var t := OnPassVisit(s); DeliverySound(t.nudges, t.worker)
  {
    hide SimulateDelivery, Audited;
    var w := s.worker;
    if w.pending != [] {
      var n := w.pending[0];
      assert w.pending == [n] + w.pending[1..];
      if n.status == QUEUED {
        var t := OnPassVisit(s);
        assert n in w.pending;
        DecisionSound(n, s.scores.forecasts, w.now);
        NotYetAudited(s.nudges, s.worker, n.id);
        PassShrinks(s.nudges.queue, w.pending, w.started, t.worker.entry.nudge);
        assert PassSound(t.nudges.queue, t.worker.pending, t.worker.started);
      }
    }
  }

  lemma DecisionSound(n: FanNudge, forecasts: Forecasts, now: Time)
    requires n.status == QUEUED && n.fanId == n.id.0 && n.originGateId == n.id.1
    ensures EntrySound(Decision(n, forecasts, now)) && Decision(n, forecasts, now).nudge.id == n.id
  {
  }

  lemma NotYetAudited(nudges: Nudges, worker: Worker, id: NudgeId)
    requires AuditSound(nudges, worker) && id in nudges.queue && nudges.queue[id].status == QUEUED
    ensures !Audited(nudges.audit, id)
  {
  }

  lemma PassShrinks(queue: map<NudgeId, FanNudge>, pending: seq<FanNudge>, started: set<NudgeId>, decided: FanNudge)
    requires KeyedById(queue) && PassSound(queue, pending, started) && pending != [] && pending[0].status == QUEUED
    requires decided.id == pending[0].id && decided.status != QUEUED
    ensures PassSound(queue[decided.id := decided], pending[1..], started)
  {
    assert pending == [pending[0]] + pending[1..];
    forall i | 0 <= i < |pending| - 1 ensures pending[1..][i].id != decided.id {
      assert pending[1..][i] == pending[i + 1];
    }
  }

  lemma AuditKeepsDelivery(s: State)
    requires s.worker.Auditing? && DeliverySound(s.nudges, s.worker)
    ensures var t := OnPassAudit(s); DeliverySound(t.nudges, t.worker)
  {
    var t := OnPassAudit(s);
    forall id | Audited(s.nudges.audit, id) || s.worker.entry.nudge.id == id ensures Audited(t.nudges.audit, id) {
      if Audited(s.nudges.audit, id) {
        var e :| e in s.nudges.audit && e.nudge.id == id;
        assert e in t.nudges.audit;
      } else {
        assert s.worker.entry in t.nudges.audit;
      }
    }
  }

  // ---------- Every step ----------

  ghost predicate Lifecycle(s: State) {
    QueueSound(s.nudges, s.handlers) && NoneLost(s.nudges, s.handlers) && DeliverySound(s.nudges, s.worker)
  }

  /** Who holds which nudge is unchanged. */
  lemma SameHands(nudges: Nudges, nudges': Nudges, handlers: Handlers, handlers': Handlers)
    requires QueueSound(nudges, handlers) && NoneLost(nudges, handlers)
    requires nudges'.log == nudges.log && nudges'.queue == nudges.queue
    requires forall gate :: Holds(handlers, gate) <==> Holds(handlers', gate)
    requires forall gate | Holds(handlers, gate) :: gate in handlers' && handlers'[gate] == handlers[gate]
    ensures QueueSound(nudges', handlers') && NoneLost(nudges', handlers')
  {
  }

  lemma DecisionsKeepQueue(s: State)
    requires s.worker.Scanning? && Lifecycle(s)
    ensures var t := OnPassVisit(s); QueueSound(t.nudges, s.handlers) && NoneLost(t.nudges, s.handlers)
  {
    hide Logged, Audited;
    if s.worker.pending != [] {
      assert s.worker.pending[0] in s.worker.pending;
    }
  }

  lemma LifecycleKept(cfg: Config, s: State, step: Step)
    requires StrictTotalOrder(cfg.before) && Enabled(cfg, s, step) && cfg.skew < 5 * MINUTE
    requires HandlersLatest(s) && CooldownsKept(cfg, s) && Lifecycle(s)
    ensures Lifecycle(Next(cfg, s, step))
  {
    hide StrictTotalOrder, Next, CooldownsKept, HandlersLatest, Lifecycle;
    Dispatch(cfg, s, step);
    match step
    case Decide(id, now) => DecideKeepsLifecycle(cfg, s, id, now);
    case Enqueue(id) => EnqueueKeepsLifecycle(s, id);
    case PassStart(order, now) => PassStartKeepsLifecycle(s, order, now);
    case PassVisit => VisitKeepsLifecycle(s);
    case PassAudit => AuditKeepsLifecycle(s);
    case _ => OthersKeepLifecycle(cfg, s, step);
  }

  lemma DecideKeepsLifecycle(cfg: Config, s: State, id: GateId, now: Time)
    requires StrictTotalOrder(cfg.before) && Enabled(cfg, s, Decide(id, now)) && cfg.skew < 5 * MINUTE
    requires HandlersLatest(s) && CooldownsKept(cfg, s) && Lifecycle(s)
    ensures Lifecycle(OnDecide(cfg, s, id, now))
  {
    hide StrictTotalOrder, CooldownsKept, HandlersLatest, OnDecide, QueueSound, NoneLost, DeliverySound;
    DecideKeepsQueue(cfg, s, id, now);
    DecideLeavesDelivery(cfg, s, id, now);
  }

  lemma EnqueueKeepsLifecycle(s: State, id: GateId)
    requires Resumes(s, Enqueue(id)) && Lifecycle(s)
    ensures Lifecycle(OnEnqueue(s, id))
  {
    hide QueueSound, NoneLost, DeliverySound;
    EnqueueKeepsQueue(s, id);
    EnqueueKeepsDelivery(s, id);
  }

  lemma PassStartKeepsLifecycle(s: State, order: seq<NudgeId>, now: Time)
    requires s.worker.Resting? && Enumerates(order, s.nudges.queue) && Lifecycle(s)
    ensures Lifecycle(OnPassStart(s, order, now))
  {
    hide QueueSound, NoneLost, DeliverySound;
    Keyed(s);
    PassStartKeepsDelivery(s, order, now);
  }

  lemma VisitKeepsLifecycle(s: State)
    requires s.worker.Scanning? && Lifecycle(s)
    ensures Lifecycle(OnPassVisit(s))
  {
    hide QueueSound, NoneLost, DeliverySound, OnPassVisit;
    Keyed(s);
    VisitKeepsDelivery(s);
    DecisionsKeepQueue(s);
    VisitLeavesHandlers(s);
  }

  lemma AuditKeepsLifecycle(s: State)
    requires s.worker.Auditing? && Lifecycle(s)
    ensures Lifecycle(OnPassAudit(s))
  {
    hide QueueSound, NoneLost, DeliverySound;
    AuditKeepsDelivery(s);
    SameHands(s.nudges, OnPassAudit(s).nudges, s.handlers, s.handlers);
  }

  lemma OthersKeepLifecycle(cfg: Config, s: State, step: Step)
    requires StrictTotalOrder(cfg.before) && Enabled(cfg, s, step) && Lifecycle(s)
    requires !step.Decide? && !step.Enqueue? && !step.PassStart? && !step.PassVisit? && !step.PassAudit?
    ensures Lifecycle(Next(cfg, s, step))
  {
    hide StrictTotalOrder, Enabled, Next, QueueSound, NoneLost, DeliverySound;
    var t := Next(cfg, s, step);
    Frame(cfg, s, step);
    NudgeFrame(cfg, s, step);
    SameHands(s.nudges, t.nudges, s.handlers, t.handlers);
    SameStore(s.nudges, t.nudges, s.worker);
  }

  lemma Keyed(s: State)
    requires QueueSound(s.nudges, s.handlers)
    ensures KeyedById(s.nudges.queue) && Addressed(s.nudges.queue)
  {
  }

  lemma DecideLeavesDelivery(cfg: Config, s: State, id: GateId, now: Time)
    requires StrictTotalOrder(cfg.before) && Resumes(s, Decide(id, now)) && DeliverySound(s.nudges, s.worker)
    ensures var t := OnDecide(cfg, s, id, now); t.worker == s.worker && DeliverySound(t.nudges, t.worker)
  {
    hide NudgeFor, Audited;
  }

  lemma VisitLeavesHandlers(s: State)
    requires s.worker.Scanning?
    ensures OnPassVisit(s).handlers == s.handlers
  {
  }

  lemma SameStore(nudges: Nudges, nudges': Nudges, worker: Worker)
    requires DeliverySound(nudges, worker) && nudges'.queue == nudges.queue && nudges'.audit == nudges.audit
    ensures DeliverySound(nudges', worker)
  {
  }

  /**
   In one step no nudge disappears, a decided one never changes again, and a queued one changes
   only by being decided: delivered, at the time of the pass, when its gate's published risk is High
   or Critical at that moment, cancelled otherwise.
   */
  lemma TerminalForGood(cfg: Config, s: State, step: Step, id: NudgeId)
    requires StrictTotalOrder(cfg.before) && Enabled(cfg, s, step) && Lifecycle(s) && id in s.nudges.queue
    ensures var t := Next(cfg, s, step); var before := s.nudges.queue[id];
      && id in t.nudges.queue
      && (before.status != QUEUED ==> t.nudges.queue[id] == before)
      && (t.nudges.queue[id] != before ==>
            && step.PassVisit? && s.worker.Scanning?
            && t.nudges.queue[id]
            == if IsHot(GateRisk(s.scores.forecasts, id.1)) then
                 before.(status := SIMULATED_DELIVERED, simulatedDeliveryTimestamp := Some(s.worker.now))
               else
                 before.(status := CANCELLED))
  {
    hide StrictTotalOrder, Next, Lifecycle;
    if step.Enqueue? {
      Dispatch(cfg, s, step);
      EnqueueOverwritesNothing(s, step.id, id);
    } else if step.PassVisit? {
      Dispatch(cfg, s, step);
      VisitDecidesOne(s, id);
    } else {
      QueueFrame(cfg, s, step);
    }
  }

  lemma EnqueueOverwritesNothing(s: State, gate: GateId, id: NudgeId)
    requires Resumes(s, Enqueue(gate)) && Lifecycle(s) && id in s.nudges.queue
    ensures var queue := OnEnqueue(s, gate).nudges.queue; id in queue && queue[id] == s.nudges.queue[id]
  {
    assert InHand(s.nudges, s.handlers[gate].phase.nudge, gate);
  }

  lemma VisitDecidesOne(s: State, id: NudgeId)
    requires s.worker.Scanning? && Lifecycle(s) && id in s.nudges.queue
    ensures var queue := OnPassVisit(s).nudges.queue; var before := s.nudges.queue[id];
      && id in queue
      && (queue[id] != before ==>
            && before.status == QUEUED && before.originGateId == id.1
            && queue[id] == Decision(before, s.scores.forecasts, s.worker.now).nudge)
  {
    hide SimulateDelivery, Audited, Logged;
    if s.worker.pending != [] {
      assert s.worker.pending[0] in s.worker.pending;
    }
  }
}
