/**
 Nothing gets lost in the pipeline, over every run: what a score handler generates is published,
 every fan of its gate is checked, a cooled-down fan of a hot gate gets a nudge, and a delivery
 pass decides every nudge of its start.
 */
module PipelineCoverage {
  import opened Domain
  import opened Filtering
  import opened Selection
  import opened Expiry
  import opened Redirecting
  import opened Nudging
  import opened Delivering
  import opened PipelineMachine
  import opened PipelineSafety
  import opened PipelineLifecycle
  import opened PipelineRuns

  // ---------- Redirections ----------

  /** The redirections of one gate among those published. */
  function PublishedFor(published: seq<Redirection>, gate: GateId): seq<Redirection> {
    if published == [] then
      []
    else
      var n := |published| - 1;
      PublishedFor(published[..n], gate) + if published[n].originGateId == gate then [published[n]] else []
  }

  /** What the gate's handler has generated and not yet published. */
  function Unpublished(s: State, gate: GateId): seq<Redirection> {
    if gate in s.handlers && s.handlers[gate].phase.Publishing? then s.handlers[gate].phase.pending else []
  }

  /**
   The whole advice for the gate in a state, generated at `now` by the handler in flight: against
   the rejections of the 5 minutes before `now`, and as of the handler's own start.
   */
  ghost predicate AdviceIn(cfg: Config, s: State, gate: GateId, now: Time, rs: seq<Redirection>)
    requires StrictTotalOrder(cfg.before)
  {
    && gate in s.handlers && s.handlers[gate].gate.gateId == gate
    && exists listed ::
         && Picks(listed, s.advice.rejections, (j: RejectionRecord) => now - j.rejectedAt <= 5 * MINUTE)
         && FullAdvice(
              rs, cfg.before, s.handlers[gate].gate, s.scores.forecasts, cfg.routes, listed, s.handlers[gate].now)
  }

  lemma RedirectAdvises(cfg: Config, s: State, gate: GateId, now: Time)
    requires StrictTotalOrder(cfg.before) && Resumes(s, Redirect(gate, now)) && HandlersLatest(s)
    ensures AdviceIn(cfg, s, gate, now, OnRedirect(cfg, s, gate, now).handlers[gate].phase.pending)
  {
    hide StrictTotalOrder, Redirections, RecentRejections, FullAdvice, Picks;
    var h, listed := s.handlers[gate], RecentRejections(s.advice.rejections, now);
    RecentRejectionsPicks(s.advice.rejections, now);
    RedirectionsAdvise(cfg.before, h.gate, s.scores.forecasts, cfg.routes, listed, h.now);
  }

  /** What the `Redirect` steps of the gate have generated, one after the other. */
  ghost function Advised(cfg: Config, clock: Time, steps: seq<Step>, gate: GateId): seq<Redirection>
    requires StrictTotalOrder(cfg.before)
  {
    if steps == [] then
      []
    else
      var n := |steps| - 1;
      var after := Run(cfg, clock, steps);
      Advised(cfg, clock, steps[..n], gate)
      + if steps[n].Redirect? && steps[n].id == gate && after.Some? then Unpublished(after.value, gate) else []
  }

  /** A handler's redirections are of its own gate. */
  ghost predicate OwnOrigins(s: State) {
    forall id, r | id in s.handlers && s.handlers[id].phase.Publishing? && r in s.handlers[id].phase.pending ::
      r.originGateId == id
  }

  lemma OwnOriginsKept(cfg: Config, s: State, step: Step)
    requires StrictTotalOrder(cfg.before) && Enabled(cfg, s, step) && HandlersLatest(s) && OwnOrigins(s)
    ensures OwnOrigins(Next(cfg, s, step))
  {
    hide StrictTotalOrder, Next, Redirections, RecentRejections;
    Dispatch(cfg, s, step);
    Frame(cfg, s, step);
    PublishingFrame(cfg, s, step);
    if step.Redirect? {
      RedirectObeys(cfg, s, step.id, step.now);
    }
  }

  lemma PublishedOneMore(published: seq<Redirection>, r: Redirection, gate: GateId)
    ensures PublishedFor(published + [r], gate)
         == PublishedFor(published, gate) + if r.originGateId == gate then [r] else []
  {
    assert (published + [r])[..|published|] == published;
  }

  /**
   A step other than a `Redirect` of the gate moves redirections from the handler to the bus, in
   order, or nothing.
   */
  lemma StepPublishes(cfg: Config, s: State, step: Step, gate: GateId)
    requires StrictTotalOrder(cfg.before) && Enabled(cfg, s, step) && OwnOrigins(s)
    ensures var t := Next(cfg, s, step);
      if step.Redirect? && step.id == gate then
        PublishedFor(t.advice.published, gate) == PublishedFor(s.advice.published, gate) && Unpublished(s, gate) == []
      else
        PublishedFor(t.advice.published, gate) + Unpublished(t, gate)
        == PublishedFor(s.advice.published, gate) + Unpublished(s, gate)
  {
    hide StrictTotalOrder, Next, Redirections, RecentRejections, PublishedFor, OwnOrigins;
    Dispatch(cfg, s, step);
    if step.PublishRedirection? {
      HeadPublished(s, step.id, gate);
    } else {
      Frame(cfg, s, step);
      PublishingFrame(cfg, s, step);
    }
  }

  lemma HeadPublished(s: State, id: GateId, gate: GateId)
    requires Resumes(s, PublishRedirection(id)) && OwnOrigins(s)
    ensures var t := OnPublishRedirection(s, id);
      PublishedFor(t.advice.published, gate) + Unpublished(t, gate)
      == PublishedFor(s.advice.published, gate) + Unpublished(s, gate)
  {
    hide PublishedFor;
    var pending := s.handlers[id].phase.pending;
    if pending != [] {
      assert pending == [pending[0]] + pending[1..] && pending[0] in pending;
      PublishedOneMore(s.advice.published, pending[0], gate);
    }
  }

  /**
   After any run, what is published of a gate, and then what its handler still has in hand, is what
   its `Redirect` steps generated: all of it, once, in that order, and nothing else.
   */
  lemma {:induction false} EverythingPublished(cfg: Config, clock: Time, steps: seq<Step>, gate: GateId)
    requires StrictTotalOrder(cfg.before) && Run(cfg, clock, steps).Some?
    ensures var s := Run(cfg, clock, steps).value;
      && PublishedFor(s.advice.published, gate) + Unpublished(s, gate) == Advised(cfg, clock, steps, gate)
      && OwnOrigins(s)
  {
    hide StrictTotalOrder, Enabled, Next, Invariant, OwnOrigins, Unpublished, PublishedFor;
    if steps == [] {
      NothingPublished(clock, gate);
    } else {
      var n := |steps| - 1;
      var s := Run(cfg, clock, steps[..n]).value;
      EverythingPublished(cfg, clock, steps[..n], gate);
      RunInvariant(cfg, clock, steps[..n]);
      InvariantHandlers(cfg, s);
      OwnOriginsKept(cfg, s, steps[n]);
      StepPublishes(cfg, s, steps[n], gate);
    }
  }

  lemma NothingPublished(clock: Time, gate: GateId)
    ensures var s := Start(clock); PublishedFor(s.advice.published, gate) + Unpublished(s, gate) == [] && OwnOrigins(s)
  {
  }

  /** What a `Redirect` step generated stands, in one piece, in everything that the run generated. */
  lemma {:induction false} AdvisedBlock(cfg: Config, clock: Time, steps: seq<Step>, gate: GateId, m: nat)
      returns (i: nat, j: nat)
    requires StrictTotalOrder(cfg.before) && Run(cfg, clock, steps).Some?
    requires m < |steps| && steps[m].Redirect? && steps[m].id == gate
    ensures i <= j <= |Advised(cfg, clock, steps, gate)| && Run(cfg, clock, steps[..m]).Some?
    ensures AdviceIn(
              cfg, Run(cfg, clock, steps[..m]).value, gate, steps[m].now, Advised(cfg, clock, steps, gate)[i..j])
  {
    hide StrictTotalOrder, Enabled, Next, Invariant, AdviceIn, Unpublished;
    var n := |steps| - 1;
    var earlier := Advised(cfg, clock, steps[..n], gate);
    if m < n {
      i, j := AdvisedBlock(cfg, clock, steps[..n], gate, m);
      assert steps[..n][..m] == steps[..m] && steps[..n][m] == steps[m];
      assert Advised(cfg, clock, steps, gate)[i..j] == earlier[i..j];
    } else {
      i, j := |earlier|, |Advised(cfg, clock, steps, gate)|;
      RunInvariant(cfg, clock, steps[..n]);
      RedirectInHand(cfg, Run(cfg, clock, steps[..n]).value, steps[n]);
      assert Advised(cfg, clock, steps, gate)[i..j] == Unpublished(Run(cfg, clock, steps).value, gate);
    }
  }

  lemma RedirectInHand(cfg: Config, s: State, step: Step)
    requires StrictTotalOrder(cfg.before) && Enabled(cfg, s, step) && Invariant(cfg, s) && step.Redirect?
    ensures AdviceIn(cfg, s, step.id, step.now, Unpublished(Next(cfg, s, step), step.id))
  {
    hide StrictTotalOrder, Next, Invariant, AdviceIn, Redirections, RecentRejections;
    InvariantHandlers(cfg, s);
    Dispatch(cfg, s, step);
    RedirectAdvises(cfg, s, step.id, step.now);
  }

  /**
   Once a gate has no redirection left in hand, the whole advice of each of its `Redirect` steps is
   published: if the gate was hot and had an alternative then, one redirection to it for every
   assigned route that was clear, in route order, as of the handler's start; otherwise none.
   */
  lemma AdvicePublished(cfg: Config, clock: Time, steps: seq<Step>, gate: GateId, m: nat)
    requires StrictTotalOrder(cfg.before) && Run(cfg, clock, steps).Some?
    requires m < |steps| && steps[m].Redirect? && steps[m].id == gate
    requires Unpublished(Run(cfg, clock, steps).value, gate) == []
    ensures var published := PublishedFor(Run(cfg, clock, steps).value.advice.published, gate);
      && Run(cfg, clock, steps[..m]).Some?
      && exists i, j | 0 <= i <= j <= |published| ::
           AdviceIn(cfg, Run(cfg, clock, steps[..m]).value, gate, steps[m].now, published[i..j])
  {
    hide Run, Advised, PublishedFor, Unpublished, AdviceIn, StrictTotalOrder;
    EverythingPublished(cfg, clock, steps, gate);
    var i, j := AdvisedBlock(cfg, clock, steps, gate, m);
    var published := PublishedFor(Run(cfg, clock, steps).value.advice.published, gate);
    assert published + [] == published == Advised(cfg, clock, steps, gate);
    assert AdviceIn(cfg, Run(cfg, clock, steps[..m]).value, gate, steps[m].now, published[i..j]);
  }

  // ---------- One redirect step per update ----------

  /** The gate's handler has not come to its redirections. */
  predicate BeforeRedirect(s: State, gate: GateId) {
    gate in s.handlers && (Early(s.handlers[gate].phase) || s.handlers[gate].phase.ActionsPublished?)
  }

  ghost function Starts(steps: seq<Step>, gate: GateId): nat {
    |Places(steps, (step: Step) => step.ScoreStart? && step.gate.gateId == gate)|
  }

  ghost function Redirects(steps: seq<Step>, gate: GateId): nat {
    |Places(steps, (step: Step) => step.Redirect? && step.id == gate)|
  }

  ghost function Finishes(steps: seq<Step>, gate: GateId): nat {
    |Places(steps, (step: Step) => step.Finish? && step.id == gate)|
  }

  /** Every score update of a gate comes to its redirections exactly once, and finishes once. */
  lemma {:induction false} OneRedirectPerUpdate(cfg: Config, clock: Time, steps: seq<Step>, gate: GateId)
    requires StrictTotalOrder(cfg.before) && Run(cfg, clock, steps).Some?
    ensures var s := Run(cfg, clock, steps).value;
      && Starts(steps, gate) == Redirects(steps, gate) + (if BeforeRedirect(s, gate) then 1 else 0)
      && Starts(steps, gate) == Finishes(steps, gate) + (if gate in s.handlers then 1 else 0)
  {
    hide StrictTotalOrder, Enabled, Next, Starts, Redirects, Finishes, BeforeRedirect;
    if steps == [] {
      NoneYet(clock, gate);
    } else {
      OneRedirectPerUpdate(cfg, clock, steps[..|steps| - 1], gate);
      CountsOneMore(steps, gate);
      StepMovesOn(cfg, Run(cfg, clock, steps[..|steps| - 1]).value, steps[|steps| - 1], gate);
    }
  }

  lemma NoneYet(clock: Time, gate: GateId)
    ensures !BeforeRedirect(Start(clock), gate) && gate !in Start(clock).handlers
    ensures Starts([], gate) == Redirects([], gate) == Finishes([], gate) == 0
  {
    NoPlaces((step: Step) => step.ScoreStart? && step.gate.gateId == gate);
    NoPlaces((step: Step) => step.Redirect? && step.id == gate);
    NoPlaces((step: Step) => step.Finish? && step.id == gate);
  }

  lemma CountsOneMore(steps: seq<Step>, gate: GateId)
    requires steps != []
    ensures var n := |steps| - 1; var step := steps[n];
      && Starts(steps, gate)
         == Starts(steps[..n], gate) + (if step.ScoreStart? && step.gate.gateId == gate then 1 else 0)
      && Redirects(steps, gate) == Redirects(steps[..n], gate) + (if step.Redirect? && step.id == gate then 1 else 0)
      && Finishes(steps, gate) == Finishes(steps[..n], gate) + (if step.Finish? && step.id == gate then 1 else 0)
  {
    hide Places;
    PlacesOneMore(steps, (step: Step) => step.ScoreStart? && step.gate.gateId == gate);
    PlacesOneMore(steps, (step: Step) => step.Redirect? && step.id == gate);
    PlacesOneMore(steps, (step: Step) => step.Finish? && step.id == gate);
  }

  lemma StepMovesOn(cfg: Config, s: State, step: Step, gate: GateId)
    requires StrictTotalOrder(cfg.before) && Enabled(cfg, s, step)
    ensures var t := Next(cfg, s, step);
      && (step.ScoreStart? && step.gate.gateId == gate ==>
            gate !in s.handlers && gate in t.handlers && !BeforeRedirect(s, gate) && BeforeRedirect(t, gate))
      && (step.Redirect? && step.id == gate ==> BeforeRedirect(s, gate) && !BeforeRedirect(t, gate))
      && (step.Finish? && step.id == gate ==>
            gate in s.handlers && gate !in t.handlers && !BeforeRedirect(s, gate))
      && (!(step.ScoreStart? && step.gate.gateId == gate) && !(step.Finish? && step.id == gate) ==>
            (gate in t.handlers <==> gate in s.handlers))
      && (!(step.ScoreStart? && step.gate.gateId == gate) && !(step.Redirect? && step.id == gate) ==>
            (BeforeRedirect(t, gate) <==> BeforeRedirect(s, gate)))
  {
    hide StrictTotalOrder, Next, NudgeFor, Redirections, RecentRejections, Lookup, Evicted;
    hide OnSignal, OnReject, OnPassStart, OnPassVisit, OnPassAudit, Started, Replaced;
    if Owner(step) == Some(gate) {
      Dispatch(cfg, s, step);
    } else {
      Frame(cfg, s, step);
    }
  }
  // ---------- Fans ----------

  /** The fans that the gate's handler has taken and not yet decided about. */
  function FansLeft(s: State, gate: GateId): seq<FanId> {
    if gate !in s.handlers then []
    else
      match s.handlers[gate].phase
      case Checking(fans) => fans
      case CooldownRead(fans, _, _) => fans
      case CooldownSet(fans, _) => if fans == [] then [] else fans[1..]
      case _ => []
  }

  /** The gate's handler publishes its last redirection and turns to the fans. */
  predicate TakesFans(s: State, step: Step, gate: GateId) {
    step.PublishRedirection? && step.id == gate && Unpublished(s, gate) == []
  }

  /** The fans of the gate as each of its handlers found them when it turned to them, one after the other. */
  ghost function FansTaken(cfg: Config, clock: Time, steps: seq<Step>, gate: GateId): seq<FanId>
    requires StrictTotalOrder(cfg.before)
  {
    if steps == [] then
      []
    else
      var n := |steps| - 1;
      var s := Run(cfg, clock, steps[..n]);
      FansTaken(cfg, clock, steps[..n], gate)
      + if s.Some? && TakesFans(s.value, steps[n], gate) then ListAt(s.value.intake.fans, gate) else []
  }

  /** The fans that the gate's `Decide` steps were about. */
  ghost function FansDecided(cfg: Config, clock: Time, steps: seq<Step>, gate: GateId): seq<FanId>
    requires StrictTotalOrder(cfg.before)
  {
    if steps == [] then
      []
    else
      var n := |steps| - 1;
      var s := Run(cfg, clock, steps[..n]);
      FansDecided(cfg, clock, steps[..n], gate)
      + if s.Some? && steps[n].Decide? && steps[n].id == gate && FansLeft(s.value, gate) != [] then
          [FansLeft(s.value, gate)[0]]
        else
          []
  }

  lemma StepChecksFans(cfg: Config, s: State, step: Step, gate: GateId)
    requires StrictTotalOrder(cfg.before) && Enabled(cfg, s, step)
    ensures var t := Next(cfg, s, step);
      if TakesFans(s, step, gate) then
        FansLeft(s, gate) == [] && FansLeft(t, gate) == ListAt(s.intake.fans, gate)
      else if step.Decide? && step.id == gate then
        FansLeft(s, gate) != [] && FansLeft(t, gate) == FansLeft(s, gate)[1..]
      else
        FansLeft(t, gate) == FansLeft(s, gate)
  {
    hide StrictTotalOrder, Next, NudgeFor, Redirections, RecentRejections, Lookup, Evicted;
    hide OnSignal, OnReject, OnPassStart, OnPassVisit, OnPassAudit, Started, Replaced;
    if Owner(step) == Some(gate) {
      Dispatch(cfg, s, step);
    } else {
      Frame(cfg, s, step);
    }
  }

  /**
   After any run, the fans decided about, and then those that the handler still has to decide about,
   are the fans taken: every fan that a handler found at its gate, once, and in order.
   */
  lemma {:induction false} EveryFanDecided(cfg: Config, clock: Time, steps: seq<Step>, gate: GateId)
    requires StrictTotalOrder(cfg.before) && Run(cfg, clock, steps).Some?
    ensures FansDecided(cfg, clock, steps, gate) + FansLeft(Run(cfg, clock, steps).value, gate)
         == FansTaken(cfg, clock, steps, gate)
  {
    hide StrictTotalOrder, Enabled, Next, FansLeft, TakesFans;
    if steps == [] {
      assert FansLeft(Start(clock), gate) == [] by { NoFans(clock, gate); }
    } else {
      var n := |steps| - 1;
      var s := Run(cfg, clock, steps[..n]).value;
      EveryFanDecided(cfg, clock, steps[..n], gate);
      StepChecksFans(cfg, s, steps[n], gate);
      var left, decided := FansLeft(s, gate), FansDecided(cfg, clock, steps[..n], gate);
      if steps[n].Decide? && steps[n].id == gate {
        assert !TakesFans(s, steps[n], gate) by { DecidesNotTakes(s, steps[n], gate); }
        assert left == [left[0]] + left[1..];
        assert decided + left == decided + [left[0]] + left[1..];
      }
    }
  }

  lemma NoFans(clock: Time, gate: GateId)
    ensures FansLeft(Start(clock), gate) == []
  {
  }

  lemma DecidesNotTakes(s: State, step: Step, gate: GateId)
    requires step.Decide?
    ensures !TakesFans(s, step, gate)
  {
  }

  // ---------- Nudges ----------

  /**
   The handler of the gate owes its next fan a nudge: the gate is hot, and the fan's last nudge that
   was live when the handler read the cooldown is at least 5 minutes old at the handler's start.
   */
  ghost predicate NudgeDue(s: State, gate: GateId) {
    && gate in s.handlers && s.handlers[gate].phase.CooldownRead? && s.handlers[gate].phase.fans != []
    && IsHot(GateRisk(s.scores.forecasts, gate))
    && var h := s.handlers[gate];
       var last := LiveAt(s.nudges.log, (h.phase.fans[0], gate), h.phase.readAt);
       last.Some? ==> h.now - last.value >= 5 * MINUTE
  }

  /** One cooldown entry for every `Decide` step at which a nudge was due. */
  ghost function DueNudges(cfg: Config, clock: Time, steps: seq<Step>): CooldownLog
    requires StrictTotalOrder(cfg.before)
  {
    if steps == [] then
      []
    else
      var n := |steps| - 1;
      var s := Run(cfg, clock, steps[..n]);
      DueNudges(cfg, clock, steps[..n])
      + if s.Some? && steps[n].Decide? && NudgeDue(s.value, steps[n].id) then
          var h := s.value.handlers[steps[n].id];
          [Write((h.phase.fans[0], steps[n].id), h.now, steps[n].now, 5 * MINUTE)]
        else
          []
  }

  lemma StepNudges(cfg: Config, s: State, step: Step)
    requires StrictTotalOrder(cfg.before) && Enabled(cfg, s, step) && CooldownsKept(cfg, s)
    ensures var t := Next(cfg, s, step);
      t.nudges.log == s.nudges.log
        + if step.Decide? && NudgeDue(s, step.id) then
            var h := s.handlers[step.id]; [Write((h.phase.fans[0], step.id), h.now, step.now, 5 * MINUTE)]
          else
            []
  {
    hide StrictTotalOrder, Next, Tracks, LiveAt, Spaced, CooldownWrites, GenerateFanNudge, Lookup, Evicted;
    Dispatch(cfg, s, step);
    if step.Decide? {
      assert ReadHolds(cfg, s.nudges.log, step.id, s.handlers[step.id]);
    } else if !step.ReadCooldown? {
      CooldownFrame(cfg, s, step);
    }
  }

  /** The nudge is in the hand of its gate's handler, about to be stored. */
  predicate InHandOf(handlers: Handlers, id: NudgeId) {
    Holds(handlers, id.1) && handlers[id.1].phase.nudge.id == id
  }

  /**
   After any run the cooldown log holds one entry for every `Decide` step at which a nudge was due,
   and no other; and the nudges of those entries, and no others, are stored or about to be.
   */
  lemma {:induction false} EveryDueNudgeStored(cfg: Config, clock: Time, steps: seq<Step>)
    requires StrictTotalOrder(cfg.before) && Run(cfg, clock, steps).Some?
    ensures var s := Run(cfg, clock, steps).value;
      && s.nudges.log == DueNudges(cfg, clock, steps)
      && (cfg.skew < 5 * MINUTE ==> forall id ::
            Logged(DueNudges(cfg, clock, steps), id) <==> id in s.nudges.queue || InHandOf(s.handlers, id))
  {
    hide StrictTotalOrder, Enabled, Next, Invariant, NudgeDue, Logged, InHandOf;
    if steps == [] {
    } else {
      var n := |steps| - 1;
      var s := Run(cfg, clock, steps[..n]).value;
      EveryDueNudgeStored(cfg, clock, steps[..n]);
      RunInvariant(cfg, clock, steps[..n]);
      InvariantCooldowns(cfg, s);
      StepNudges(cfg, s, steps[n]);
    }
    RunInvariant(cfg, clock, steps);
    if cfg.skew < 5 * MINUTE {
      forall id {
        LoggedIsStored(cfg, Run(cfg, clock, steps).value, id);
      }
    }
  }

  lemma InvariantCooldowns(cfg: Config, s: State)
    requires Invariant(cfg, s)
    ensures CooldownsKept(cfg, s)
  {
  }

  lemma LoggedIsStored(cfg: Config, s: State, id: NudgeId)
    requires Invariant(cfg, s) && cfg.skew < 5 * MINUTE
    ensures Logged(s.nudges.log, id) <==> id in s.nudges.queue || InHandOf(s.handlers, id)
  {
    assert QueueSound(s.nudges, s.handlers) && NoneLost(s.nudges, s.handlers);
    if InHandOf(s.handlers, id) {
      assert InHand(s.nudges, s.handlers[id.1].phase.nudge, id.1);
    }
  }

  // ---------- Delivery passes ----------

  ghost predicate AllDecided(queue: map<NudgeId, FanNudge>, ids: set<NudgeId>) {
    forall id | id in ids :: id in queue && queue[id].status != QUEUED
  }

  /** A pass over these nudges is running, or they are all decided. */
  ghost predicate PassCovers(s: State, ids: set<NudgeId>) {
    AllDecided(s.nudges.queue, ids) || (!s.worker.Resting? && ids <= s.worker.started)
  }

  lemma PassCoversKept(cfg: Config, s: State, step: Step, ids: set<NudgeId>)
    requires StrictTotalOrder(cfg.before) && Enabled(cfg, s, step) && Lifecycle(s) && PassCovers(s, ids)
    ensures PassCovers(Next(cfg, s, step), ids)
  {
    hide StrictTotalOrder, Next, Lifecycle;
    var t := Next(cfg, s, step);
    if AllDecided(s.nudges.queue, ids) {
      forall id | id in ids ensures id in t.nudges.queue && t.nudges.queue[id].status != QUEUED {
        TerminalForGood(cfg, s, step, id);
      }
    } else {
      Dispatch(cfg, s, step);
      Frame(cfg, s, step);
      if step.PassVisit? && s.worker.pending == [] {
        SpentPass(s, ids);
      }
    }
  }

  lemma SpentPass(s: State, ids: set<NudgeId>)
    requires Lifecycle(s) && s.worker.Scanning? && s.worker.pending == [] && ids <= s.worker.started
    ensures AllDecided(s.nudges.queue, ids)
  {
    hide QueueSound, NoneLost, AuditSound;
  }

  lemma {:induction false} PassOngoing(cfg: Config, clock: Time, steps: seq<Step>, m: nat)
    requires StrictTotalOrder(cfg.before) && Run(cfg, clock, steps).Some? && cfg.skew < 5 * MINUTE
    requires m < |steps| && steps[m].PassStart?
    ensures Run(cfg, clock, steps[..m]).Some?
    ensures PassCovers(Run(cfg, clock, steps).value, Run(cfg, clock, steps[..m]).value.nudges.queue.Keys)
  {
    hide StrictTotalOrder, Enabled, Next, PassCovers, Invariant;
    var n := |steps| - 1;
    var s := Run(cfg, clock, steps[..n]).value;
    if m < n {
      PassOngoing(cfg, clock, steps[..n], m);
      assert steps[..n][..m] == steps[..m];
      RunInvariant(cfg, clock, steps[..n]);
      InvariantLifecycle(cfg, s);
      PassCoversKept(cfg, s, steps[n], Run(cfg, clock, steps[..m]).value.nudges.queue.Keys);
    } else {
      PassBegins(cfg, s, steps[n]);
    }
  }

  lemma InvariantLifecycle(cfg: Config, s: State)
    requires Invariant(cfg, s) && cfg.skew < 5 * MINUTE
    ensures Lifecycle(s)
  {
  }

  lemma PassBegins(cfg: Config, s: State, step: Step)
    requires StrictTotalOrder(cfg.before) && Enabled(cfg, s, step) && step.PassStart?
    ensures PassCovers(Next(cfg, s, step), s.nudges.queue.Keys)
  {
    hide StrictTotalOrder, Next;
    Dispatch(cfg, s, step);
  }

  /**
   Whenever no delivery pass is running, or the one that is has nothing left to visit, every nudge
   that was stored when any pass so far began is decided.
   */
  lemma PassDecidesAll(cfg: Config, clock: Time, steps: seq<Step>, m: nat)
    requires StrictTotalOrder(cfg.before) && Run(cfg, clock, steps).Some? && cfg.skew < 5 * MINUTE
    requires m < |steps| && steps[m].PassStart?
    requires var worker := Run(cfg, clock, steps).value.worker;
      worker.Resting? || (worker.Scanning? && worker.pending == [])
    ensures Run(cfg, clock, steps[..m]).Some?
    ensures AllDecided(
              Run(cfg, clock, steps).value.nudges.queue, Run(cfg, clock, steps[..m]).value.nudges.queue.Keys)
  {
    hide StrictTotalOrder, Run, Invariant;
    PassOngoing(cfg, clock, steps, m);
    var s := Run(cfg, clock, steps).value;
    var ids := Run(cfg, clock, steps[..m]).value.nudges.queue.Keys;
    RunInvariant(cfg, clock, steps);
    InvariantLifecycle(cfg, s);
    if !AllDecided(s.nudges.queue, ids) {
      SpentPass(s, ids);
    }
  }

  // ---------- Nothing gets stuck ----------

  /** The next step of a handler in flight, with the clock reading `now` where it takes one. */
  function NextStep(s: State, gate: GateId, now: Time): Step
    requires gate in s.handlers
  {
    match s.handlers[gate].phase
    case AlertRaised => SetPrevious(gate)
    case WindowRead(_) => StoreActions(gate)
    case ActionsStored(_) => PublishActions(gate)
    case ActionsPublished => Redirect(gate, now)
    case Publishing(_) => PublishRedirection(gate)
    case Checking(fans) => if fans == [] then Finish(gate) else ReadCooldown(gate, now)
    case CooldownRead(_, _, _) => Decide(gate, now)
    case CooldownSet(_, _) => Enqueue(gate)
  }

  /** No handler holds on to a cooldown read, or a nudge, without a fan. */
  ghost predicate FansInHand(s: State) {
    forall id | id in s.handlers && (s.handlers[id].phase.CooldownRead? || s.handlers[id].phase.CooldownSet?) ::
      s.handlers[id].phase.fans != []
  }

  lemma FansInHandKept(cfg: Config, s: State, step: Step)
    requires StrictTotalOrder(cfg.before) && Enabled(cfg, s, step) && FansInHand(s)
    ensures FansInHand(Next(cfg, s, step))
  {
    hide StrictTotalOrder, Next, NudgeFor, Redirections, RecentRejections, Lookup, Evicted;
    hide OnSignal, OnReject, OnPassStart, OnPassVisit, OnPassAudit, Started, Replaced;
    Dispatch(cfg, s, step);
    Frame(cfg, s, step);
  }

  lemma {:induction false} RunKeepsFansInHand(cfg: Config, clock: Time, steps: seq<Step>)
    requires StrictTotalOrder(cfg.before) && Run(cfg, clock, steps).Some?
    ensures FansInHand(Run(cfg, clock, steps).value)
  {
    hide StrictTotalOrder, Enabled, Next, FansInHand;
    if steps == [] {
      NoFansInHand(clock);
    } else {
      var n := |steps| - 1;
      RunKeepsFansInHand(cfg, clock, steps[..n]);
      FansInHandKept(cfg, Run(cfg, clock, steps[..n]).value, steps[n]);
    }
  }

  lemma NoFansInHand(clock: Time)
    ensures FansInHand(Start(clock))
  {
  }

  /**
   After any run a handler in flight can take its next step at any clock reading that the skew
   allows; so can a delivery pass, at once; and a signal, a rejection, an update of a gate without
   a handler, and a pass when none is running, can come at any reading that is not in the past.
   */
  lemma NothingStuck(cfg: Config, clock: Time, steps: seq<Step>, now: Time)
    requires StrictTotalOrder(cfg.before) && Run(cfg, clock, steps).Some? && Run(cfg, clock, steps).value.clock <= now
    ensures var s := Run(cfg, clock, steps).value;
      && (forall id | id in s.handlers && now <= s.handlers[id].now + cfg.skew :: Enabled(cfg, s, NextStep(s, id, now)))
      && (s.worker.Scanning? ==> Enabled(cfg, s, PassVisit)) && (s.worker.Auditing? ==> Enabled(cfg, s, PassAudit))
      && (s.worker.Resting? ==> forall order | Enumerates(order, s.nudges.queue) ::
          Enabled(cfg, s, PassStart(order, now)))
      && (forall event :: Enabled(cfg, s, Signal(event, now)))
      && (forall gate: Gate, result | gate.gateId !in s.handlers :: Enabled(cfg, s, ScoreStart(gate, result, now)))
      && (forall route, alternative :: Enabled(cfg, s, Reject(route, alternative, now, now)))
  {
    hide Run, StrictTotalOrder, Enumerates;
    RunKeepsFansInHand(cfg, clock, steps);
  }

  /** What a delivery pass still has to do: two steps per nudge at most, and its end. */
  function PassWork(worker: Worker): nat {
    match worker
    case Resting => 0
    case Scanning(pending, _, _) => 2 * |pending| + 1
    case Auditing(_, pending, _, _) => 2 * |pending| + 2
  }

  /** Every step of a pass leaves it less to do, so it ends. */
  lemma PassEnds(cfg: Config, s: State, step: Step)
    requires StrictTotalOrder(cfg.before) && Enabled(cfg, s, step) && (step.PassVisit? || step.PassAudit?)
    ensures PassWork(Next(cfg, s, step).worker) < PassWork(s.worker)
  {
    hide StrictTotalOrder, Next, Decision;
    Dispatch(cfg, s, step);
  }

  /** How far a handler is from its end: its stage, and within a stage what it still has to go through. */
  function Stage(phase: Phase): nat {
    match phase
    case AlertRaised => 6
    case WindowRead(_) => 5
    case ActionsStored(_) => 4
    case ActionsPublished => 3
    case Publishing(_) => 2
    case _ => 1
  }

  function WorkInStage(phase: Phase): nat {
    match phase
    case Publishing(pending) => |pending|
    case Checking(fans) => 3 * |fans|
    case CooldownRead(fans, _, _) => 3 * |fans| - if fans == [] then 0 else 1
    case CooldownSet(fans, _) => 3 * |fans| - if fans == [] then 0 else 2
    case _ => 0
  }

  /** Every step of a handler brings it nearer to its end, and the last one ends it. */
  lemma HandlerEnds(cfg: Config, s: State, step: Step, gate: GateId)
    requires StrictTotalOrder(cfg.before) && Enabled(cfg, s, step)
    requires gate in s.handlers && Owner(step) == Some(gate) && !step.ScoreStart?
    ensures var t := Next(cfg, s, step);
      gate in t.handlers ==>
        var before, after := s.handlers[gate].phase, t.handlers[gate].phase;
        Stage(after) < Stage(before) || (Stage(after) == Stage(before) && WorkInStage(after) < WorkInStage(before))
  {
    hide StrictTotalOrder, Next, NudgeFor, Redirections, RecentRejections, Lookup, Evicted;
    hide OnSignal, OnReject, OnPassStart, OnPassVisit, OnPassAudit, Started, Replaced;
    Dispatch(cfg, s, step);
  }
}
