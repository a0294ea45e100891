/**
 The pipeline over whole runs: any number of steps, of any gates, in any enabled order.
 */
module PipelineRuns {
  import opened Domain
  import opened Forecasting
  import opened SignalWindow
  import opened Selection
  import opened Expiry
  import opened Redirecting
  import opened Nudging
  import opened Delivering
  import opened Alerting
  import opened Recommending
  import opened PipelineMachine
  import opened PipelineSafety
  import opened PipelineLifecycle

  ghost predicate Invariant(cfg: Config, s: State) {
    && HandlersLatest(s) && PreviousRiskLags(s) && ForecastsLatest(s) && AlertsSerial(s)
    && ActionsServed(s) && ListsLatest(s) && WindowsTrackHistory(s) && WindowsHeard(s) && FansDistinct(s)
    && RejectionsRespected(cfg, s) && CooldownsKept(cfg, s)
    && (cfg.skew < 5 * MINUTE ==> Lifecycle(s))
  }

  lemma InvariantAtStart(cfg: Config, clock: Time)
    ensures Invariant(cfg, Start(clock))
  {
    TracksEmpty<CooldownKey, Time>(clock);
    forall id: GateId ensures AlertsOf([], id) == AlertsRaised(id, []) {
    }
  }

  lemma InvariantKept(cfg: Config, s: State, step: Step)
    requires StrictTotalOrder(cfg.before) && Enabled(cfg, s, step) && Invariant(cfg, s)
    ensures Invariant(cfg, Next(cfg, s, step))
  {
    hide StrictTotalOrder, Enabled, Next;
    hide HandlersLatest, PreviousRiskLags, ForecastsLatest, AlertsSerial, ActionsServed, ListsLatest;
    hide WindowsTrackHistory, WindowsHeard, FansDistinct, RejectionsRespected, CooldownsKept, Lifecycle;
    HandlersLatestKept(cfg, s, step);
    PreviousRiskLagsKept(cfg, s, step);
    ForecastsLatestKept(cfg, s, step);
    AlertsSerialKept(cfg, s, step);
    ActionsServedKept(cfg, s, step);
    ListsLatestKept(cfg, s, step);
    WindowsTrackHistoryKept(cfg, s, step);
    WindowsHeardKept(cfg, s, step);
    FansDistinctKept(cfg, s, step);
    RejectionsRespectedKept(cfg, s, step);
    CooldownsKeptKept(cfg, s, step);
    if cfg.skew < 5 * MINUTE {
      LifecycleKept(cfg, s, step);
    }
  }

  lemma {:induction false} RunInvariant(cfg: Config, clock: Time, steps: seq<Step>)
    requires StrictTotalOrder(cfg.before) && Run(cfg, clock, steps).Some?
    ensures Invariant(cfg, Run(cfg, clock, steps).value)
  {
    hide StrictTotalOrder, Enabled, Next, Invariant;
    if steps == [] {
      InvariantAtStart(cfg, clock);
    } else {
      var n := |steps| - 1;
      RunInvariant(cfg, clock, steps[..n]);
      InvariantKept(cfg, Run(cfg, clock, steps[..n]).value, steps[n]);
    }
  }

  // ---------- What a run has brought ----------

  /** The signals that a run has brought to a gate, with the clock readings of their arrival. */
  function SignalsOf(steps: seq<Step>, gate: GateId): seq<Arrival> {
    if steps == [] then
      []
    else
      var n := |steps| - 1;
      SignalsOf(steps[..n], gate)
      + if steps[n].Signal? && steps[n].event.gateId == Some(gate) then [Arrival(steps[n].event, steps[n].now)] else []
  }

  /** The score updates of a gate: their risk, and when they started. */
  function UpdatesOf(steps: seq<Step>, gate: GateId): seq<Handled> {
    if steps == [] then
      []
    else
      var n := |steps| - 1;
      UpdatesOf(steps[..n], gate)
      + if steps[n].ScoreStart? && steps[n].gate.gateId == gate then [Handled(RiskOf(steps[n].result), steps[n].now)]
        else []
  }

  /** The forecast of the gate's latest update. */
  function LatestForecast(steps: seq<Step>, gate: GateId): Option<ForecastResult> {
    if steps == [] then None
    else
      var n := |steps| - 1;
      if steps[n].ScoreStart? && steps[n].gate.gateId == gate then Some(steps[n].result)
      else LatestForecast(steps[..n], gate)
  }

  /** The last clock reading of a run. */
  function LastReading(clock: Time, steps: seq<Step>): Time {
    if steps == [] then clock
    else
      match steps[|steps| - 1]
      case Signal(_, now) => now
      case Reject(_, _, _, now) => now
      case ScoreStart(_, _, now) => now
      case Redirect(_, now) => now
      case ReadCooldown(_, now) => now
      case Decide(_, now) => now
      case PassStart(_, now) => now
      case _ => LastReading(clock, steps[..|steps| - 1])
  }

  /** When the last delivery pass began. */
  function LastPass(steps: seq<Step>): Option<Time> {
    if steps == [] then None
    else if steps[|steps| - 1].PassStart? then Some(steps[|steps| - 1].now)
    else LastPass(steps[..|steps| - 1])
  }

  function RejectionsOf(steps: seq<Step>): seq<RejectionRecord> {
    if steps == [] then
      []
    else
      var n := |steps| - 1;
      RejectionsOf(steps[..n])
      + if steps[n].Reject? then
          [RejectionRecord(steps[n].route, steps[n].alternative, steps[n].rejectedAt)]
        else
          []
  }

  /** The histories that the states carry along, and the rejection list, are exactly what the run has brought. */
  lemma {:induction false} HistoriesOfRun(cfg: Config, clock: Time, steps: seq<Step>, gate: GateId)
    requires StrictTotalOrder(cfg.before) && Run(cfg, clock, steps).Some?
    ensures var s := Run(cfg, clock, steps).value;
      && ListAt(s.intake.arrivals, gate) == SignalsOf(steps, gate)
      && HistoryOf(s, gate) == UpdatesOf(steps, gate)
      && LatestForecast(steps, gate) == (if gate in s.scores.forecasts then Some(s.scores.forecasts[gate]) else None)
      && s.advice.rejections == RejectionsOf(steps)
  {
    hide StrictTotalOrder, Enabled, Next, Started, TrackFans, Append;
    if steps != [] {
      var n := |steps| - 1;
      var s := Run(cfg, clock, steps[..n]).value;
      HistoriesOfRun(cfg, clock, steps[..n], gate);
      Dispatch(cfg, s, steps[n]);
      Frame(cfg, s, steps[n]);
      PublishingFrame(cfg, s, steps[n]);
      if steps[n].ScoreStart? {
        StartedAt(s.scores, steps[n].gate.gateId, steps[n].result, steps[n].now, gate);
        StartPublishes(s.scores, steps[n].gate.gateId, steps[n].result, steps[n].now);
      } else {
        OwnerFrame(cfg, s, steps[n]);
      }
    }
  }

  /** The clock stands at the last reading of the run, and a delivery pass keeps the time of its start. */
  lemma {:induction false} TimesOfRun(cfg: Config, clock: Time, steps: seq<Step>)
    requires StrictTotalOrder(cfg.before) && Run(cfg, clock, steps).Some?
    ensures var s := Run(cfg, clock, steps).value;
      && s.clock == LastReading(clock, steps)
      && (!s.worker.Resting? ==> LastPass(steps) == Some(s.worker.now))
  {
    hide StrictTotalOrder, Next, NudgeFor, Redirections, RecentRejections, Received, Started, Decision, Lookup, Evicted;
    if steps != [] {
      var n := |steps| - 1;
      TimesOfRun(cfg, clock, steps[..n]);
      Dispatch(cfg, Run(cfg, clock, steps[..n]).value, steps[n]);
    }
  }

  // ---------- Main results ----------

  /** The list of a forecast and a window of the given arrivals that misses none from before `since`. */
  ghost predicate ListOfWindow(
      actions: seq<RecommendedAction>, gate: GateId, forecast: ForecastResult, arrivals: seq<Arrival>, since: Time) {
    exists window :: Heard(arrivals, window, since) && actions == GenerateRecommendations(gate, forecast, window)
  }

  /**
   Per gate, after any run: the published forecast is that of the latest update, the one in
   handling while a score handler is in flight; once it is done,
     the previous risk is that of the last handled update; and at any
   moment the gate's alerts are exactly those of handling its updates one after the other, that
   is the starts of its High/Critical blocks.
   */
  lemma InterleavingSafety(cfg: Config, clock: Time, steps: seq<Step>, id: GateId)
    requires StrictTotalOrder(cfg.before) && Run(cfg, clock, steps).Some?
    ensures var s := Run(cfg, clock, steps).value; var history := UpdatesOf(steps, id);
      && (id in s.handlers ==> id in s.scores.forecasts && s.scores.forecasts[id] == s.handlers[id].result)
      && LatestForecast(steps, id) == (if id in s.scores.forecasts then Some(s.scores.forecasts[id]) else None)
      && GateRisk(s.scores.forecasts, id) == LastRisk(history)
      && (id !in s.handlers ==> PreviousRisk(s.scores, id) == LastRisk(history))
      && AlertsOf(s.scores.alerts, id) == AlertsRaised(id, history)
      && |AlertsOf(s.scores.alerts, id)| <= (|history| + 1) / 2
  {
    hide Run;
    RunInvariant(cfg, clock, steps);
    var s := Run(cfg, clock, steps).value;
    HistoriesOfRun(cfg, clock, steps, id);
    assert LagsAt(s, id) && ForecastLatestAt(s.scores, id);
    AlertsAreBlockStarts(id, HistoryOf(s, id));
  }

  /**
   After any run, a gate whose handler is done has the action list of its last update: the one
   generated from the published forecast and a window of the gate's own signals, with every signal
   in it that came before that update. There are none exactly when the risk is LOW, otherwise
   four, ranked 1 to 4; and the dashboard shows the same list.
   */
  lemma ActionListsLatest(cfg: Config, clock: Time, steps: seq<Step>, id: GateId)
    requires StrictTotalOrder(cfg.before) && Run(cfg, clock, steps).Some?
    ensures var s := Run(cfg, clock, steps).value; var history := UpdatesOf(steps, id);
      (id in s.scores.forecasts <==> history != []) &&
      (id in s.scores.forecasts && id !in s.handlers ==>
        && id in s.lists.actions && id in s.lists.dashboard && s.lists.dashboard[id] == s.lists.actions[id]
        && history != []
        && ListOfWindow(
             s.lists.actions[id], id, s.scores.forecasts[id], SignalsOf(steps, id), history[|history| - 1].now)
        && (s.lists.actions[id] == [] <==> LastRisk(history) == LOW)
        && (s.lists.actions[id] != [] ==> Ranking(s.lists.actions[id])))
  {
    hide Run, GenerateRecommendations, Heard, UpdatesOf, SignalsOf;
    RunInvariant(cfg, clock, steps);
    HistoriesOfRun(cfg, clock, steps, id);
    var s := Run(cfg, clock, steps).value;
    assert ForecastLatestAt(s.scores, id);
    if id in s.scores.forecasts && id !in s.handlers {
      assert ListLatestAt(s, id) && HeardAt(s, id) && ForecastLatestAt(s.scores, id);
      var served := s.lists.served[id];
      RankingCharacterised(id, served.forecast, served.window, OPEN_GATE_LANE, OPEN_GATE_LANE);
    }
  }

  /**
   After any run, a gate's window is exactly what the gate had received in the 10 minutes before
   its last signal, in order, followed by that signal; and forecasting from it is forecasting from
   everything it ever received.
   */
  lemma WindowsOverRuns(cfg: Config, clock: Time, steps: seq<Step>, gate: Gate, now: Time)
    requires StrictTotalOrder(cfg.before) && Run(cfg, clock, steps).Some?
    requires Run(cfg, clock, steps).value.clock <= now
    ensures var intake := Run(cfg, clock, steps).value.intake;
      WindowOf(ListAt(intake.windows, gate.gateId), SignalsOf(steps, gate.gateId))
    ensures var intake := Run(cfg, clock, steps).value.intake;
      ComputeForecast(gate, ListAt(intake.windows, gate.gateId), now)
      == ComputeForecast(gate, History(SignalsOf(steps, gate.gateId)), now)
  {
    hide Run, SignalsOf, ComputeForecast, WindowsOf, WindowAfter, InOrder, StrictTotalOrder;
    RunInvariant(cfg, clock, steps);
    var s := Run(cfg, clock, steps).value;
    HistoriesOfRun(cfg, clock, steps, gate.gateId);
    WindowAt(s.intake, s.clock, gate.gateId) by { assert WindowsTrackHistory(s); }
    var arrivals := ListAt(s.intake.arrivals, gate.gateId);
    CacheAgreesWithHistory(gate, arrivals, now);
    LastWindow(arrivals);
  }

  lemma LastWindow(arrivals: seq<Arrival>)
    requires InOrder(arrivals)
    ensures WindowOf(WindowAfter(arrivals), arrivals)
  {
    hide IsWindow;
    if arrivals != [] {
      var n := |arrivals| - 1;
      assert arrivals[..n] + [arrivals[n]] == arrivals;
      WindowIsRecentHistory(arrivals[..n], arrivals[n]);
    }
  }

  /** The window of a gate that has received these signals so far. */
  ghost predicate WindowOf(window: seq<SignalEvent>, arrivals: seq<Arrival>) {
    if arrivals == [] then
      window == []
    else
      var n := |arrivals| - 1;
      IsWindow(window, History(arrivals[..n]), arrivals[n])
  }

  /** The run has brought a signal that mentions the fan at the gate. */
  ghost predicate MentionedIn(steps: seq<Step>, gate: GateId, fan: FanId) {
    exists k :: 0 <= k < |steps| && steps[k].Signal? && Mentions(steps[k].event, gate, fan)
  }

  /** After any run, a gate's fans are exactly those that some signal mentioned at it, each listed once. */
  lemma {:induction false} FansOverRuns(cfg: Config, clock: Time, steps: seq<Step>, gate: GateId)
    requires StrictTotalOrder(cfg.before) && Run(cfg, clock, steps).Some?
    ensures var fans := ListAt(Run(cfg, clock, steps).value.intake.fans, gate);
      Distinct(fans) && forall fan :: fan in fans <==> MentionedIn(steps, gate, fan)
  {
    hide StrictTotalOrder, Enabled, Next, Mentions, TrackFans, Append;
    if steps != [] {
      var n := |steps| - 1;
      var s := Run(cfg, clock, steps[..n]).value;
      FansOverRuns(cfg, clock, steps[..n], gate);
      if steps[n].Signal? {
        Dispatch(cfg, s, steps[n]);
        TrackedFans(s.intake.fans, steps[n].event, gate);
      } else {
        Frame(cfg, s, steps[n]);
      }
      forall fan
        ensures MentionedIn(steps, gate, fan)
           <==> MentionedIn(steps[..n], gate, fan) || (steps[n].Signal? && Mentions(steps[n].event, gate, fan))
      {
        MentionedOneMore(steps, gate, fan);
      }
    }
  }

  lemma MentionedOneMore(steps: seq<Step>, gate: GateId, fan: FanId)
    requires steps != []
    ensures var n := |steps| - 1;
      MentionedIn(steps, gate, fan)
      <==> MentionedIn(steps[..n], gate, fan) || (steps[n].Signal? && Mentions(steps[n].event, gate, fan))
  {
    hide Mentions;
    var n := |steps| - 1;
    if MentionedIn(steps[..n], gate, fan) {
      var k :| 0 <= k < n && steps[..n][k].Signal? && Mentions(steps[..n][k].event, gate, fan);
      assert steps[k].Signal? && Mentions(steps[k].event, gate, fan);
    }
    if MentionedIn(steps, gate, fan) {
      var k :| 0 <= k < |steps| && steps[k].Signal? && Mentions(steps[k].event, gate, fan);
      assert k < n ==> steps[..n][k] == steps[k];
    }
  }

  /**
   The redirection was generated at step m of the run, to the alternative of the forecasts and
   against every rejection in the list at that moment.
   */
  ghost predicate GeneratedAt(cfg: Config, clock: Time, steps: seq<Step>, r: Redirection, m: nat)
    requires StrictTotalOrder(cfg.before)
  {
    && m < |steps| && steps[m].Redirect? && steps[m].id == r.originGateId
    && var earlier := Run(cfg, clock, steps[..m]);
       && earlier.Some? && r.originGateId in earlier.value.handlers
       && earlier.value.handlers[r.originGateId].now == r.generatedAt
       && ChosenFrom(cfg, earlier.value.scores.forecasts, r.originGateId, Some(r.alternativeGateId))
       && Obeys(r, earlier.value.advice.rejections, cfg.skew)
  }

  ghost predicate GeneratedDuring(cfg: Config, clock: Time, steps: seq<Step>, r: Redirection)
    requires StrictTotalOrder(cfg.before)
  {
    exists m: nat :: GeneratedAt(cfg, clock, steps, r, m)
  }

  ghost function Generated(cfg: Config, clock: Time, steps: seq<Step>): Verdict
    requires StrictTotalOrder(cfg.before)
  {
    r => GeneratedDuring(cfg, clock, steps, r)
  }

  lemma GeneratedLater(cfg: Config, clock: Time, steps: seq<Step>, r: Redirection)
    requires StrictTotalOrder(cfg.before) && steps != []
    requires GeneratedDuring(cfg, clock, steps[..|steps| - 1], r)
    ensures GeneratedDuring(cfg, clock, steps, r)
  {
    hide Run, Obeys, StrictTotalOrder;
    var n := |steps| - 1;
    var m: nat :| GeneratedAt(cfg, clock, steps[..n], r, m);
    assert steps[..n][..m] == steps[..m] && steps[..n][m] == steps[m];
    assert GeneratedAt(cfg, clock, steps, r, m);
  }

  lemma AllGeneratedLater(cfg: Config, clock: Time, steps: seq<Step>, s: State)
    requires StrictTotalOrder(cfg.before) && steps != []
    requires RedirectionsAll(s, Generated(cfg, clock, steps[..|steps| - 1]))
    ensures RedirectionsAll(s, Generated(cfg, clock, steps))
  {
    hide GeneratedDuring, StrictTotalOrder;
    var before, after := Generated(cfg, clock, steps[..|steps| - 1]), Generated(cfg, clock, steps);
    forall r | before(r) ensures after(r) {
      GeneratedLater(cfg, clock, steps, r);
    }
    MilderVerdict(s, before, after);
  }

  lemma MilderVerdict(s: State, good: Verdict, better: Verdict)
    requires RedirectionsAll(s, good) && forall r :: good(r) ==> better(r)
    ensures RedirectionsAll(s, better)
  {
  }

  /**
   After any run, every redirection published or about to be obeys the rejection list as its
   handler read it: no pair rejected by then, before the handler's start or after it, within
   5 minutes less the skew.
   */
  lemma {:induction false} RedirectionsObeyList(cfg: Config, clock: Time, steps: seq<Step>)
    requires StrictTotalOrder(cfg.before) && Run(cfg, clock, steps).Some?
    ensures RedirectionsAll(Run(cfg, clock, steps).value, Generated(cfg, clock, steps))
  {
    hide StrictTotalOrder, Enabled, Next, RedirectionsAll, Obeys, OnRedirect;
    if steps == [] {
      NoRedirections(clock, Generated(cfg, clock, steps));
    } else {
      var n := |steps| - 1;
      var s := Run(cfg, clock, steps[..n]).value;
      RedirectionsObeyList(cfg, clock, steps[..n]);
      AllGeneratedLater(cfg, clock, steps, s);
      if steps[n].Redirect? {
        NewGenerated(cfg, clock, steps);
      }
      RedirectionsAllKept(cfg, s, steps[n], Generated(cfg, clock, steps));
    }
  }

  lemma NoRedirections(clock: Time, good: Verdict)
    ensures RedirectionsAll(Start(clock), good)
  {
  }

  lemma NewGenerated(cfg: Config, clock: Time, steps: seq<Step>)
    requires StrictTotalOrder(cfg.before) && steps != [] && steps[|steps| - 1].Redirect?
    requires Run(cfg, clock, steps[..|steps| - 1]).Some?
    requires Enabled(cfg, Run(cfg, clock, steps[..|steps| - 1]).value, steps[|steps| - 1])
    ensures var step, s := steps[|steps| - 1], Run(cfg, clock, steps[..|steps| - 1]).value;
      forall r | r in OnRedirect(cfg, s, step.id, step.now).handlers[step.id].phase.pending ::
        Generated(cfg, clock, steps)(r)
  {
    hide StrictTotalOrder, Run, Invariant, Obeys, Redirections, RecentRejections;
    var n := |steps| - 1;
    var step, s := steps[n], Run(cfg, clock, steps[..n]).value;
    RunInvariant(cfg, clock, steps[..n]);
    assert HandlersLatest(s) by { InvariantHandlers(cfg, s); }
    RedirectObeys(cfg, s, step.id, step.now);
    forall r | r in OnRedirect(cfg, s, step.id, step.now).handlers[step.id].phase.pending
      ensures Generated(cfg, clock, steps)(r)
    {
      assert GeneratedAt(cfg, clock, steps, r, n);
    }
  }

  lemma InvariantHandlers(cfg: Config, s: State)
    requires Invariant(cfg, s)
    ensures HandlersLatest(s)
  {
  }

  /** The nudge is what the `Decide` step m of its gate generated, from the forecasts of that moment. */
  ghost predicate MadeAt(cfg: Config, clock: Time, steps: seq<Step>, n: FanNudge, m: nat)
    requires StrictTotalOrder(cfg.before)
  {
    && m < |steps| && steps[m].Decide? && steps[m].id == n.originGateId
    && var earlier := Run(cfg, clock, steps[..m]);
       && earlier.Some? && Resumes(earlier.value, steps[m])
       && var h := earlier.value.handlers[n.originGateId];
          GenerateFanNudge(cfg.before, h.phase.fans[0], n.originGateId, earlier.value.scores.forecasts, h.phase.last,
            h.now)
          == Some(n)
  }

  ghost predicate MadeDuring(cfg: Config, clock: Time, steps: seq<Step>, n: FanNudge)
    requires StrictTotalOrder(cfg.before)
  {
    exists m: nat :: MadeAt(cfg, clock, steps, n, m)
  }

  ghost function Made(cfg: Config, clock: Time, steps: seq<Step>): NudgeVerdict
    requires StrictTotalOrder(cfg.before)
  {
    n => MadeDuring(cfg, clock, steps, n)
  }

  lemma MadeLater(cfg: Config, clock: Time, steps: seq<Step>, s: State)
    requires StrictTotalOrder(cfg.before) && steps != []
    requires NudgesAll(s, Made(cfg, clock, steps[..|steps| - 1]))
    ensures NudgesAll(s, Made(cfg, clock, steps))
  {
    hide MadeDuring, StrictTotalOrder, Original;
    var before, after := Made(cfg, clock, steps[..|steps| - 1]), Made(cfg, clock, steps);
    forall n | before(n) ensures after(n) {
      OneMadeLater(cfg, clock, steps, n);
    }
    MilderNudgeVerdict(s, before, after);
  }

  lemma OneMadeLater(cfg: Config, clock: Time, steps: seq<Step>, n: FanNudge)
    requires StrictTotalOrder(cfg.before) && steps != [] && MadeDuring(cfg, clock, steps[..|steps| - 1], n)
    ensures MadeDuring(cfg, clock, steps, n)
  {
    hide Run, GenerateFanNudge, StrictTotalOrder;
    var k := |steps| - 1;
    var m: nat :| MadeAt(cfg, clock, steps[..k], n, m);
    assert steps[..k][..m] == steps[..m] && steps[..k][m] == steps[m];
    assert MadeAt(cfg, clock, steps, n, m);
  }

  lemma MilderNudgeVerdict(s: State, good: NudgeVerdict, better: NudgeVerdict)
    requires NudgesAll(s, good) && forall n :: good(n) ==> better(n)
    ensures NudgesAll(s, better)
  {
  }

  /** After any run, every nudge, up to its decision, is exactly what a `Decide` step of its gate generated. */
  lemma {:induction false} EveryNudgeMade(cfg: Config, clock: Time, steps: seq<Step>)
    requires StrictTotalOrder(cfg.before) && Run(cfg, clock, steps).Some?
    ensures NudgesAll(Run(cfg, clock, steps).value, Made(cfg, clock, steps))
  {
    hide StrictTotalOrder, Enabled, Next, NudgesAll, NudgeFor, MadeDuring;
    if steps == [] {
      NoNudges(clock, Made(cfg, clock, steps));
    } else {
      var n := |steps| - 1;
      var s := Run(cfg, clock, steps[..n]).value;
      EveryNudgeMade(cfg, clock, steps[..n]);
      MadeLater(cfg, clock, steps, s);
      if steps[n].Decide? {
        NewNudgeMade(cfg, clock, steps);
      }
      NudgesAllKept(cfg, s, steps[n], Made(cfg, clock, steps));
    }
  }

  lemma NoNudges(clock: Time, good: NudgeVerdict)
    ensures NudgesAll(Start(clock), good)
  {
  }

  lemma NewNudgeMade(cfg: Config, clock: Time, steps: seq<Step>)
    requires StrictTotalOrder(cfg.before) && steps != [] && steps[|steps| - 1].Decide?
    requires Run(cfg, clock, steps[..|steps| - 1]).Some?
    requires Enabled(cfg, Run(cfg, clock, steps[..|steps| - 1]).value, steps[|steps| - 1])
    ensures var step, s := steps[|steps| - 1], Run(cfg, clock, steps[..|steps| - 1]).value;
      Resumes(s, step) && var nudge := NudgeFor(cfg, s.scores.forecasts, step.id, s.handlers[step.id]);
      nudge.Some? ==> Made(cfg, clock, steps)(Original(nudge.value))
  {
    hide StrictTotalOrder, Run, GenerateFanNudge;
    var n := |steps| - 1;
    var step, s := steps[n], Run(cfg, clock, steps[..n]).value;
    var nudge := NudgeFor(cfg, s.scores.forecasts, step.id, s.handlers[step.id]);
    if nudge.Some? {
      assert Original(nudge.value) == nudge.value;
      assert MadeAt(cfg, clock, steps, nudge.value, n);
    }
  }

  /**
   After any run: cooldown entries for one fan and gate are spaced by 5 minutes less the skew, and
   no published redirection, whatever has been rejected since, is of a pair that was rejected in
   the 5 minutes before its handler's start, less the skew at both ends.
   */
  lemma SpacingOverRuns(cfg: Config, clock: Time, steps: seq<Step>)
    requires StrictTotalOrder(cfg.before) && Run(cfg, clock, steps).Some?
    ensures var s := Run(cfg, clock, steps).value;
      && Spaced(s.nudges.log, cfg.skew)
      && forall r | r in s.advice.published :: Respects(r, s.advice.rejections, cfg.skew)
  {
    hide Run;
    RunInvariant(cfg, clock, steps);
  }

  /** No two nudges of the store are for one fan and gate within 5 minutes, less the skew. */
  lemma StoredNudgesSpaced(cfg: Config, clock: Time, steps: seq<Step>, a: NudgeId, b: NudgeId)
    requires StrictTotalOrder(cfg.before) && Run(cfg, clock, steps).Some? && cfg.skew < 5 * MINUTE
    requires var queue := Run(cfg, clock, steps).value.nudges.queue;
      a in queue && b in queue && a.0 == b.0 && a.1 == b.1 && a.2 < b.2
    ensures b.2 - a.2 >= 5 * MINUTE - cfg.skew
  {
    hide Run;
    RunInvariant(cfg, clock, steps);
    var log := Run(cfg, clock, steps).value.nudges.log;
    assert Logged(log, a) && Logged(log, b);
    var v :| v in log && IdOf(v) == a;
    var w :| w in log && IdOf(w) == b;
    var i :| 0 <= i < |log| && log[i] == v;
    var j :| 0 <= j < |log| && log[j] == w;
    assert log[i].key == log[j].key;
  }

  /**
   After any run: every nudge was generated under High or Critical risk; every cooldown that was
   set has its nudge in the store, or in the hand of its gate's handler; audit entries are sound,
   about distinct nudges and true of them; a queued nudge has no entry; and a decided one has
   exactly one, except for the one whose audit call the worker is about to make.
   */
  lemma NudgeLifecycle(cfg: Config, clock: Time, steps: seq<Step>)
    requires StrictTotalOrder(cfg.before) && Run(cfg, clock, steps).Some? && cfg.skew < 5 * MINUTE
    ensures var s := Run(cfg, clock, steps).value; var queue, audit := s.nudges.queue, s.nudges.audit;
      && (forall id | id in queue :: Genuine(queue[id], id, s.nudges.log))
      && (forall w | w in s.nudges.log && w.key.1 !in s.handlers :: IdOf(w) in queue)
      && (forall e | e in audit :: EntrySound(e) && e.nudge.id in queue && queue[e.nudge.id] == e.nudge)
      && (forall i, j :: 0 <= i < j < |audit| ==> audit[i].nudge.id != audit[j].nudge.id)
      && (forall id | id in queue ::
            Audited(audit, id) <==>
            queue[id].status != QUEUED && !(s.worker.Auditing? && s.worker.entry.nudge.id == id))
  {
    hide Run;
    RunInvariant(cfg, clock, steps);
  }

  /** When a delivery pass has visited its whole snapshot, no nudge that was there at its start is still queued. */
  lemma PassLeavesNoneQueued(cfg: Config, clock: Time, steps: seq<Step>)
    requires StrictTotalOrder(cfg.before) && Run(cfg, clock, steps).Some? && cfg.skew < 5 * MINUTE
    ensures var s := Run(cfg, clock, steps).value;
      s.worker.Scanning? && s.worker.pending == [] ==>
        forall id | id in s.worker.started :: id in s.nudges.queue && s.nudges.queue[id].status != QUEUED
  {
    hide Run;
    RunInvariant(cfg, clock, steps);
  }
}
