/**
 The pipeline's handlers as the source writes them (src/pipeline.ts, with the services they
 call): methods that update the maps of `wirePipeline` step by step. Each method is the stretch
 of one handler between two awaits and is proved to be exactly one step of the step machine. So
 what holds over all runs of the machine holds of every object of this class; the lemmas after the
 constructor say it of the object's own maps.
 */
module Pipeline {
  import opened Domain
  import opened Forecasting
  import opened SignalWindow
  import opened Selection
  import opened Expiry
  import opened Redirecting
  import opened Nudging
  import opened Delivering
  import opened Alerting
  import opened Recommending
  import opened PipelineMachine
  import opened PipelineSafety
  import opened PipelineLifecycle
  import opened PipelineRuns
  import opened PipelineCoverage

  /**
   What the source does not keep in a variable of its own: the clock, the handlers suspended in
   an await, the history that properties speak of, and the steps taken so far.
   */
  datatype Past = Past(
    clock: Time,
    handlers: map<GateId, Handler>,
    arrivals: map<GateId, seq<Arrival>>,
    history: map<GateId, seq<Handled>>,
    served: map<GateId, Served>,
    published: seq<Redirection>,
    log: CooldownLog,
    trace: seq<Step>)

  class WiredPipeline {
    const cfg: Config
    var signalWindowByGate: map<GateId, seq<SignalEvent>>
    var fansByGate: map<GateId, seq<FanId>>
    var forecastsByGate: Forecasts
    var previousRiskLevelByGate: map<GateId, RiskLevel>
    var alerts: seq<Alert>
    var activeActions: map<GateId, seq<RecommendedAction>>
    var dashboardActions: map<GateId, seq<RecommendedAction>>
    var recentRejections: seq<RejectionRecord>
    var cooldowns: map<CooldownKey, Entry<Time>>
    var queuedNudges: map<NudgeId, FanNudge>
    var nudgeAudit: seq<AuditEntry>
    var worker: Worker
    ghost const start: Time
    ghost var past: Past

    ghost function Abs(): State
      reads this
    {
      State(past.clock,
            Intake(signalWindowByGate, fansByGate, past.arrivals),
            Scores(forecastsByGate, previousRiskLevelByGate, alerts, past.history),
            Lists(activeActions, dashboardActions, past.served),
            Advice(recentRejections, past.published),
            Nudges(cooldowns, past.log, queuedNudges, nudgeAudit),
            past.handlers, worker)
    }

    /** The object is where the step machine is after the steps of its trace. */
    ghost predicate Valid()
      reads this
    {
      StrictTotalOrder(cfg.before) && Run(cfg, start, past.trace) == Some(Abs())
    }

    /** `h` is the suspended handler of a gate: its locals and where it waits. */
    ghost predicate InFlight(h: Handler)
      reads this
    {
      h.gate.gateId in past.handlers && past.handlers[h.gate.gateId] == h
    }

    constructor (cfg: Config, ghost clock: Time)
      requires StrictTotalOrder(cfg.before)
      ensures Valid() && this.cfg == cfg && past.trace == [] && Abs() == Start(clock)
    {
      this.cfg := cfg;
      signalWindowByGate, fansByGate, forecastsByGate, previousRiskLevelByGate := map[], map[], map[], map[];
      alerts, activeActions, dashboardActions := [], map[], map[];
      recentRejections, cooldowns, queuedNudges, nudgeAudit := [], map[], map[], [];
      worker := Resting;
      this.start, past := clock, Past(clock, map[], map[], map[], map[], [], [], []);
    }

    // ---------- What holds of the maps, after any steps of any handlers ----------

    /** Alerts are the rising edges of a gate's updates, and the previous risk is that of the last one handled. */
    lemma AlertsAreRisingEdges(gate: GateId)
      requires Valid()
      ensures var history := UpdatesOf(past.trace, gate);
        && AlertsOf(alerts, gate) == AlertsRaised(gate, history)
        && GateRisk(forecastsByGate, gate) == LastRisk(history)
        && (gate !in past.handlers ==>
              (if gate in previousRiskLevelByGate then previousRiskLevelByGate[gate] else LOW) == LastRisk(history))
        && (gate in past.handlers ==> gate in forecastsByGate && forecastsByGate[gate] == past.handlers[gate].result)
    {
      hide Run, AlertsOf, AlertsRaised, StrictTotalOrder;
      InterleavingSafety(cfg, start, past.trace, gate);
    }

    /** The engine's and the dashboard's lists are the ones of the last update, from the gate's own signals. */
    lemma ListsAreLatest(gate: GateId)
      requires Valid()
      ensures var history := UpdatesOf(past.trace, gate);
        gate in forecastsByGate && gate !in past.handlers ==>
          && gate in activeActions && gate in dashboardActions && dashboardActions[gate] == activeActions[gate]
          && history != []
          && ListOfWindow(
               activeActions[gate], gate, forecastsByGate[gate], SignalsOf(past.trace, gate),
               history[|history| - 1].now)
          && (activeActions[gate] == [] <==> LastRisk(history) == LOW)
          && (activeActions[gate] != [] ==> Ranking(activeActions[gate]))
    {
      hide Run, ListOfWindow, Ranking, StrictTotalOrder;
      ActionListsLatest(cfg, start, past.trace, gate);
    }

    /** A window is the gate's last 10 minutes of signals, and forecasts as its whole history would. */
    lemma WindowsForecastHistory(gate: Gate, now: Time)
      requires Valid() && past.clock <= now
      ensures var window, arrivals := ListAt(signalWindowByGate, gate.gateId), SignalsOf(past.trace, gate.gateId);
        && WindowOf(window, arrivals)
        && ComputeForecast(gate, window, now) == ComputeForecast(gate, History(arrivals), now)
    {
      hide Run, WindowOf, ComputeForecast, StrictTotalOrder;
      WindowsOverRuns(cfg, start, past.trace, gate, now);
    }

    /** A gate's fans are those that the signals so far mentioned at it, each once. */
    lemma FansAreMentioned(gate: GateId)
      requires Valid()
      ensures var fans := ListAt(fansByGate, gate);
        Distinct(fans) && forall fan :: fan in fans <==> MentionedIn(past.trace, gate, fan)
    {
      hide Run, MentionedIn, StrictTotalOrder;
      FansOverRuns(cfg, start, past.trace, gate);
    }

    /** The cooldown map answers as its log, whose nudges are spaced; no redirection ignores a recent rejection. */
    lemma AdviceIsSpaced()
      requires Valid()
      ensures Tracks(cooldowns, past.log, past.clock) && Spaced(past.log, cfg.skew)
      ensures forall r | r in past.published ::
        Respects(r, recentRejections, cfg.skew) && GeneratedDuring(cfg, start, past.trace, r)
    {
      hide Run, Tracks, Spaced, Respects, GeneratedDuring, StrictTotalOrder;
      RunInvariant(cfg, start, past.trace);
      SpacingOverRuns(cfg, start, past.trace);
      RedirectionsObeyList(cfg, start, past.trace);
      forall r | r in past.published ensures GeneratedDuring(cfg, start, past.trace, r) {
        assert Generated(cfg, start, past.trace)(r);
      }
    }

    /** Every stored nudge is genuine; a decided one has its one audit entry, unless the pass is just writing it. */
    lemma NudgesAreAuditedOnce()
      requires Valid() && cfg.skew < 5 * MINUTE
      ensures forall id | id in queuedNudges ::
        && Genuine(queuedNudges[id], id, past.log)
        && (Audited(nudgeAudit, id) <==>
              queuedNudges[id].status != QUEUED && !(worker.Auditing? && worker.entry.nudge.id == id))
      ensures forall e | e in nudgeAudit ::
        EntrySound(e) && e.nudge.id in queuedNudges && queuedNudges[e.nudge.id] == e.nudge
      ensures forall i, j :: 0 <= i < j < |nudgeAudit| ==> nudgeAudit[i].nudge.id != nudgeAudit[j].nudge.id
    {
      hide Run, Genuine, Audited, EntrySound, StrictTotalOrder;
      NudgeLifecycle(cfg, start, past.trace);
    }

    /**
     Everything generated for a gate is published or in its handler's hand; every fan it found is
     decided or still to come.
     */
    lemma NothingIsDropped(gate: GateId)
      requires Valid()
      ensures PublishedFor(past.published, gate) + Unpublished(Abs(), gate) == Advised(cfg, start, past.trace, gate)
      ensures FansDecided(cfg, start, past.trace, gate) + FansLeft(Abs(), gate)
           == FansTaken(cfg, start, past.trace, gate)
    {
      hide Run, PublishedFor, Unpublished, Advised, FansDecided, FansLeft, FansTaken, StrictTotalOrder;
      EverythingPublished(cfg, start, past.trace, gate);
      EveryFanDecided(cfg, start, past.trace, gate);
    }

    /** The nudges that were due, and no others, are in the store, or about to be; each as it was generated. */
    lemma DueNudgesAreStored(id: NudgeId)
      requires Valid() && cfg.skew < 5 * MINUTE
      ensures Logged(DueNudges(cfg, start, past.trace), id) <==> id in queuedNudges || InHandOf(past.handlers, id)
      ensures id in queuedNudges ==> MadeDuring(cfg, start, past.trace, Original(queuedNudges[id]))
    {
      hide Run, Logged, DueNudges, InHandOf, MadeDuring, StrictTotalOrder;
      EveryDueNudgeStored(cfg, start, past.trace);
      EveryNudgeMade(cfg, start, past.trace);
      assert id in queuedNudges ==> Made(cfg, start, past.trace)(Original(queuedNudges[id]));
    }

    // ---------- signal-events ----------

    method TrackFansForEvent(event: SignalEvent)
      modifies this`fansByGate
      ensures fansByGate == TrackFans(old(fansByGate), event)
      ensures forall gate, fan ::
        fan in ListAt(fansByGate, gate) <==> fan in ListAt(old(fansByGate), gate) || Mentions(event, gate, fan)
      ensures forall gate :: ListAt(old(fansByGate), gate) <= ListAt(fansByGate, gate)
    {
      hide Mentions;
      forall gate
        ensures var before, after := ListAt(fansByGate, gate), ListAt(TrackFans(fansByGate, event), gate);
          before <= after && forall fan :: fan in after <==> fan in before || Mentions(event, gate, fan)
      {
        TrackedFans(fansByGate, event, gate);
      }
      match event.payload
      case GateCounter(_) =>
      case TicketScan(fanId) =>
        if event.gateId.Some? {
          fansByGate := fansByGate[event.gateId.value := AddFan(ListAt(fansByGate, event.gateId.value), fanId)];
        }
      case TransitArrival(_, destination, fanIds) =>
        if destination.Some? && fanIds.Some? {
          var fanMap := ListAt(fansByGate, destination.value);
          for i := 0 to |fanIds.value|
            invariant fanMap == AddFans(ListAt(fansByGate, destination.value), fanIds.value[..i])
          {
            assert fanIds.value[..i + 1][..i] == fanIds.value[..i];
            fanMap := AddFan(fanMap, fanIds.value[i]);
          }
          assert fanIds.value[..|fanIds.value|] == fanIds.value;
          fansByGate := fansByGate[destination.value := fanMap];
        }
    }

    method AppendToWindow(gateId: GateId, event: SignalEvent, now: Time)
      modifies this`signalWindowByGate
      ensures signalWindowByGate
           == old(signalWindowByGate)[gateId := Append(ListAt(old(signalWindowByGate), gateId), event, now)]
      ensures forall gate: Gate, later: Time | gate.gateId == gateId && now <= later ::
        ComputeForecast(gate, signalWindowByGate[gateId], later)
        == ComputeForecast(gate, ListAt(old(signalWindowByGate), gateId) + [event], later)
    {
      hide ComputeForecast, Prune;
      forall gate: Gate, later: Time | gate.gateId == gateId && now <= later
        ensures ComputeForecast(gate, Append(ListAt(signalWindowByGate, gateId), event, now), later)
             == ComputeForecast(gate, ListAt(signalWindowByGate, gateId) + [event], later)
      {
        AppendForecasts(gate, ListAt(signalWindowByGate, gateId), event, now, later);
      }
      var existing := ListAt(signalWindowByGate, gateId);
      var pruned := Prune(existing, now - SIGNAL_WINDOW_RETENTION_MS);
      pruned := pruned + [event];
      signalWindowByGate := signalWindowByGate[gateId := pruned];
    }

    method OnSignalEvent(event: SignalEvent, now: Time)
      requires Valid() && Enabled(cfg, Abs(), Signal(event, now))
      modifies this
      ensures Valid() && past.trace == old(past.trace) + [Signal(event, now)]
      ensures Abs() == Next(cfg, old(Abs()), Signal(event, now))
    {
      hide StrictTotalOrder, Run, Next, TrackFans, Append;
      Dispatch(cfg, Abs(), Signal(event, now));
      RunExtends(cfg, start, past.trace, Signal(event, now));
      ghost var received := Received(Abs().intake, event, now);
      TrackFansForEvent(event);
      if event.gateId.Some? {
        AppendToWindow(event.gateId.value, event, now);
      }
      past := past.(clock := now, arrivals := received.arrivals, trace := past.trace + [Signal(event, now)]);
    }

    // ---------- congestion-scores ----------

    method OnCongestionScores(gate: Gate, result: ForecastResult, now: Time) returns (next: Handler)
      requires Valid() && Enabled(cfg, Abs(), ScoreStart(gate, result, now))
      modifies this
      ensures Valid() && past.trace == old(past.trace) + [ScoreStart(gate, result, now)]
      ensures Abs() == Next(cfg, old(Abs()), ScoreStart(gate, result, now))
      ensures InFlight(next)
    {
      hide StrictTotalOrder, Run, Next, CheckRiskLevelTransition;
      Dispatch(cfg, Abs(), ScoreStart(gate, result, now));
      RunExtends(cfg, start, past.trace, ScoreStart(gate, result, now));
      ghost var scores := Started(Abs().scores, gate.gateId, result, now);
      var newRisk := RiskOf(result);
      var previousRisk := if gate.gateId in previousRiskLevelByGate then previousRiskLevelByGate[gate.gateId] else LOW;
      forecastsByGate := forecastsByGate[gate.gateId := result];
      var transition := CheckRiskLevelTransition(gate.gateId, previousRisk, newRisk, now);
      if transition.Some? {
        alerts := alerts + [transition.value];
      }
      assert scores.alerts == alerts;
      next := Handler(gate, result, now, AlertRaised);
      past := past.(
        clock := now,
        handlers := past.handlers[gate.gateId := next],
        history := scores.history,
        trace := past.trace + [ScoreStart(gate, result, now)]);
    }

    method AfterAlert(h: Handler) returns (next: Handler)
      requires Valid() && InFlight(h) && Enabled(cfg, Abs(), SetPrevious(h.gate.gateId))
      modifies this
      ensures Valid() && past.trace == old(past.trace) + [SetPrevious(h.gate.gateId)]
      ensures Abs() == Next(cfg, old(Abs()), SetPrevious(h.gate.gateId))
      ensures InFlight(next)
    {
      hide StrictTotalOrder, Run, Next;
      Dispatch(cfg, Abs(), SetPrevious(h.gate.gateId));
      RunExtends(cfg, start, past.trace, SetPrevious(h.gate.gateId));
      var id := h.gate.gateId;
      previousRiskLevelByGate := previousRiskLevelByGate[id := RiskOf(h.result)];
      next := h.(phase := WindowRead(ListAt(signalWindowByGate, id)));
      past := past.(
        handlers := past.handlers[next.gate.gateId := next],
        trace := past.trace + [SetPrevious(h.gate.gateId)]);
    }

    method AfterWindow(h: Handler) returns (next: Handler)
      requires Valid() && InFlight(h) && Enabled(cfg, Abs(), StoreActions(h.gate.gateId))
      modifies this
      ensures Valid() && past.trace == old(past.trace) + [StoreActions(h.gate.gateId)]
      ensures Abs() == Next(cfg, old(Abs()), StoreActions(h.gate.gateId))
      ensures InFlight(next)
    {
      hide StrictTotalOrder, Run, Next, GenerateRecommendations;
      Dispatch(cfg, Abs(), StoreActions(h.gate.gateId));
      RunExtends(cfg, start, past.trace, StoreActions(h.gate.gateId));
      var id := h.gate.gateId;
      var actions := GenerateRecommendations(id, h.result, h.phase.window);
      activeActions := activeActions[id := actions];
      next := h.(phase := ActionsStored(actions));
      past := past.(
        handlers := past.handlers[next.gate.gateId := next],
        served := past.served[id := Served(h.result, h.phase.window)],
        trace := past.trace + [StoreActions(h.gate.gateId)]);
    }

    method AfterStore(h: Handler) returns (next: Handler)
      requires Valid() && InFlight(h) && Enabled(cfg, Abs(), PublishActions(h.gate.gateId))
      modifies this
      ensures Valid() && past.trace == old(past.trace) + [PublishActions(h.gate.gateId)]
      ensures Abs() == Next(cfg, old(Abs()), PublishActions(h.gate.gateId))
      ensures InFlight(next)
    {
      hide StrictTotalOrder, Run, Next;
      Dispatch(cfg, Abs(), PublishActions(h.gate.gateId));
      RunExtends(cfg, start, past.trace, PublishActions(h.gate.gateId));
      dashboardActions := dashboardActions[h.gate.gateId := h.phase.actions];
      next := h.(phase := ActionsPublished);
      past := past.(
        handlers := past.handlers[next.gate.gateId := next],
        trace := past.trace + [PublishActions(h.gate.gateId)]);
    }

    method AfterPublish(h: Handler, now: Time) returns (next: Handler)
      requires Valid() && InFlight(h) && Enabled(cfg, Abs(), Redirect(h.gate.gateId, now))
      modifies this
      ensures Valid() && past.trace == old(past.trace) + [Redirect(h.gate.gateId, now)]
      ensures Abs() == Next(cfg, old(Abs()), Redirect(h.gate.gateId, now))
      ensures InFlight(next)
    {
      hide StrictTotalOrder, Run, Next, Redirections, RecentRejections;
      Dispatch(cfg, Abs(), Redirect(h.gate.gateId, now));
      RunExtends(cfg, start, past.trace, Redirect(h.gate.gateId, now));
      var listed := RecentRejections(recentRejections, now);
      var redirections := GenerateRedirections(cfg.before, h.gate, forecastsByGate, cfg.routes, listed, h.now);
      next := h.(phase := Publishing(redirections));
      past := past.(
        clock := now,
        handlers := past.handlers[next.gate.gateId := next],
        trace := past.trace + [Redirect(h.gate.gateId, now)]);
    }

    method AfterRedirection(h: Handler) returns (next: Handler)
      requires Valid() && InFlight(h) && Enabled(cfg, Abs(), PublishRedirection(h.gate.gateId))
      modifies this
      ensures Valid() && past.trace == old(past.trace) + [PublishRedirection(h.gate.gateId)]
      ensures Abs() == Next(cfg, old(Abs()), PublishRedirection(h.gate.gateId))
      ensures InFlight(next)
    {
      hide StrictTotalOrder, Run, Next;
      Dispatch(cfg, Abs(), PublishRedirection(h.gate.gateId));
      RunExtends(cfg, start, past.trace, PublishRedirection(h.gate.gateId));
      var pending := h.phase.pending;
      if pending == [] {
        next := h.(phase := Checking(ListAt(fansByGate, h.gate.gateId)));
        past := past.(
        handlers := past.handlers[next.gate.gateId := next],
        trace := past.trace + [PublishRedirection(h.gate.gateId)]);
      } else {
        next := h.(phase := Publishing(pending[1..]));
        past := past.(
          handlers := past.handlers[next.gate.gateId := next],
          published := past.published + [pending[0]],
          trace := past.trace + [PublishRedirection(h.gate.gateId)]);
      }
    }

    // ---------- fan nudges ----------

    method CheckCooldown(h: Handler, now: Time) returns (next: Handler)
      requires Valid() && InFlight(h) && Enabled(cfg, Abs(), ReadCooldown(h.gate.gateId, now))
      modifies this
      ensures Valid() && past.trace == old(past.trace) + [ReadCooldown(h.gate.gateId, now)]
      ensures Abs() == Next(cfg, old(Abs()), ReadCooldown(h.gate.gateId, now))
      ensures InFlight(next)
    {
      hide StrictTotalOrder, Run, Next;
      Dispatch(cfg, Abs(), ReadCooldown(h.gate.gateId, now));
      RunExtends(cfg, start, past.trace, ReadCooldown(h.gate.gateId, now));
      var fans := h.phase.fans;
      var key := (fans[0], h.gate.gateId);
      var lastNudgeAt: Option<Time> := None;
      if key in cooldowns {
        if now >= cooldowns[key].expiresAt {
          cooldowns := cooldowns - {key};
        } else {
          lastNudgeAt := Some(cooldowns[key].value);
        }
      }
      next := h.(phase := CooldownRead(fans, lastNudgeAt, now));
      past := past.(
        clock := now,
        handlers := past.handlers[next.gate.gateId := next],
        trace := past.trace + [ReadCooldown(h.gate.gateId, now)]);
    }

    method GenerateNudge(h: Handler, now: Time) returns (next: Handler)
      requires Valid() && InFlight(h) && Enabled(cfg, Abs(), Decide(h.gate.gateId, now))
      modifies this
      ensures Valid() && past.trace == old(past.trace) + [Decide(h.gate.gateId, now)]
      ensures Abs() == Next(cfg, old(Abs()), Decide(h.gate.gateId, now))
      ensures InFlight(next)
    {
      hide StrictTotalOrder, Run, Next, GenerateFanNudge;
      Dispatch(cfg, Abs(), Decide(h.gate.gateId, now));
      RunExtends(cfg, start, past.trace, Decide(h.gate.gateId, now));
      var fans := h.phase.fans;
      var key := (fans[0], h.gate.gateId);
      var nudge := GenerateFanNudge(cfg.before, fans[0], h.gate.gateId, forecastsByGate, h.phase.last, h.now);
      if nudge.None? {
        next := h.(phase := Checking(fans[1..]));
        past := past.(
        clock := now,
        handlers := past.handlers[next.gate.gateId := next],
        trace := past.trace + [Decide(h.gate.gateId, now)]);
      } else {
        cooldowns := cooldowns[key := Entry(h.now, now + COOLDOWN_PERIOD_MS)];
        next := h.(phase := CooldownSet(fans, nudge.value));
        past := past.(
          clock := now,
          handlers := past.handlers[next.gate.gateId := next],
          log := past.log + [Write(key, h.now, now, COOLDOWN_PERIOD_MS)],
          trace := past.trace + [Decide(h.gate.gateId, now)]);
      }
    }

    method EnqueueNudge(h: Handler) returns (next: Handler)
      requires Valid() && InFlight(h) && Enabled(cfg, Abs(), Enqueue(h.gate.gateId))
      modifies this
      ensures Valid() && past.trace == old(past.trace) + [Enqueue(h.gate.gateId)]
      ensures Abs() == Next(cfg, old(Abs()), Enqueue(h.gate.gateId))
      ensures InFlight(next)
    {
      hide StrictTotalOrder, Run, Next;
      Dispatch(cfg, Abs(), Enqueue(h.gate.gateId));
      RunExtends(cfg, start, past.trace, Enqueue(h.gate.gateId));
      var nudge := h.phase.nudge;
      queuedNudges := queuedNudges[nudge.id := nudge];
      next := h.(phase := Checking(h.phase.fans[1..]));
      past := past.(
        handlers := past.handlers[next.gate.gateId := next],
        trace := past.trace + [Enqueue(h.gate.gateId)]);
    }

    method FinishScores(h: Handler)
      requires Valid() && InFlight(h) && Enabled(cfg, Abs(), Finish(h.gate.gateId))
      modifies this
      ensures Valid() && past.trace == old(past.trace) + [Finish(h.gate.gateId)]
      ensures Abs() == Next(cfg, old(Abs()), Finish(h.gate.gateId))
    {
      hide StrictTotalOrder, Run, Next;
      Dispatch(cfg, Abs(), Finish(h.gate.gateId));
      RunExtends(cfg, start, past.trace, Finish(h.gate.gateId));
      past := past.(handlers := past.handlers - {h.gate.gateId}, trace := past.trace + [Finish(h.gate.gateId)]);
    }

    // ---------- the delivery worker, and the dispatcher's rejections ----------

    method StartPass(order: seq<NudgeId>, now: Time)
      requires Valid() && Enabled(cfg, Abs(), PassStart(order, now))
      modifies this
      ensures Valid() && past.trace == old(past.trace) + [PassStart(order, now)]
      ensures Abs() == Next(cfg, old(Abs()), PassStart(order, now))
    {
      hide StrictTotalOrder, Run, Next;
      Dispatch(cfg, Abs(), PassStart(order, now));
      RunExtends(cfg, start, past.trace, PassStart(order, now));
      var queue := queuedNudges;
      worker := Scanning(seq(|order|, i requires 0 <= i < |order| => queue[order[i]]), queue.Keys, now);
      past := past.(clock := now, trace := past.trace + [PassStart(order, now)]);
    }

    method VisitNudge()
      requires Valid() && Enabled(cfg, Abs(), PassVisit)
      modifies this
      ensures Valid() && past.trace == old(past.trace) + [PassVisit]
      ensures Abs() == Next(cfg, old(Abs()), PassVisit)
    {
      hide StrictTotalOrder, Run, Next, SimulateDelivery;
      Dispatch(cfg, Abs(), PassVisit);
      RunExtends(cfg, start, past.trace, PassVisit);
      past := past.(trace := past.trace + [PassVisit]);
      var pending := worker.pending;
      if pending == [] {
        worker := Resting;
        return;
      }
      var nudge := pending[0];
      if nudge.status != QUEUED {
        worker := Scanning(pending[1..], worker.started, worker.now);
        return;
      }
      var (updated, record) := SimulateDelivery(nudge, forecastsByGate, worker.now);
      queuedNudges := queuedNudges[updated.id := updated];
      var entry := AuditEntry(updated, record, GateRisk(forecastsByGate, nudge.originGateId));
      worker := Auditing(entry, pending[1..], worker.started, worker.now);
    }

    method AuditNudge()
      requires Valid() && Enabled(cfg, Abs(), PassAudit)
      modifies this
      ensures Valid() && past.trace == old(past.trace) + [PassAudit]
      ensures Abs() == Next(cfg, old(Abs()), PassAudit)
    {
      hide StrictTotalOrder, Run, Next;
      Dispatch(cfg, Abs(), PassAudit);
      RunExtends(cfg, start, past.trace, PassAudit);
      nudgeAudit := nudgeAudit + [worker.entry];
      worker := Scanning(worker.pending, worker.started, worker.now);
      past := past.(trace := past.trace + [PassAudit]);
    }

    method RecordRejection(route: RouteId, alternative: GateId, rejectedAt: Time, now: Time)
      requires Valid() && Enabled(cfg, Abs(), Reject(route, alternative, rejectedAt, now))
      modifies this
      ensures Valid() && past.trace == old(past.trace) + [Reject(route, alternative, rejectedAt, now)]
      ensures Abs() == Next(cfg, old(Abs()), Reject(route, alternative, rejectedAt, now))
    {
      hide StrictTotalOrder, Run, Next;
      Dispatch(cfg, Abs(), Reject(route, alternative, rejectedAt, now));
      RunExtends(cfg, start, past.trace, Reject(route, alternative, rejectedAt, now));
      recentRejections := recentRejections + [RejectionRecord(route, alternative, rejectedAt)];
      past := past.(clock := now, trace := past.trace + [Reject(route, alternative, rejectedAt, now)]);
    }
  }
}
