/**
 What every interleaving of the pipeline's steps keeps. The invariant is split by concern; each
 part comes with the lemma that every enabled step preserves it.
 */
module PipelineSafety {
  import opened Domain
  import opened SignalWindow
  import opened Selection
  import opened Expiry
  import opened Redirecting
  import opened Nudging
  import opened Delivering
  import opened Alerting
  import opened Recommending
  import opened PipelineMachine

  // ---------- Forecasts, previous risk and alerts, per gate ----------

  function HistoryOf(s: State, gate: GateId): seq<Handled> {
    ListAt(s.scores.history, gate)
  }

  /** A handler in flight is the latest update of its gate, and its forecast is the published one. */
  ghost predicate HandlersLatest(s: State) {
    forall id | id in s.handlers :: IsLatest(s, id, s.handlers[id])
  }

  ghost predicate IsLatest(s: State, id: GateId, h: Handler) {
    var history := HistoryOf(s, id);
    && h.gate.gateId == id && h.now <= s.clock
    && id in s.scores.forecasts && s.scores.forecasts[id] == h.result
    && history != [] && history[|history| - 1] == Handled(RiskOf(h.result), h.now)
  }

  lemma HandlersLatestKept(cfg: Config, s: State, step: Step)
    requires StrictTotalOrder(cfg.before) && Enabled(cfg, s, step)
    requires HandlersLatest(s)
    ensures HandlersLatest(Next(cfg, s, step))
  {
    hide StrictTotalOrder, Next, IsLatest;
    Dispatch(cfg, s, step);
    var t := Next(cfg, s, step);
    forall id | id in t.handlers ensures IsLatest(t, id, t.handlers[id]) {
      if step.ScoreStart? {
        StartLatest(s, step.gate, step.result, step.now, id);
      } else {
        OthersLatest(cfg, s, step, id);
      }
    }
  }

  lemma StartLatest(s: State, gate: Gate, result: ForecastResult, now: Time, id: GateId)
    requires s.clock <= now && (id in s.handlers ==> IsLatest(s, id, s.handlers[id]))
    ensures var t := OnScoreStart(s, gate, result, now); id in t.handlers ==> IsLatest(t, id, t.handlers[id])
  {
    hide Started;
    StartedAt(s.scores, gate.gateId, result, now, id);
    StartPublishes(s.scores, gate.gateId, result, now);
  }

  lemma OthersLatest(cfg: Config, s: State, step: Step, id: GateId)
    requires StrictTotalOrder(cfg.before) && Enabled(cfg, s, step) && !step.ScoreStart?
    requires id in s.handlers ==> IsLatest(s, id, s.handlers[id])
    ensures var t := Next(cfg, s, step); id in t.handlers ==> IsLatest(t, id, t.handlers[id])
  {
    hide StrictTotalOrder, Enabled, Next;
    Frame(cfg, s, step);
    OwnerFrame(cfg, s, step);
  }

  lemma StartPublishes(scores: Scores, gate: GateId, result: ForecastResult, now: Time)
    ensures Started(scores, gate, result, now).forecasts == scores.forecasts[gate := result]
    ensures Started(scores, gate, result, now).history.Keys == scores.history.Keys + {gate}
  {
  }

  /** The previous risk lags by one update exactly while a handler awaits its alert. */
  ghost predicate PreviousRiskLags(s: State) {
    forall id :: LagsAt(s, id)
  }

  ghost predicate LagsAt(s: State, id: GateId) {
    var history := HistoryOf(s, id);
    if id in s.handlers && s.handlers[id].phase.AlertRaised? then
      history != [] && PreviousRisk(s.scores, id) == LastRisk(history[..|history| - 1])
    else
      PreviousRisk(s.scores, id) == LastRisk(history)
  }

  lemma PreviousRiskLagsKept(cfg: Config, s: State, step: Step)
    requires StrictTotalOrder(cfg.before) && Enabled(cfg, s, step)
    requires HandlersLatest(s) && PreviousRiskLags(s)
    ensures PreviousRiskLags(Next(cfg, s, step))
  {
    hide StrictTotalOrder, Next, Started, LagsAt;
    Dispatch(cfg, s, step);
    forall id ensures LagsAt(Next(cfg, s, step), id) {
      assert LagsAt(s, id);
      if step.ScoreStart? {
        StartLags(s, step.gate, step.result, step.now, id);
      } else if step.SetPrevious? {
        SetPreviousLags(s, step.id, id);
      } else {
        OthersLag(cfg, s, step, id);
      }
    }
  }

  lemma StartLags(s: State, gate: Gate, result: ForecastResult, now: Time, id: GateId)
    requires gate.gateId !in s.handlers && LagsAt(s, id)
    ensures LagsAt(OnScoreStart(s, gate, result, now), id)
  {
    hide Started;
    StartedAt(s.scores, gate.gateId, result, now, id);
  }

  lemma SetPreviousLags(s: State, gate: GateId, id: GateId)
    requires Resumes(s, SetPrevious(gate)) && HandlersLatest(s) && LagsAt(s, id)
    ensures LagsAt(OnSetPrevious(s, gate), id)
  {
  }

  lemma OthersLag(cfg: Config, s: State, step: Step, id: GateId)
    requires StrictTotalOrder(cfg.before) && Enabled(cfg, s, step) && !step.ScoreStart? && !step.SetPrevious?
    requires LagsAt(s, id)
    ensures LagsAt(Next(cfg, s, step), id)
  {
    hide StrictTotalOrder, Next;
    Frame(cfg, s, step);
    OwnerFrame(cfg, s, step);
  }

  /** The published forecast of a gate carries the risk of its latest update. */
  ghost predicate ForecastsLatest(s: State) {
    forall id :: ForecastLatestAt(s.scores, id)
  }

  ghost predicate ForecastLatestAt(scores: Scores, id: GateId) {
    (id in scores.forecasts <==> ListAt(scores.history, id) != [])
      && GateRisk(scores.forecasts, id) == LastRisk(ListAt(scores.history, id))
  }

  lemma ForecastsLatestKept(cfg: Config, s: State, step: Step)
    requires StrictTotalOrder(cfg.before) && Enabled(cfg, s, step)
    requires ForecastsLatest(s)
    ensures ForecastsLatest(Next(cfg, s, step))
  {
    hide StrictTotalOrder, Next, ForecastLatestAt;
    forall id ensures ForecastLatestAt(Next(cfg, s, step).scores, id) {
      assert ForecastLatestAt(s.scores, id);
      if step.ScoreStart? {
        Dispatch(cfg, s, step);
        StartForecasts(s.scores, step.gate.gateId, step.result, step.now, id);
      } else {
        OwnerFrame(cfg, s, step);
        SameForecasts(s.scores, Next(cfg, s, step).scores, id);
      }
    }
  }

  lemma StartForecasts(scores: Scores, gate: GateId, result: ForecastResult, now: Time, id: GateId)
    requires ForecastLatestAt(scores, id)
    ensures ForecastLatestAt(Started(scores, gate, result, now), id)
  {
    hide Started;
    StartedAt(scores, gate, result, now, id);
    StartPublishes(scores, gate, result, now);
  }

  lemma SameForecasts(scores: Scores, scores': Scores, id: GateId)
    requires ForecastLatestAt(scores, id) && scores'.forecasts == scores.forecasts && scores'.history == scores.history
    ensures ForecastLatestAt(scores', id)
  {
  }

  /** The alerts of one gate, in order. */
  function AlertsOf(alerts: seq<Alert>, gate: GateId): seq<Alert> {
    if alerts == [] then []
    else
      var n := |alerts| - 1;
      AlertsOf(alerts[..n], gate) + if alerts[n].gateId == gate then [alerts[n]] else []
  }

  /** Per gate, the alerts are those of its updates handled one after the other. */
  ghost predicate AlertsSerial(s: State) {
    forall id :: AlertsOf(s.scores.alerts, id) == AlertsRaised(id, HistoryOf(s, id))
  }

  lemma AlertsSerialKept(cfg: Config, s: State, step: Step)
    requires StrictTotalOrder(cfg.before) && Enabled(cfg, s, step)
    requires PreviousRiskLags(s) && AlertsSerial(s)
    ensures AlertsSerial(Next(cfg, s, step))
  {
    hide StrictTotalOrder, Next, AlertsOf, AlertsRaised, Started;
    Dispatch(cfg, s, step);
    if step.ScoreStart? {
      forall id
        ensures AlertsOf(Next(cfg, s, step).scores.alerts, id) == AlertsRaised(id, HistoryOf(Next(cfg, s, step), id))
      {
        StartRaises(s, step.gate.gateId, step.result, step.now, id);
      }
    } else {
      OwnerFrame(cfg, s, step);
    }
  }

  lemma AlertsOfOneMore(alerts: seq<Alert>, alert: Option<Alert>, id: GateId)
    ensures AlertsOf(alerts + (if alert.Some? then [alert.value] else []), id)
         == AlertsOf(alerts, id) + if alert.Some? && alert.value.gateId == id then [alert.value] else []
  {
    if alert.Some? {
      assert (alerts + [alert.value])[..|alerts|] == alerts;
    } else {
      assert alerts + [] == alerts;
    }
  }

  lemma AlertsRaisedOneMore(gate: GateId, history: seq<Handled>, last: Handled)
    ensures var alert := CheckRiskLevelTransition(gate, LastRisk(history), last.risk, last.now);
      AlertsRaised(gate, history + [last]) == AlertsRaised(gate, history) + if alert.Some? then [alert.value] else []
  {
    assert (history + [last])[..|history|] == history;
  }

  lemma StartRaises(s: State, gate: GateId, result: ForecastResult, now: Time, id: GateId)
    requires gate !in s.handlers && PreviousRiskLags(s) && AlertsSerial(s)
    ensures var scores := Started(s.scores, gate, result, now);
      AlertsOf(scores.alerts, id) == AlertsRaised(id, ListAt(scores.history, id))
  {
    hide AlertsOf, AlertsRaised;
    var risk := RiskOf(result);
    var before := HistoryOf(s, id);
    var alert := CheckRiskLevelTransition(gate, PreviousRisk(s.scores, gate), risk, now);
    StartedAt(s.scores, gate, result, now, id);
    AlertsOfOneMore(s.scores.alerts, alert, id);
    AlertsRaisedOneMore(id, before, Handled(risk, now));
    assert AlertsOf(s.scores.alerts, id) == AlertsRaised(id, before);
    assert LagsAt(s, gate);
  }

  // ---------- Action lists ----------

  predicate BeforeStore(s: State, id: GateId) {
    id in s.handlers && (s.handlers[id].phase.AlertRaised? || s.handlers[id].phase.WindowRead?)
  }

  predicate BeforePublish(s: State, id: GateId) {
    BeforeStore(s, id) || (id in s.handlers && s.handlers[id].phase.ActionsStored?)
  }

  /** The engine's list of a gate is exactly that of the update it last served. */
  ghost predicate ActionsServed(s: State) {
    && s.lists.actions.Keys == s.lists.served.Keys
    && forall id | id in s.lists.served ::
         s.lists.actions[id] == GenerateRecommendations(id, s.lists.served[id].forecast, s.lists.served[id].window)
  }

  lemma ActionsServedKept(cfg: Config, s: State, step: Step)
    requires StrictTotalOrder(cfg.before) && Enabled(cfg, s, step)
    requires ActionsServed(s)
    ensures ActionsServed(Next(cfg, s, step))
  {
    hide StrictTotalOrder, Next, GenerateRecommendations;
    Dispatch(cfg, s, step);
    Frame(cfg, s, step);
  }

  /**
   The served update is the gate's latest one, unless its handler has not stored yet; and the
   dashboard's copy agrees, unless the handler has not published yet.
   */
  ghost predicate ListsLatest(s: State) {
    forall id :: ListLatestAt(s, id)
  }

  ghost predicate ListLatestAt(s: State, id: GateId) {
    && (id in s.handlers && s.handlers[id].phase.ActionsStored? ==>
          id in s.lists.actions && s.lists.actions[id] == s.handlers[id].phase.actions)
    && (id in s.scores.forecasts && !BeforeStore(s, id) ==>
          id in s.lists.served && s.lists.served[id].forecast == s.scores.forecasts[id])
    && (id in s.scores.forecasts && !BeforePublish(s, id) ==>
          id in s.lists.dashboard && id in s.lists.actions && s.lists.dashboard[id] == s.lists.actions[id])
  }

  lemma ListsLatestKept(cfg: Config, s: State, step: Step)
    requires StrictTotalOrder(cfg.before) && Enabled(cfg, s, step)
    requires HandlersLatest(s) && ListsLatest(s)
    ensures ListsLatest(Next(cfg, s, step))
  {
    hide StrictTotalOrder, Next, ListLatestAt;
    Dispatch(cfg, s, step);
    forall id ensures ListLatestAt(Next(cfg, s, step), id) {
      assert ListLatestAt(s, id);
      match step
      case ScoreStart(gate, result, now) => StartLists(s, gate, result, now, id);
      case SetPrevious(gate) => SetPreviousLists(s, gate, id);
      case StoreActions(gate) => StoreLists(s, gate, id);
      case PublishActions(gate) => PublishLists(s, gate, id);
      case _ => LateStepLists(cfg, s, step, id);
    }
  }

  lemma LateStepLists(cfg: Config, s: State, step: Step, id: GateId)
    requires StrictTotalOrder(cfg.before) && Enabled(cfg, s, step) && !EarlyStep(step) && ListLatestAt(s, id)
    ensures ListLatestAt(Next(cfg, s, step), id)
  {
    hide StrictTotalOrder, Next, ListLatestAt, Enabled;
    Frame(cfg, s, step);
    OwnerFrame(cfg, s, step);
    LateFrame(cfg, s, step);
    LateLists(s, Next(cfg, s, step), id, Owner(step));
  }

  lemma StartLists(s: State, gate: Gate, result: ForecastResult, now: Time, id: GateId)
    requires ListLatestAt(s, id)
    ensures ListLatestAt(OnScoreStart(s, gate, result, now), id)
  {
  }

  lemma SetPreviousLists(s: State, gate: GateId, id: GateId)
    requires Resumes(s, SetPrevious(gate)) && ListLatestAt(s, id)
    ensures ListLatestAt(OnSetPrevious(s, gate), id)
  {
  }

  lemma StoreLists(s: State, gate: GateId, id: GateId)
    requires Resumes(s, StoreActions(gate)) && HandlersLatest(s) && ListLatestAt(s, id)
    ensures ListLatestAt(OnStoreActions(s, gate), id)
  {
  }

  lemma PublishLists(s: State, gate: GateId, id: GateId)
    requires Resumes(s, PublishActions(gate)) && ListLatestAt(s, id)
    ensures ListLatestAt(OnPublishActions(s, gate), id)
  {
  }

  lemma LateLists(s: State, t: State, id: GateId, owner: Option<GateId>)
    requires ListLatestAt(s, id) && t.lists == s.lists && t.scores.forecasts == s.scores.forecasts
    requires owner != Some(id) ==>
      (id in t.handlers <==> id in s.handlers) && (id in s.handlers ==> t.handlers[id] == s.handlers[id])
    requires owner == Some(id) ==>
      id in s.handlers && !Early(s.handlers[id].phase) && (id in t.handlers ==> !Early(t.handlers[id].phase))
    ensures ListLatestAt(t, id)
  {
  }

  // ---------- Windows ----------

  /** Every window is that of its gate's whole history of arrivals, in order and none in the future. */
  ghost predicate WindowsOf(intake: Intake, clock: Time) {
    && intake.windows.Keys == intake.arrivals.Keys
    && forall id | id in intake.arrivals ::
         && intake.windows[id] == WindowAfter(intake.arrivals[id]) && InOrder(intake.arrivals[id])
         && forall a | a in intake.arrivals[id] :: a.at <= clock
  }

  ghost predicate WindowsTrackHistory(s: State) {
    WindowsOf(s.intake, s.clock)
  }

  lemma ReceivedTracks(intake: Intake, event: SignalEvent, now: Time, clock: Time)
    requires WindowsOf(intake, clock) && clock <= now
    ensures WindowsOf(Received(intake, event, now), now)
  {
    hide TrackFans, Append, WindowAfter;
    if event.gateId.Some? {
      var gate := event.gateId.value;
      NextWindow(ListAt(intake.arrivals, gate), Arrival(event, now));
      NoWindow();
      var after := Received(intake, event, now);
      assert after.windows[gate] == Append(WindowAfter(ListAt(intake.arrivals, gate)), event, now);
    }
  }

  lemma NextWindow(arrivals: seq<Arrival>, last: Arrival)
    ensures WindowAfter(arrivals + [last]) == Append(WindowAfter(arrivals), last.event, last.at)
  {
    assert (arrivals + [last])[..|arrivals|] == arrivals;
  }

  lemma NoWindow()
    ensures WindowAfter([]) == []
  {
  }

  lemma WindowAt(intake: Intake, clock: Time, gate: GateId)
    requires WindowsOf(intake, clock)
    ensures var arrivals := ListAt(intake.arrivals, gate);
      && ListAt(intake.windows, gate) == WindowAfter(arrivals) && InOrder(arrivals)
      && forall a | a in arrivals :: a.at <= clock
  {
    hide WindowAfter;
    NoWindow();
  }

  lemma WindowsTrackHistoryKept(cfg: Config, s: State, step: Step)
    requires StrictTotalOrder(cfg.before) && Enabled(cfg, s, step)
    requires WindowsTrackHistory(s)
    ensures WindowsTrackHistory(Next(cfg, s, step))
  {
    hide StrictTotalOrder, Received;
    if step.Signal? {
      ReceivedTracks(s.intake, step.event, step.now, s.clock);
    } else {
      hide Next;
      Frame(cfg, s, step);
    }
  }

  // ---------- The windows behind the action lists ----------

  /** The window as it was after the first k arrivals, those from k on no earlier than `since`. */
  ghost predicate HeardUpTo(arrivals: seq<Arrival>, window: seq<SignalEvent>, since: Time, k: nat) {
    && k <= |arrivals| && window == WindowAfter(arrivals[..k])
    && forall i | k <= i < |arrivals| :: since <= arrivals[i].at
  }

  /** A window of the gate's own arrivals, with every one of them from before `since` in it. */
  ghost predicate Heard(arrivals: seq<Arrival>, window: seq<SignalEvent>, since: Time) {
    exists k: nat :: HeardUpTo(arrivals, window, since, k)
  }

  /** A score handler's window, and the one behind the gate's list, hold all that came before the handler started. */
  ghost predicate WindowsHeard(s: State) {
    forall id :: HeardAt(s, id)
  }

  ghost predicate HeardAt(s: State, id: GateId) {
    var arrivals, history := ListAt(s.intake.arrivals, id), HistoryOf(s, id);
    && (history != [] ==> history[|history| - 1].now <= s.clock)
    && (id in s.handlers && s.handlers[id].phase.WindowRead? ==>
          s.handlers[id].now <= s.clock && Heard(arrivals, s.handlers[id].phase.window, s.handlers[id].now))
    && (history != [] && !BeforeStore(s, id) ==>
          id in s.lists.served && Heard(arrivals, s.lists.served[id].window, history[|history| - 1].now))
  }

  lemma WindowsHeardKept(cfg: Config, s: State, step: Step)
    requires StrictTotalOrder(cfg.before) && Enabled(cfg, s, step)
    requires HandlersLatest(s) && WindowsTrackHistory(s) && WindowsHeard(s)
    ensures WindowsHeard(Next(cfg, s, step))
  {
    hide StrictTotalOrder, Next, HeardAt, WindowsTrackHistory, HandlersLatest;
    Dispatch(cfg, s, step);
    forall id ensures HeardAt(Next(cfg, s, step), id) {
      assert HeardAt(s, id);
      match step
      case Signal(event, now) => SignalHeard(s, event, now, id);
      case ScoreStart(gate, result, now) => StartHeard(s, gate, result, now, id);
      case SetPrevious(gate) => SetPreviousHeard(s, gate, id);
      case StoreActions(gate) => StoreHeard(s, gate, id);
      case PublishActions(gate) => PublishHeard(s, gate, id);
      case _ => LateStepHeard(cfg, s, step, id);
    }
  }

  lemma HeardGrows(arrivals: seq<Arrival>, last: Arrival, window: seq<SignalEvent>, since: Time)
    requires Heard(arrivals, window, since) && since <= last.at
    ensures Heard(arrivals + [last], window, since)
  {
    hide WindowAfter;
    var k: nat :| HeardUpTo(arrivals, window, since, k);
    assert (arrivals + [last])[..k] == arrivals[..k];
    assert HeardUpTo(arrivals + [last], window, since, k);
  }

  lemma SignalHeard(s: State, event: SignalEvent, now: Time, id: GateId)
    requires s.clock <= now && HeardAt(s, id)
    ensures HeardAt(OnSignal(s, event, now), id)
  {
    hide Heard, Append, TrackFans;
    var arrivals, history := ListAt(s.intake.arrivals, id), HistoryOf(s, id);
    if event.gateId == Some(id) {
      if id in s.handlers && s.handlers[id].phase.WindowRead? {
        HeardGrows(arrivals, Arrival(event, now), s.handlers[id].phase.window, s.handlers[id].now);
      }
      if history != [] && !BeforeStore(s, id) {
        HeardGrows(arrivals, Arrival(event, now), s.lists.served[id].window, history[|history| - 1].now);
      }
    }
  }

  lemma StartHeard(s: State, gate: Gate, result: ForecastResult, now: Time, id: GateId)
    requires s.clock <= now && HeardAt(s, id)
    ensures HeardAt(OnScoreStart(s, gate, result, now), id)
  {
    hide Heard, Started;
    StartedAt(s.scores, gate.gateId, result, now, id);
  }

  lemma SetPreviousHeard(s: State, gate: GateId, id: GateId)
    requires Resumes(s, SetPrevious(gate)) && HandlersLatest(s) && WindowsTrackHistory(s) && HeardAt(s, id)
    ensures HeardAt(OnSetPrevious(s, gate), id)
  {
    hide Heard, WindowAfter;
    if id == gate {
      WindowHeard(ListAt(s.intake.arrivals, id), s.handlers[id].now);
      NoWindow();
    }
  }

  lemma WindowHeard(arrivals: seq<Arrival>, since: Time)
    ensures Heard(arrivals, WindowAfter(arrivals), since)
  {
    assert arrivals[..|arrivals|] == arrivals;
    assert HeardUpTo(arrivals, WindowAfter(arrivals), since, |arrivals|);
  }

  lemma StoreHeard(s: State, gate: GateId, id: GateId)
    requires Resumes(s, StoreActions(gate)) && HandlersLatest(s) && HeardAt(s, id)
    ensures HeardAt(OnStoreActions(s, gate), id)
  {
    hide Heard, GenerateRecommendations;
  }

  lemma PublishHeard(s: State, gate: GateId, id: GateId)
    requires Resumes(s, PublishActions(gate)) && HeardAt(s, id)
    ensures HeardAt(OnPublishActions(s, gate), id)
  {
    hide Heard;
  }

  lemma LateStepHeard(cfg: Config, s: State, step: Step, id: GateId)
    requires StrictTotalOrder(cfg.before) && Enabled(cfg, s, step) && !EarlyStep(step) && !step.Signal?
        && HeardAt(s, id)
    ensures HeardAt(Next(cfg, s, step), id)
  {
    hide StrictTotalOrder, Next, HeardAt, Enabled;
    Frame(cfg, s, step);
    LateFrame(cfg, s, step);
    LateHeard(s, Next(cfg, s, step), id, Owner(step));
  }

  lemma LateHeard(s: State, t: State, id: GateId, owner: Option<GateId>)
    requires HeardAt(s, id) && t.lists == s.lists && t.scores == s.scores && t.intake == s.intake && s.clock <= t.clock
    requires owner != Some(id) ==>
      (id in t.handlers <==> id in s.handlers) && (id in s.handlers ==> t.handlers[id] == s.handlers[id])
    requires owner == Some(id) ==>
      id in s.handlers && !Early(s.handlers[id].phase) && (id in t.handlers ==> !Early(t.handlers[id].phase))
    ensures HeardAt(t, id)
  {
    hide Heard;
  }

  // ---------- Fans ----------

  predicate Distinct<T(==)>(list: seq<T>) {
    forall i, j :: 0 <= i < j < |list| ==> list[i] != list[j]
  }

  lemma {:induction false} AddFansGrows(fans: seq<FanId>, more: seq<FanId>)
    ensures fans <= AddFans(fans, more) && (Distinct(fans) ==> Distinct(AddFans(fans, more)))
    ensures forall f :: f in AddFans(fans, more) <==> f in fans || f in more
  {
    if more != [] {
      assert more == more[..|more| - 1] + [more[|more| - 1]];
      AddFansGrows(fans, more[..|more| - 1]);
    }
  }

  /** The event tells of this fan at this gate: a scan at it, or an arrival bound for it. */
  predicate Mentions(event: SignalEvent, gate: GateId, fan: FanId) {
    match event.payload
    case GateCounter(_) => false
    case TicketScan(scanned) => event.gateId == Some(gate) && scanned == fan
    case TransitArrival(_, destination, fanIds) => destination == Some(gate) && fanIds.Some? && fan in fanIds.value
  }

  /** A gate's fans are added at the end, each once, and exactly those that the event mentions. */
  lemma TrackedFans(fans: map<GateId, seq<FanId>>, event: SignalEvent, gate: GateId)
    ensures var before, after := ListAt(fans, gate), ListAt(TrackFans(fans, event), gate);
      && before <= after && (Distinct(before) ==> Distinct(after))
      && forall fan :: fan in after <==> fan in before || Mentions(event, gate, fan)
  {
    hide AddFans;
    if event.payload.TransitArrival? && event.payload.fanIds.Some? {
      AddFansGrows(ListAt(fans, gate), event.payload.fanIds.value);
    }
  }

  /** A gate's fan list never repeats a fan. */
  ghost predicate FansDistinct(s: State) {
    forall id | id in s.intake.fans :: Distinct(s.intake.fans[id])
  }

  lemma FansDistinctKept(cfg: Config, s: State, step: Step)
    requires StrictTotalOrder(cfg.before) && Enabled(cfg, s, step)
    requires FansDistinct(s)
    ensures FansDistinct(Next(cfg, s, step))
  {
    hide StrictTotalOrder, Append, TrackFans, Next;
    if step.Signal? {
      Dispatch(cfg, s, step);
      forall id | id in TrackFans(s.intake.fans, step.event)
        ensures Distinct(TrackFans(s.intake.fans, step.event)[id])
      {
        TrackedFans(s.intake.fans, step.event, id);
      }
    } else {
      Frame(cfg, s, step);
    }
  }

  // ---------- Redirections ----------

  predicate SamePair(r: Redirection, j: RejectionRecord) {
    j.routeId == r.routeId && j.alternativeGateId == r.alternativeGateId
  }

  /**
   Every rejection of the recommended pair in the list is 5 minutes old at the handler's start, less
   the skew; none of them came after that start, for a skew below 5 minutes.
   */
  ghost predicate Obeys(r: Redirection, rejections: seq<RejectionRecord>, skew: nat) {
    forall j | j in rejections && SamePair(r, j) :: r.generatedAt - j.rejectedAt >= 5 * MINUTE - skew
  }

  /**
   The same of a list that may have grown since it was read: of the rejections from before the
   start, less the skew.
   */
  ghost predicate Respects(r: Redirection, rejections: seq<RejectionRecord>, skew: nat) {
    forall j | j in rejections && SamePair(r, j) && j.rejectedAt < r.generatedAt - skew ::
      r.generatedAt - j.rejectedAt >= 5 * MINUTE - skew
  }

  ghost predicate Respectful(cfg: Config, s: State, rs: seq<Redirection>) {
    forall r | r in rs :: r.generatedAt <= s.clock && Respects(r, s.advice.rejections, cfg.skew)
  }

  ghost predicate RejectionsRespected(cfg: Config, s: State) {
    && Respectful(cfg, s, s.advice.published)
    && (forall id | id in s.handlers && s.handlers[id].phase.Publishing? ::
        Respectful(cfg, s, s.handlers[id].phase.pending))
  }

  /** The alternative is the one that the forecasts call for. */
  ghost predicate ChosenFrom(cfg: Config, forecasts: Forecasts, origin: GateId, alternative: Option<GateId>)
    requires StrictTotalOrder(cfg.before)
  {
    alternative == Alternative(cfg.before, origin, GateRisk(forecasts, origin), forecasts)
  }

  lemma RedirectObeys(cfg: Config, s: State, id: GateId, now: Time)
    requires StrictTotalOrder(cfg.before) && Enabled(cfg, s, Redirect(id, now)) && HandlersLatest(s)
    ensures forall r | r in OnRedirect(cfg, s, id, now).handlers[id].phase.pending ::
      && r.originGateId == id && r.generatedAt == s.handlers[id].now
      && ChosenFrom(cfg, s.scores.forecasts, id, Some(r.alternativeGateId))
      && Obeys(r, s.advice.rejections, cfg.skew)
  {
    hide Redirections, RecentRejections, StrictTotalOrder;
    var h := s.handlers[id];
    var listed := RecentRejections(s.advice.rejections, now);
    var pending := Redirections(cfg.before, h.gate, s.scores.forecasts, cfg.routes, listed, h.now);
    forall r | r in pending
      ensures r.originGateId == id && r.generatedAt == h.now && Obeys(r, s.advice.rejections, cfg.skew)
      ensures ChosenFrom(cfg, s.scores.forecasts, id, Some(r.alternativeGateId))
    {
      RecommendedExactly(
        cfg.before, h.gate, s.scores.forecasts, cfg.routes, listed, h.now, r.routeId, r.alternativeGateId);
      GeneratedNow(cfg.before, h.gate, s.scores.forecasts, cfg.routes, listed, h.now, r);
      forall j | j in s.advice.rejections && SamePair(r, j)
        ensures h.now - j.rejectedAt >= 5 * MINUTE - cfg.skew
      {
        RejectedPairStaysAway(
          cfg.before, h.gate, s.scores.forecasts, cfg.routes, s.advice.rejections, h.now, now, j, r);
      }
    }
  }

  lemma GeneratedNow(
      before: GateOrder, gate: Gate, forecasts: Forecasts, routes: seq<RouteId>, rejections: seq<RejectionRecord>,
      now: Time, r: Redirection)
    requires StrictTotalOrder(before) && r in Redirections(before, gate, forecasts, routes, rejections, now)
    ensures r.generatedAt == now
  {
  }

  /** Later clocks and later rejections cannot turn a recommendation disrespectful. */
  lemma StaysRespectful(cfg: Config, s: State, t: State, rs: seq<Redirection>)
    requires Respectful(cfg, s, rs) && s.clock <= t.clock
    requires forall j | j in t.advice.rejections :: j in s.advice.rejections || j.rejectedAt >= s.clock - cfg.skew
    ensures Respectful(cfg, t, rs)
  {
  }

  lemma RejectionsRespectedKept(cfg: Config, s: State, step: Step)
    requires StrictTotalOrder(cfg.before) && Enabled(cfg, s, step)
    requires HandlersLatest(s) && RejectionsRespected(cfg, s)
    ensures RejectionsRespected(cfg, Next(cfg, s, step))
  {
    hide StrictTotalOrder, Next, Redirections, RecentRejections, Respectful;
    var t := Next(cfg, s, step);
    Dispatch(cfg, s, step);
    Frame(cfg, s, step);
    PublishingFrame(cfg, s, step);
    StaysRespectful(cfg, s, t, s.advice.published);
    forall id | id in s.handlers && s.handlers[id].phase.Publishing?
      ensures Respectful(cfg, t, s.handlers[id].phase.pending)
    {
      StaysRespectful(cfg, s, t, s.handlers[id].phase.pending);
    }
    if step.Redirect? {
      NewRespectful(cfg, s, step.id, step.now);
    } else if step.PublishRedirection? && s.handlers[step.id].phase.pending != [] {
      MoveHead(cfg, t, s.advice.published, s.handlers[step.id].phase.pending);
    }
  }

  lemma NewRespectful(cfg: Config, s: State, id: GateId, now: Time)
    requires StrictTotalOrder(cfg.before) && Enabled(cfg, s, Redirect(id, now)) && HandlersLatest(s)
    ensures var t := OnRedirect(cfg, s, id, now); Respectful(cfg, t, t.handlers[id].phase.pending)
  {
    hide Redirections, RecentRejections, StrictTotalOrder;
    RedirectObeys(cfg, s, id, now);
  }

  /** A verdict on redirections that the one step that makes them gives, and the others only carry along. */
  type Verdict = Redirection -> bool

  ghost predicate RedirectionsAll(s: State, good: Verdict) {
    && (forall r | r in s.advice.published :: good(r))
    && (forall id, r | id in s.handlers && s.handlers[id].phase.Publishing? && r in s.handlers[id].phase.pending ::
        good(r))
  }

  lemma RedirectionsAllKept(cfg: Config, s: State, step: Step, good: Verdict)
    requires StrictTotalOrder(cfg.before) && Enabled(cfg, s, step) && RedirectionsAll(s, good)
    requires step.Redirect? ==>
      forall r | r in OnRedirect(cfg, s, step.id, step.now).handlers[step.id].phase.pending :: good(r)
    ensures RedirectionsAll(Next(cfg, s, step), good)
  {
    hide StrictTotalOrder, Next, Redirections, RecentRejections;
    Dispatch(cfg, s, step);
    Frame(cfg, s, step);
    PublishingFrame(cfg, s, step);
  }

  /** A nudge as it was before its delivery or cancellation. */
  function Original(n: FanNudge): FanNudge {
    n.(status := QUEUED, simulatedDeliveryTimestamp := None)
  }

  type NudgeVerdict = FanNudge -> bool

  /** The same for nudges: in a handler's hand, in the store, and in the snapshot of a delivery pass. */
  ghost predicate NudgesAll(s: State, good: NudgeVerdict) {
    && (forall id | id in s.handlers && s.handlers[id].phase.CooldownSet? :: good(Original(s.handlers[id].phase.nudge)))
    && (forall id | id in s.nudges.queue :: good(Original(s.nudges.queue[id])))
    && (!s.worker.Resting? ==> forall n | n in s.worker.pending :: good(Original(n)))
  }

  lemma NudgesAllKept(cfg: Config, s: State, step: Step, good: NudgeVerdict)
    requires StrictTotalOrder(cfg.before) && Enabled(cfg, s, step) && NudgesAll(s, good)
    requires step.Decide? ==>
      var nudge := NudgeFor(cfg, s.scores.forecasts, step.id, s.handlers[step.id]);
      nudge.Some? ==> good(Original(nudge.value))
    ensures NudgesAll(Next(cfg, s, step), good)
  {
    hide StrictTotalOrder, Next, NudgeFor, NudgesAll;
    Dispatch(cfg, s, step);
    match step
    case Decide(id, now) => DecideNudgesAll(cfg, s, id, now, good);
    case Enqueue(id) => EnqueueNudgesAll(s, id, good);
    case PassStart(order, now) => PassStartNudgesAll(s, order, now, good);
    case PassVisit => VisitNudgesAll(s, good);
    case PassAudit => AuditNudgesAll(s, good);
    case _ => OtherNudgesAll(cfg, s, step, good);
  }

  lemma OtherNudgesAll(cfg: Config, s: State, step: Step, good: NudgeVerdict)
    requires StrictTotalOrder(cfg.before) && Enabled(cfg, s, step) && NudgesAll(s, good)
    requires !step.Decide? && !step.Enqueue? && !step.PassStart? && !step.PassVisit? && !step.PassAudit?
    ensures NudgesAll(Next(cfg, s, step), good)
  {
    hide StrictTotalOrder, Next, Enabled, Original;
    Frame(cfg, s, step);
    NudgeFrame(cfg, s, step);
    QueueFrame(cfg, s, step);
  }

  lemma DecideNudgesAll(cfg: Config, s: State, id: GateId, now: Time, good: NudgeVerdict)
    requires StrictTotalOrder(cfg.before) && Resumes(s, Decide(id, now)) && NudgesAll(s, good)
    requires var nudge := NudgeFor(cfg, s.scores.forecasts, id, s.handlers[id]);
      nudge.Some? ==> good(Original(nudge.value))
    ensures NudgesAll(OnDecide(cfg, s, id, now), good)
  {
    hide NudgeFor, Original;
  }

  lemma EnqueueNudgesAll(s: State, id: GateId, good: NudgeVerdict)
    requires Resumes(s, Enqueue(id)) && NudgesAll(s, good)
    ensures NudgesAll(OnEnqueue(s, id), good)
  {
    hide Original;
  }

  lemma PassStartNudgesAll(s: State, order: seq<NudgeId>, now: Time, good: NudgeVerdict)
    requires (forall id | id in order :: id in s.nudges.queue) && NudgesAll(s, good)
    ensures NudgesAll(OnPassStart(s, order, now), good)
  {
    hide Original;
  }

  lemma VisitNudgesAll(s: State, good: NudgeVerdict)
    requires s.worker.Scanning? && NudgesAll(s, good)
    ensures NudgesAll(OnPassVisit(s), good)
  {
    hide SimulateDelivery;
    if s.worker.pending != [] {
      assert s.worker.pending[0] in s.worker.pending;
    }
  }

  lemma AuditNudgesAll(s: State, good: NudgeVerdict)
    requires s.worker.Auditing? && NudgesAll(s, good)
    ensures NudgesAll(OnPassAudit(s), good)
  {
    hide Original;
  }

  lemma MoveHead(cfg: Config, s: State, published: seq<Redirection>, pending: seq<Redirection>)
    requires Respectful(cfg, s, published) && Respectful(cfg, s, pending) && pending != []
    ensures Respectful(cfg, s, published + [pending[0]]) && Respectful(cfg, s, pending[1..])
  {
  }

  // ---------- Cooldowns ----------

  /** The store tracks its log, nudges are spaced, and a read in flight is still what the log says. */
  ghost predicate CooldownsKept(cfg: Config, s: State) {
    && Tracks(s.nudges.cooldowns, s.nudges.log, s.clock)
    && CooldownWrites(s.nudges.log) && Spaced(s.nudges.log, cfg.skew)
    && forall id | id in s.handlers && s.handlers[id].phase.CooldownRead? ::
        ReadHolds(cfg, s.nudges.log, id, s.handlers[id])
  }

  ghost predicate ReadHolds(cfg: Config, log: CooldownLog, id: GateId, h: Handler)
    requires h.phase.CooldownRead?
  {
    && h.phase.fans != []
    && h.phase.last == LiveAt(log, (h.phase.fans[0], id), h.phase.readAt)
    && h.phase.readAt <= h.now + cfg.skew
  }

  lemma LaterTracks(cooldowns: map<CooldownKey, Entry<Time>>, log: CooldownLog, clock: Time, later: Time)
    requires Tracks(cooldowns, log, clock) && clock <= later
    ensures Tracks(cooldowns, log, later)
  {
  }

  lemma OtherGateReads(cfg: Config, log: CooldownLog, w: Write<CooldownKey, Time>, id: GateId, h: Handler)
    requires h.phase.CooldownRead? && w.key.1 != id && ReadHolds(cfg, log, id, h)
    ensures ReadHolds(cfg, log + [w], id, h)
  {
    assert (log + [w])[..|log|] == log;
  }

  lemma DecideKeepsCooldowns(cfg: Config, s: State, id: GateId, now: Time)
    requires StrictTotalOrder(cfg.before) && Enabled(cfg, s, Decide(id, now))
    requires HandlersLatest(s) && CooldownsKept(cfg, s)
    ensures CooldownsKept(cfg, OnDecide(cfg, s, id, now))
  {
    hide StrictTotalOrder, Tracks, LiveAt, CooldownWrites, Spaced;
    var h := s.handlers[id];
    var key := (h.phase.fans[0], id);
    var t := OnDecide(cfg, s, id, now);
    if NudgeFor(cfg, s.scores.forecasts, id, h).Some? {
      var w := Write(key, h.now, now, COOLDOWN_PERIOD_MS);
      TracksOrdered(s.nudges.cooldowns, s.nudges.log, s.clock);
      SpacingStep(s.nudges.log, cfg.skew, key, h.now, h.phase.readAt, now);
      WriteTracks(s.nudges.cooldowns, s.nudges.log, s.clock, key, h.now, now, COOLDOWN_PERIOD_MS);
      forall other | other in t.handlers && t.handlers[other].phase.CooldownRead?
        ensures ReadHolds(cfg, t.nudges.log, other, t.handlers[other])
      {
        OtherGateReads(cfg, s.nudges.log, w, other, s.handlers[other]);
      }
    } else {
      LaterTracks(s.nudges.cooldowns, s.nudges.log, s.clock, now);
    }
  }

  /** A cooldown read leaves no expired entry of its fan and gate behind, and all others as they were. */
  lemma ReadEvicts(s: State, id: GateId, now: Time)
    requires Resumes(s, ReadCooldown(id, now))
    ensures var key := (s.handlers[id].phase.fans[0], id);
      var before, after := s.nudges.cooldowns, OnReadCooldown(s, id, now).nudges.cooldowns;
      && (key in after ==> now < after[key].expiresAt)
      && after.Keys <= before.Keys
      && forall k | k in before && k != key :: k in after && after[k] == before[k]
  {
  }

  lemma CooldownsKeptKept(cfg: Config, s: State, step: Step)
    requires StrictTotalOrder(cfg.before) && Enabled(cfg, s, step)
    requires HandlersLatest(s) && CooldownsKept(cfg, s)
    ensures CooldownsKept(cfg, Next(cfg, s, step))
  {
    hide StrictTotalOrder, Tracks, LiveAt, CooldownWrites, Spaced, OnDecide, Next, Lookup, Evicted;
    var t := Next(cfg, s, step);
    Dispatch(cfg, s, step);
    if step.Decide? {
      DecideKeepsCooldowns(cfg, s, step.id, step.now);
    } else if step.ReadCooldown? {
      ReadTracks(s.nudges.cooldowns, s.nudges.log, s.clock, (s.handlers[step.id].phase.fans[0], step.id), step.now);
    } else {
      Frame(cfg, s, step);
      CooldownFrame(cfg, s, step);
      LaterTracks(s.nudges.cooldowns, s.nudges.log, s.clock, t.clock);
    }
  }
}
