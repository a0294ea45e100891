/**
 Fan nudges and their cooldown (src/fan-notification-system/nudges.ts and service.ts).

 A handler reads the clock once, at its start (`now`); the store reads it again at every access.
 `skew` bounds how much later than `now` an access may come. With skew 0 this is the model with
 one clock reading per update.
 */
module Nudging {
  import opened Domain
  import opened Selection
  import opened Expiry

  const COOLDOWN_PERIOD_MS: int := 5 * 60 * 1000

  datatype NudgeStatus = QUEUED | SIMULATED_DELIVERED | CANCELLED
  type NudgeId = (FanId, GateId, Time)
  type CooldownKey = (FanId, GateId)

  /** The message text is left out; the risk it quotes is kept as `originRisk`. */
  datatype FanNudge = FanNudge(
    id: NudgeId,
    fanId: FanId,
    originGateId: GateId,
    originRisk: RiskLevel,
    alternativeGateId: Option<GateId>,
    alternativeArrivalTime: Option<Time>,
    generatedAt: Time,
    simulatedDeliveryTimestamp: Option<Time>,
    status: NudgeStatus)

  /** The cooldown since the last nudge the store still knows of has elapsed. */
  predicate Cooled(lastNudgeAt: Option<Time>, now: Time) {
    lastNudgeAt.Some? ==> now - lastNudgeAt.value >= 5 * MINUTE
  }

  function GenerateFanNudge(
      before: GateOrder, fan: FanId, gate: GateId, forecasts: Forecasts, lastNudgeAt: Option<Time>, now: Time)
      : (nudge: Option<FanNudge>)
    requires StrictTotalOrder(before)
    ensures nudge.Some? <==> Cooled(lastNudgeAt, now) && IsHot(GateRisk(forecasts, gate))
    ensures gate !in forecasts ==> nudge == None
    ensures nudge.Some? ==>
      && nudge.value.id == (fan, gate, now) && nudge.value.status == QUEUED
      && nudge.value.fanId == fan && nudge.value.originGateId == gate && nudge.value.generatedAt == now
      && nudge.value.simulatedDeliveryTimestamp == None
      && nudge.value.originRisk == GateRisk(forecasts, gate)
      && nudge.value.alternativeGateId == Alternative(before, gate, GateRisk(forecasts, gate), forecasts)
      && (nudge.value.alternativeGateId.None? <==> nudge.value.alternativeArrivalTime == Some(now + 20 * 60 * 1000))
      && (nudge.value.alternativeGateId.Some? <==> nudge.value.alternativeArrivalTime.None?)
      && (nudge.value.alternativeGateId.Some? ==>
            Order(GateRisk(forecasts, nudge.value.alternativeGateId.value)) < Order(GateRisk(forecasts, gate)))
  {
    if lastNudgeAt.Some? && now - lastNudgeAt.value < COOLDOWN_PERIOD_MS then
      None
    else
      var risk := GateRisk(forecasts, gate);
      if !IsHot(risk) then
        None
      else
        var alternative := Alternative(before, gate, risk, forecasts);
        var arrival := if alternative.Some? then None else Some(now + 20 * 60 * 1000);
        Some(FanNudge((fan, gate, now), fan, gate, risk, alternative, arrival, now, None, QUEUED))
  }

  // ---------- The cooldown log ----------

  /** One write per nudge: its value is the nudge's own time, `at` the store's later reading. */
  type CooldownLog = seq<Write<CooldownKey, Time>>

  ghost predicate CooldownWrites(log: CooldownLog) {
    forall w | w in log :: w.ttl == 5 * MINUTE && w.value <= w.at
  }

  /** Any two nudges for the same fan and gate lie a cooldown apart, less the skew. */
  ghost predicate Spaced(log: CooldownLog, skew: nat) {
    forall i, j :: 0 <= i < j < |log| && log[i].key == log[j].key
        ==> log[j].value - log[i].value >= 5 * MINUTE - skew
  }

  /**
   A nudge that passed the check on a read at `readAt` keeps the spacing, whatever else was
   written between that read and its own write.
   */
  lemma SpacingStep(log: CooldownLog, skew: nat, key: CooldownKey, now: Time, readAt: Time, at: Time)
    requires CooldownWrites(log) && Ordered(log) && Spaced(log, skew)
    requires now <= at && readAt <= now + skew && Cooled(LiveAt(log, key, readAt), now)
    ensures CooldownWrites(log + [Write(key, now, at, 5 * MINUTE)])
    ensures Spaced(log + [Write(key, now, at, 5 * MINUTE)], skew)
  {
    LastWriteIsLatest(log, key);
    var last := LastWrite(log, key);
    forall i | 0 <= i < |log| && log[i].key == key ensures now - log[i].value >= 5 * MINUTE - skew {
      assert log[i] in log && log[i].at <= last.value.at;
      if readAt - last.value.at < last.value.ttl {
        LastWriteSpacing(log, skew, key, i);
      }
    }
  }

  /**
   Eviction against a cooldown map that never forgets: the decisions differ exactly when the
   store's clock has passed the entry's expiry while the handler's clock is still inside the
   cooldown. With one reading for both (`now == readAt` and `at == value`) they never do.
   */
  lemma {:induction false} EvictionDecides(log: CooldownLog, key: CooldownKey, now: Time, readAt: Time)
    requires CooldownWrites(log)
    ensures var last := LastWrite(log, key);
      var remembered := if last.Some? then Some(last.value.value) else None;
      (Cooled(LiveAt(log, key, readAt), now) <==> Cooled(remembered, now)) <==>
      (last.Some? ==> !(last.value.at + 5 * MINUTE <= readAt && now < last.value.value + 5 * MINUTE))
  {
    var n := |log| - 1;
    if log != [] && log[n].key != key {
      EvictionDecides(log[..n], key, now, readAt);
    }
  }

  lemma {:induction false} LastWriteSpacing(log: CooldownLog, skew: nat, key: CooldownKey, i: nat)
    requires Spaced(log, skew) && i < |log| && log[i].key == key
    ensures var last := LastWrite(log, key);
      last.Some? && (last.value == log[i] || last.value.value - log[i].value >= 5 * MINUTE - skew)
  {
    var n := |log| - 1;
    if log[n].key != key {
      assert forall k, j | 0 <= k < j < n :: log[..n][k] == log[k] && log[..n][j] == log[j];
      LastWriteSpacing(log[..n], skew, key, i);
    }
  }

  // ---------- One score update ----------

  /**
   What the service does for a list of fans: the log it leaves and the nudges it generates. The
   forecast map is live, so each fan is decided on the map of its own moment, `views[i]`.
   */
  function Notified(
      before: GateOrder, fans: seq<FanId>, gate: GateId, views: seq<Forecasts>, now: Time, readings: seq<Time>,
      log: CooldownLog)
      : (CooldownLog, seq<FanNudge>)
    requires StrictTotalOrder(before) && |views| == |fans| && |readings| == 2 * |fans|
  {
    if fans == [] then
      (log, [])
    else
      var n := |fans| - 1;
      var (sofar, nudges) := Notified(before, fans[..n], gate, views[..n], now, readings[..2 * n], log);
      var key := (fans[n], gate);
      match GenerateFanNudge(before, fans[n], gate, views[n], LiveAt(sofar, key, readings[2 * n]), now)
      case None => (sofar, nudges)
      case Some(nudge) => (sofar + [Write(key, now, readings[2 * n + 1], 5 * MINUTE)], nudges + [nudge])
  }

  lemma NotifiedNone(
      before: GateOrder, fans: seq<FanId>, gate: GateId, views: seq<Forecasts>, now: Time, readings: seq<Time>,
      log: CooldownLog)
    requires StrictTotalOrder(before) && |views| == |fans| && |readings| == 2 * |fans|
    ensures Notified(before, fans[..0], gate, views[..0], now, readings[..0], log) == (log, [])
  {
  }

  lemma NotifiedNext(
      before: GateOrder, fans: seq<FanId>, gate: GateId, views: seq<Forecasts>, now: Time, readings: seq<Time>,
      log: CooldownLog, i: nat)
    requires StrictTotalOrder(before) && |views| == |fans| && |readings| == 2 * |fans| && i < |fans|
    ensures var (sofar, nudges) := Notified(before, fans[..i], gate, views[..i], now, readings[..2 * i], log);
      var key := (fans[i], gate);
      var nudge := GenerateFanNudge(before, fans[i], gate, views[i], LiveAt(sofar, key, readings[2 * i]), now);
      Notified(before, fans[..i + 1], gate, views[..i + 1], now, readings[..2 * (i + 1)], log)
      == if nudge.None? then (sofar, nudges)
         else (sofar + [Write(key, now, readings[2 * i + 1], 5 * MINUTE)], nudges + [nudge.value])
  {
    assert fans[..i + 1][..i] == fans[..i] && views[..i + 1][..i] == views[..i]
        && readings[..2 * (i + 1)][..2 * i] == readings[..2 * i];
  }

  /** The store's clock readings during one update: monotone, and at most `skew` after `now`. */
  ghost predicate Readings(readings: seq<Time>, now: Time, skew: nat) {
    && (forall i | 0 <= i < |readings| :: now <= readings[i] <= now + skew)
    && (forall i, j :: 0 <= i < j < |readings| ==> readings[i] <= readings[j])
  }

  /** The two readings made for one fan. */
  lemma ReadingsAt(readings: seq<Time>, now: Time, skew: nat, i: nat)
    requires Readings(readings, now, skew) && 2 * i + 1 < |readings|
    ensures now <= readings[2 * i] <= readings[2 * i + 1] && readings[2 * i] <= now + skew
    ensures 2 * (i + 1) < |readings| ==> readings[2 * i + 1] <= readings[2 * (i + 1)]
  {
  }

  function Enqueued(queue: map<NudgeId, FanNudge>, nudges: seq<FanNudge>): map<NudgeId, FanNudge> {
    if nudges == [] then queue
    else Enqueued(queue, nudges[..|nudges| - 1])[nudges[|nudges| - 1].id := nudges[|nudges| - 1]]
  }

  /** With ids of their own, all the nudges are stored; what was stored under other ids stays. */
  lemma {:induction false} EnqueuedAll(queue: map<NudgeId, FanNudge>, nudges: seq<FanNudge>)
    requires forall i, j :: 0 <= i < j < |nudges| ==> nudges[i].id != nudges[j].id
    ensures var after := Enqueued(queue, nudges);
      && (forall n | n in nudges :: n.id in after && after[n.id] == n)
      && (forall id | forall n | n in nudges :: n.id != id ::
            (id in after <==> id in queue) && (id in queue ==> after[id] == queue[id]))
  {
    if nudges != [] {
      var n := |nudges| - 1;
      EnqueuedAll(queue, nudges[..n]);
      assert nudges == nudges[..n] + [nudges[n]];
    }
  }

  class FanNotificationService {
    const cooldowns: ExpiringStore<CooldownKey, Time>
    var queue: map<NudgeId, FanNudge>
    ghost const skew: nat

    ghost predicate Valid()
      reads this, cooldowns
    {
      cooldowns.Valid() && CooldownWrites(cooldowns.log) && Spaced(cooldowns.log, skew)
    }

    constructor (ghost now: Time, ghost skew: nat)
      ensures Valid() && fresh(cooldowns) && this.skew == skew
      ensures queue == map[] && cooldowns.log == [] && cooldowns.clock == now
    {
      this.skew := skew;
      queue := map[];
      cooldowns := new ExpiringStore(now);
    }

    /** One fan of the loop: read the cooldown, generate, and set the cooldown before storing the nudge. */
    method NotifyFan(before: GateOrder, fan: FanId, gate: GateId, view: Forecasts, now: Time, readAt: Time, at: Time)
      returns (nudge: Option<FanNudge>)
      requires Valid() && StrictTotalOrder(before)
      requires cooldowns.clock <= readAt <= at && now <= at && readAt <= now + skew
      modifies this, cooldowns
      ensures Valid() && cooldowns.clock <= at
      ensures nudge == GenerateFanNudge(before, fan, gate, view, LiveAt(old(cooldowns.log), (fan, gate), readAt), now)
      ensures cooldowns.log
           == if nudge.Some? then old(cooldowns.log) + [Write((fan, gate), now, at, 5 * MINUTE)]
              else old(cooldowns.log)
      ensures queue == if nudge.Some? then old(queue)[nudge.value.id := nudge.value] else old(queue)
    {
      hide StrictTotalOrder, Tracks, LiveAt, GenerateFanNudge, CooldownWrites, Spaced;
      var key := (fan, gate);
      var lastNudgeAt := cooldowns.GetIfNotExpired(key, readAt);
      nudge := GenerateFanNudge(before, fan, gate, view, lastNudgeAt, now);
      if nudge.Some? {
        TracksOrdered(cooldowns.entries, cooldowns.log, cooldowns.clock);
        SpacingStep(cooldowns.log, skew, key, now, readAt, at);
        cooldowns.Put(key, now, at, COOLDOWN_PERIOD_MS);
        queue := queue[nudge.value.id := nudge.value];
      }
    }

    /** Checks and sets the cooldown per fan, whatever duplicates the list of fans holds. */
    method OnScoreUpdate(
        before: GateOrder, fans: seq<FanId>, gate: GateId, views: seq<Forecasts>, now: Time, readings: seq<Time>)
      returns (generated: seq<FanNudge>)
      requires Valid() && StrictTotalOrder(before)
      requires |views| == |fans| && |readings| == 2 * |fans| && Readings(readings, now, skew)
      requires readings != [] ==> cooldowns.clock <= readings[0]
      modifies this, cooldowns
      ensures Valid()
      ensures (cooldowns.log, generated) == Notified(before, fans, gate, views, now, readings, old(cooldowns.log))
      ensures queue == Enqueued(old(queue), generated)
    {
      hide StrictTotalOrder, Notified, LiveAt, GenerateFanNudge, Readings, CooldownWrites, Spaced;
      NotifiedNone(before, fans, gate, views, now, readings, cooldowns.log);
      generated := [];
      for i := 0 to |fans|
        invariant Valid()
        invariant i < |fans| ==> cooldowns.clock <= readings[2 * i]
        invariant (cooldowns.log, generated)
               == Notified(before, fans[..i], gate, views[..i], now, readings[..2 * i], old(cooldowns.log))
        invariant queue == Enqueued(old(queue), generated)
      {
        NotifiedNext(before, fans, gate, views, now, readings, old(cooldowns.log), i);
        ReadingsAt(readings, now, skew, i);
        var nudge := NotifyFan(before, fans[i], gate, views[i], now, readings[2 * i], readings[2 * i + 1]);
        if nudge.Some? {
          generated := generated + [nudge.value];
          assert generated[..|generated| - 1] + [nudge.value] == generated;
        }
      }
      assert fans[..|fans|] == fans && views[..|views|] == views && readings[..2 * |fans|] == readings;
    }
  }

  // ---------- Whole runs of updates ----------

  datatype Update = Update(fans: seq<FanId>, gate: GateId, views: seq<Forecasts>, now: Time, readings: seq<Time>)

  ghost predicate Timely(updates: seq<Update>, skew: nat) {
    && (forall u | u in updates ::
          |u.views| == |u.fans| && |u.readings| == 2 * |u.fans| && Readings(u.readings, u.now, skew))
    && (forall i, j :: 0 <= i < j < |updates| ==> updates[i].now <= updates[j].now)
    && (forall i, j, r, t :: 0 <= i < j < |updates| && r in updates[i].readings && t in updates[j].readings ==> r <= t)
  }

  function AfterUpdates(before: GateOrder, updates: seq<Update>): (CooldownLog, seq<FanNudge>)
    requires StrictTotalOrder(before)
    requires forall u | u in updates :: |u.views| == |u.fans| && |u.readings| == 2 * |u.fans|
  {
    if updates == [] then
      ([], [])
    else
      var n := |updates| - 1;
      var u := updates[n];
      var (log, nudges) := AfterUpdates(before, updates[..n]);
      var (log', more) := Notified(before, u.fans, u.gate, u.views, u.now, u.readings, log);
      (log', nudges + more)
  }

  /** What a run keeps: a well-formed, spaced log whose k-th write belongs to the k-th nudge. */
  ghost predicate LogKept(log: CooldownLog, nudges: seq<FanNudge>, skew: nat) {
    && CooldownWrites(log) && Ordered(log) && Spaced(log, skew)
    && |log| == |nudges|
    && forall i | 0 <= i < |log| :: nudges[i].id == (log[i].key.0, log[i].key.1, log[i].value)
  }

  lemma {:induction false} NotifiedKeeps(
      before: GateOrder, fans: seq<FanId>, gate: GateId, views: seq<Forecasts>, now: Time, readings: seq<Time>,
      log: CooldownLog, nudges: seq<FanNudge>, skew: nat)
    requires StrictTotalOrder(before) && |views| == |fans| && |readings| == 2 * |fans| && Readings(readings, now, skew)
    requires LogKept(log, nudges, skew)
    requires forall i, k :: 0 <= i < |log| && 0 <= k < |readings| ==> log[i].at <= readings[k]
    ensures var (log', more) := Notified(before, fans, gate, views, now, readings, log);
      && LogKept(log', nudges + more, skew) && |log| <= |log'| && log'[..|log|] == log
      && forall i | |log| <= i < |log'| :: log'[i].at in readings
  {
    hide StrictTotalOrder, Notified, LiveAt, GenerateFanNudge;
    if fans == [] {
      assert fans == fans[..0] && views == views[..0] && readings == readings[..0];
      NotifiedNone(before, fans, gate, views, now, readings, log);
      assert nudges + [] == nudges;
    } else {
      var n := |fans| - 1;
      assert fans == fans[..n + 1] && views == views[..n + 1] && readings == readings[..2 * (n + 1)];
      NotifiedNext(before, fans, gate, views, now, readings, log, n);
      NotifiedKeeps(before, fans[..n], gate, views[..n], now, readings[..2 * n], log, nudges, skew);
      var (sofar, more) := Notified(before, fans[..n], gate, views[..n], now, readings[..2 * n], log);
      var key, readAt, at := (fans[n], gate), readings[2 * n], readings[2 * n + 1];
      assert readAt in readings && at in readings;
      var nudge := GenerateFanNudge(before, fans[n], gate, views[n], LiveAt(sofar, key, readAt), now);
      if nudge.Some? {
        SpacingStep(sofar, skew, key, now, readAt, at);
        assert nudges + (more + [nudge.value]) == nudges + more + [nudge.value];
      }
    }
  }

  /** Every reading of the updates is at most `bound`. */
  ghost predicate ReadBy(updates: seq<Update>, bound: Time) {
    forall u, r :: u in updates && r in u.readings ==> r <= bound
  }

  lemma {:induction false} RunKeepsLog(before: GateOrder, updates: seq<Update>, skew: nat, bound: Time)
    requires StrictTotalOrder(before) && Timely(updates, skew)
    ensures LogKept(AfterUpdates(before, updates).0, AfterUpdates(before, updates).1, skew)
    ensures ReadBy(updates, bound) ==> forall w | w in AfterUpdates(before, updates).0 :: w.at <= bound
  {
    hide Notified, LogKept;
    if updates == [] {
      EmptyLogKept(skew);
    } else {
      var n := |updates| - 1;
      var u := updates[n];
      var limit := if u.readings == [] then bound else u.readings[0];
      TimelyPrefix(updates, skew);
      RunKeepsLog(before, updates[..n], skew, limit);
      var (log, nudges) := AfterUpdates(before, updates[..n]);
      NotifiedKeeps(before, u.fans, u.gate, u.views, u.now, u.readings, log, nudges, skew);
      var (log', more) := Notified(before, u.fans, u.gate, u.views, u.now, u.readings, log);
      if ReadBy(updates, bound) {
        assert u in updates;
        assert ReadBy(updates[..n], bound);
        RunKeepsLog(before, updates[..n], skew, bound);
        forall w | w in log' ensures w.at <= bound {
          var i :| 0 <= i < |log'| && log'[i] == w;
          if i < |log| {
            assert log'[..|log|][i] == w;
            assert w in log;
          }
        }
      }
    }
  }

  lemma EmptyLogKept(skew: nat)
    ensures LogKept([], [], skew)
  {
  }

  lemma TimelyPrefix(updates: seq<Update>, skew: nat)
    requires Timely(updates, skew) && updates != []
    ensures var n := |updates| - 1; var u := updates[n];
      && Timely(updates[..n], skew) && u in updates
      && (u.readings != [] ==> ReadBy(updates[..n], u.readings[0]))
  {
    var n := |updates| - 1;
    if updates[n].readings != [] {
      assert updates[n].readings[0] in updates[n].readings;
    }
    forall i, j, r, t | 0 <= i < j < n && r in updates[..n][i].readings && t in updates[..n][j].readings
        ensures r <= t {
      assert updates[..n][i] == updates[i] && updates[..n][j] == updates[j];
    }
  }

  predicate SameTarget(a: FanNudge, b: FanNudge) {
    a.id.0 == b.id.0 && a.id.1 == b.id.1
  }

  /** Any two nudges for one fan and gate lie at least `gap` apart. */
  ghost predicate Gapped(nudges: seq<FanNudge>, gap: int) {
    forall i, j :: 0 <= i < j < |nudges| && SameTarget(nudges[i], nudges[j]) ==> nudges[j].id.2 - nudges[i].id.2 >= gap
  }

  /**
   Cooldown over every run of serial updates: two nudges for one fan and gate lie at least
   5 minutes apart, less the skew, whether they come from one update or from two. Their ids
   are therefore different as long as the skew stays below the cooldown.
   */
  lemma CooldownOverRuns(before: GateOrder, updates: seq<Update>, skew: nat)
    requires StrictTotalOrder(before) && Timely(updates, skew)
    ensures var nudges := AfterUpdates(before, updates).1;
      && Gapped(nudges, 5 * MINUTE - skew)
      && (skew < 5 * MINUTE ==> forall i, j :: 0 <= i < j < |nudges| ==> nudges[i].id != nudges[j].id)
  {
    hide AfterUpdates;
    RunKeepsLog(before, updates, skew, 0);
    var (log, nudges) := AfterUpdates(before, updates);
    forall i, j | 0 <= i < j < |nudges| && SameTarget(nudges[i], nudges[j])
      ensures nudges[j].id.2 - nudges[i].id.2 >= 5 * MINUTE - skew
    {
      assert log[i].key == log[j].key;
    }
  }

  ghost predicate Spread(times: seq<Time>, gap: int) {
    forall i, j :: 0 <= i < j < |times| ==> times[j] - times[i] >= gap
  }

  /** The times of the nudges for one fan and gate that fall into [start, start + span]. */
  function TimesWithin(nudges: seq<FanNudge>, fan: FanId, gate: GateId, start: Time, span: nat): seq<Time> {
    if nudges == [] then
      []
    else
      var n := |nudges| - 1;
      var id := nudges[n].id;
      TimesWithin(nudges[..n], fan, gate, start, span)
      + if id.0 == fan && id.1 == gate && start <= id.2 <= start + span then [id.2] else []
  }

  /** At most floor(span / (5 min - skew)) + 1 nudges for one fan and gate in any span of time. */
  lemma NudgesPerSpan(
      before: GateOrder, updates: seq<Update>, skew: nat, fan: FanId, gate: GateId, start: Time, span: nat)
    requires StrictTotalOrder(before) && Timely(updates, skew) && skew < 5 * MINUTE
    ensures |TimesWithin(AfterUpdates(before, updates).1, fan, gate, start, span)|
         <= span / (5 * MINUTE - skew) + 1
  {
    CooldownOverRuns(before, updates, skew);
    CountWithin(AfterUpdates(before, updates).1, fan, gate, start, span, 5 * MINUTE - skew);
  }

  lemma CountWithin(nudges: seq<FanNudge>, fan: FanId, gate: GateId, start: Time, span: nat, gap: int)
    requires Gapped(nudges, gap) && gap > 0
    ensures |TimesWithin(nudges, fan, gate, start, span)| <= span / gap + 1
  {
    TimesAreGapped(nudges, fan, gate, start, span, gap);
    var times := TimesWithin(nudges, fan, gate, start, span);
    if |times| > 0 {
      GapsAddUp(times, gap, |times| - 1);
      assert times[|times| - 1] in times && times[0] in times;
      DivideBound(|times| - 1, gap, span);
    }
  }

  lemma {:induction false} TimesAreGapped(
      nudges: seq<FanNudge>, fan: FanId, gate: GateId, start: Time, span: nat, gap: int)
    requires Gapped(nudges, gap)
    ensures var times := TimesWithin(nudges, fan, gate, start, span);
      && (forall t | t in times :: start <= t <= start + span)
      && (forall t | t in times :: exists i :: 0 <= i < |nudges| && nudges[i].id == (fan, gate, t))
      && Spread(times, gap)
  {
    if nudges != [] {
      var n := |nudges| - 1;
      TimesAreGapped(nudges[..n], fan, gate, start, span, gap);
      var times, id := TimesWithin(nudges[..n], fan, gate, start, span), nudges[n].id;
      forall t | t in times ensures exists i :: 0 <= i < n && nudges[i].id == (fan, gate, t) {
        var i :| 0 <= i < n && nudges[..n][i].id == (fan, gate, t);
        assert nudges[i].id == (fan, gate, t);
      }
      if id.0 == fan && id.1 == gate && start <= id.2 <= start + span {
        forall k | 0 <= k < |times| ensures id.2 - times[k] >= gap {
          var i :| 0 <= i < n && nudges[i].id == (fan, gate, times[k]);
          assert SameTarget(nudges[i], nudges[n]);
        }
        assert nudges[n].id == (fan, gate, id.2);
      }
    }
  }

  lemma {:induction false} GapsAddUp(times: seq<Time>, gap: nat, k: nat)
    requires k < |times|
    requires Spread(times, gap)
    ensures times[k] - times[0] >= k * gap
  {
    if k > 0 {
      GapsAddUp(times, gap, k - 1);
      assert k * gap == (k - 1) * gap + gap;
      assert times[k] - times[k - 1] >= gap;
    }
  }

  lemma DivideBound(k: nat, gap: int, span: nat)
    requires gap > 0 && k * gap <= span
    ensures k <= span / gap
  {
    var q, r := span / gap, span % gap;
    assert span == q * gap + r;
    assert (k - q - 1) * gap == k * gap - q * gap - gap < 0;
  }

  /** Two updates of one fan's gate, the second as early as the skew lets it pass the cooldown. */
  function TightRun(fan: FanId, gate: GateId, forecasts: Forecasts, skew: nat): seq<Update> {
    var lag := if skew < 5 * MINUTE then skew else 5 * MINUTE;
    [Update([fan], gate, [forecasts], 0, [0, 0]),
     Update([fan], gate, [forecasts], 5 * MINUTE - lag, [5 * MINUTE, 5 * MINUTE])]
  }

  /**
   The skew term cannot be dropped: when a store reading comes late, two nudges for one fan and
   gate do come out exactly 5 minutes less the skew apart, or at the same instant when the skew
   reaches 5 minutes.
   */
  lemma SkewBoundTight(before: GateOrder, fan: FanId, gate: GateId, forecasts: Forecasts, skew: nat)
    requires StrictTotalOrder(before) && IsHot(GateRisk(forecasts, gate))
    ensures var updates := TightRun(fan, gate, forecasts, skew);
      && Timely(updates, skew)
      && var nudges := AfterUpdates(before, updates).1;
         && |nudges| == 2 && nudges[0].id == (fan, gate, 0)
         && nudges[1].id == (fan, gate, if skew < 5 * MINUTE then 5 * MINUTE - skew else 0)
  {
    var u, v := TightRun(fan, gate, forecasts, skew)[0], TightRun(fan, gate, forecasts, skew)[1];
    var key := (fan, gate);
    var write := Write(key, 0, 0, 5 * MINUTE);
    assert [u][..0] == [] && [u, v][..1] == [u];
    NotifyOne(before, fan, gate, forecasts, 0, 0, []);
    var (log, one) := Notified(before, [fan], gate, [forecasts], 0, [0, 0], []);
    assert [] + [write] == [write] && [] + one == one;
    assert AfterUpdates(before, []) == ([], []);
    assert AfterUpdates(before, [u]) == Notified(before, [fan], gate, [forecasts], 0, [0, 0], []);
    assert [write][..0] == [] && LiveAt([write], key, 5 * MINUTE) == None;
    NotifyOne(before, fan, gate, forecasts, v.now, 5 * MINUTE, [write]);
  }

  /**
   So the full 5 minutes hold over every run exactly when a handler's store reads always come at
   the very instant of its own clock reading.
   */
  lemma FullCooldownIffNoSkew(before: GateOrder, fan: FanId, gate: GateId, forecasts: Forecasts, skew: nat)
    requires StrictTotalOrder(before) && IsHot(GateRisk(forecasts, gate))
    ensures (forall updates :: Timely(updates, skew) ==> Gapped(AfterUpdates(before, updates).1, 5 * MINUTE))
        <==> skew == 0
  {
    hide AfterUpdates;
    if skew == 0 {
      forall updates | Timely(updates, skew) ensures Gapped(AfterUpdates(before, updates).1, 5 * MINUTE) {
        CooldownOverRuns(before, updates, skew);
      }
    } else {
      SkewBoundTight(before, fan, gate, forecasts, skew);
      var updates := TightRun(fan, gate, forecasts, skew);
      var nudges := AfterUpdates(before, updates).1;
      assert SameTarget(nudges[0], nudges[1]);
      assert Timely(updates, skew) && !Gapped(nudges, 5 * MINUTE);
    }
  }

  /** No two nudges of a list share an id. */
  ghost predicate IdsDistinct(nudges: seq<FanNudge>) {
    forall i, j :: 0 <= i < j < |nudges| ==> nudges[i].id != nudges[j].id
  }

  /** And nudge ids are distinct over every run exactly when the skew stays below the cooldown. */
  lemma DistinctIdsIffSkewBelowCooldown(before: GateOrder, fan: FanId, gate: GateId, forecasts: Forecasts, skew: nat)
    requires StrictTotalOrder(before) && IsHot(GateRisk(forecasts, gate))
    ensures (forall updates :: Timely(updates, skew) ==> IdsDistinct(AfterUpdates(before, updates).1))
        <==> skew < 5 * MINUTE
  {
    hide AfterUpdates;
    if skew < 5 * MINUTE {
      forall updates | Timely(updates, skew) ensures IdsDistinct(AfterUpdates(before, updates).1) {
        CooldownOverRuns(before, updates, skew);
      }
    } else {
      SkewBoundTight(before, fan, gate, forecasts, skew);
      var updates := TightRun(fan, gate, forecasts, skew);
      assert Timely(updates, skew) && !IdsDistinct(AfterUpdates(before, updates).1);
    }
  }

  lemma NotifyOne(
      before: GateOrder, fan: FanId, gate: GateId, forecasts: Forecasts, now: Time, at: Time, log: CooldownLog)
    requires StrictTotalOrder(before) && IsHot(GateRisk(forecasts, gate)) && LiveAt(log, (fan, gate), at) == None
    ensures var (log', nudges) := Notified(before, [fan], gate, [forecasts], now, [at, at], log);
      && log' == log + [Write((fan, gate), now, at, 5 * MINUTE)]
      && |nudges| == 1 && nudges[0].id == (fan, gate, now)
  {
    assert [fan][..0] == [] && [fan][..1] == [fan] && [at, at][..0] == [] && [at, at][..2] == [at, at];
    assert [forecasts][..0] == [] && [forecasts][..1] == [forecasts];
    NotifiedNone(before, [fan], gate, [forecasts], now, [at, at], log);
    NotifiedNext(before, [fan], gate, [forecasts], now, [at, at], log, 0);
  }
}
