/**
 Shuttle redirections (src/shuttle-redirection-advisor/redirections.ts, api.ts and
 suppression.ts, with the stores and the rejection list of src/server.ts).

 Explanation text is left out; the score and risk it quotes are kept as fields.
 */
module Redirecting {
  import opened Domain
  import opened Filtering
  import opened Forecasting
  import opened Selection
  import opened Expiry

  const REJECTION_SUPPRESSION_MS: int := 5 * 60 * 1000

  datatype Status = PENDING | ACCEPTED | REJECTED
  type RedirectionId = (RouteId, GateId, Time)

  datatype Redirection = Redirection(
    id: RedirectionId,
    routeId: RouteId,
    originGateId: GateId,
    alternativeGateId: GateId,
    originScore: int,
    originRisk: RiskLevel,
    generatedAt: Time,
    status: Status,
    accepted: Option<(Time, UserId)>,
    rejected: Option<(Time, UserId)>)

  datatype RejectionRecord = RejectionRecord(routeId: RouteId, alternativeGateId: GateId, rejectedAt: Time)

  // ---------- Suppression ----------

  predicate Suppresses(r: RejectionRecord, route: RouteId, alternative: GateId, now: Time) {
    r.routeId == route && r.alternativeGateId == alternative && now - r.rejectedAt < REJECTION_SUPPRESSION_MS
  }

  predicate IsSuppressed(route: RouteId, alternative: GateId, rejections: seq<RejectionRecord>, now: Time) {
    exists r | r in rejections :: Suppresses(r, route, alternative, now)
  }

  /** `getRecentRejections`, read at `now`. */
  function RecentRejections(log: seq<RejectionRecord>, now: Time): seq<RejectionRecord> {
    if log == [] then
      []
    else
      var n := |log| - 1;
      RecentRejections(log[..n], now) + if log[n].rejectedAt >= now - REJECTION_SUPPRESSION_MS then [log[n]] else []
  }

  lemma {:induction false} RecentRejectionsMembers(log: seq<RejectionRecord>, now: Time)
    ensures forall r :: r in RecentRejections(log, now) <==> r in log && r.rejectedAt >= now - 5 * MINUTE
  {
    if log != [] {
      var n := |log| - 1;
      assert log == log[..n] + [log[n]];
      RecentRejectionsMembers(log[..n], now);
    }
  }

  lemma {:induction false} RecentRejectionsPicks(log: seq<RejectionRecord>, now: Time)
    ensures Picks(RecentRejections(log, now), log, (r: RejectionRecord) => now - r.rejectedAt <= 5 * MINUTE)
  {
    hide Picks;
    var keep := (r: RejectionRecord) => now - r.rejectedAt <= 5 * MINUTE;
    if log == [] {
      PicksNone(keep);
    } else {
      var n := |log| - 1;
      RecentRejectionsPicks(log[..n], now);
      PicksOneMore(RecentRejections(log[..n], now), log[..n], keep, log[n]);
      assert log == log[..n] + [log[n]];
      assert RecentRejections(log[..n], now) + [] == RecentRejections(log[..n], now);
    }
  }

  type RejectionWrites = seq<Write<(RouteId, GateId), string>>

  /**
   The rejection list and the TTL log record the same rejections, one for one and in order. The
   TTL write reads the store's clock itself, so it may carry a later time than the record.
   */
  ghost predicate Parallel(records: seq<RejectionRecord>, writes: RejectionWrites) {
    && |records| == |writes| && Ordered(writes)
    && (forall i | 0 <= i < |records| ::
          && writes[i].key == (records[i].routeId, records[i].alternativeGateId)
          && writes[i].ttl == 5 * MINUTE
          && records[i].rejectedAt <= writes[i].at)
    && (forall i, j :: 0 <= i < j < |records| ==> records[i].rejectedAt <= records[j].rejectedAt)
  }

  lemma {:induction false} ParallelGrows(records: seq<RejectionRecord>, writes: RejectionWrites, r: RejectionRecord,
      storedAt: Time)
    requires Parallel(records, writes) && r.rejectedAt <= storedAt
    requires forall e | e in records :: e.rejectedAt <= r.rejectedAt
    requires forall w | w in writes :: w.at <= r.rejectedAt
    ensures Parallel(records + [r],
                     writes + [Write((r.routeId, r.alternativeGateId), "1", storedAt, 5 * MINUTE)])
  {
  }

  /** Every rejection took one clock reading for both. */
  ghost predicate OneReading(records: seq<RejectionRecord>, writes: RejectionWrites) {
    |records| == |writes| && forall i | 0 <= i < |records| :: writes[i].at == records[i].rejectedAt
  }

  /**
   Under one clock reading, scanning the whole rejection log, scanning the pre-filtered list and
   asking the TTL key give the same answer for every route and gate.
   */
  lemma SuppressionFormsAgree(
      records: seq<RejectionRecord>, writes: RejectionWrites, route: RouteId, alternative: GateId, now: Time)
    requires Parallel(records, writes) && OneReading(records, writes)
    ensures IsSuppressed(route, alternative, records, now) <==> LiveAt(writes, (route, alternative), now).Some?
    ensures IsSuppressed(route, alternative, records, now)
       <==> IsSuppressed(route, alternative, RecentRejections(records, now), now)
  {
    RecentRejectionsMembers(records, now);
    LiveIffRecentWrite(writes, (route, alternative), 5 * MINUTE, now);
    if IsSuppressed(route, alternative, records, now) {
      var i :| 0 <= i < |records| && Suppresses(records[i], route, alternative, now);
      assert writes[i] in writes;
      assert records[i] in RecentRejections(records, now);
    }
    if LiveAt(writes, (route, alternative), now).Some? {
      var w :| w in writes && w.key == (route, alternative) && now - w.at < 5 * MINUTE;
      var i :| 0 <= i < |writes| && writes[i] == w;
      assert records[i] in records;
    }
  }

  /** The index of the last rejection of a pair; the length when there is none. */
  function LastIndex(records: seq<RejectionRecord>, route: RouteId, alternative: GateId): (k: nat)
    ensures k <= |records|
    ensures k < |records| ==> records[k].routeId == route && records[k].alternativeGateId == alternative
    ensures forall i | 0 <= i < |records| && (k < i || k == |records|) ::
      !(records[i].routeId == route && records[i].alternativeGateId == alternative)
  {
    if records == [] then 0
    else
      var n := |records| - 1;
      if records[n].routeId == route && records[n].alternativeGateId == alternative then n
      else
        var k := LastIndex(records[..n], route, alternative);
        if k == n then n + 1 else k
  }

  lemma {:induction false} LastWriteAtIndex(
      records: seq<RejectionRecord>, writes: RejectionWrites, route: RouteId, alternative: GateId)
    requires Parallel(records, writes)
    ensures var k := LastIndex(records, route, alternative);
      LastWrite(writes, (route, alternative)) == if k == |records| then None else Some(writes[k])
  {
    if records != [] {
      var n := |records| - 1;
      LastWriteAtIndex(records[..n], writes[..n], route, alternative);
    }
  }

  /**
   With two clock readings per rejection, the TTL key and the list agree except exactly while the
   pair's last rejection has run out by the record's time but not yet by the TTL write's.
   */
  lemma {:induction false} TtlAgreesUnlessLagging(
      records: seq<RejectionRecord>, writes: RejectionWrites, route: RouteId, alternative: GateId, now: Time)
    requires Parallel(records, writes)
    ensures var k := LastIndex(records, route, alternative);
      (IsSuppressed(route, alternative, records, now) <==> LiveAt(writes, (route, alternative), now).Some?) <==>
      (k < |records| ==>
         !(records[k].rejectedAt + 5 * MINUTE <= now < writes[k].at + 5 * MINUTE))
  {
    hide LastIndex, LastWrite;
    LastWriteAtIndex(records, writes, route, alternative);
    var k := LastIndex(records, route, alternative);
    if k < |records| {
      assert IsSuppressed(route, alternative, records, now)
          <==> now < records[k].rejectedAt + 5 * MINUTE by {
        assert records[k] in records;
      }
    }
  }

  /** The time of the latest rejection of a pair. */
  function LatestRejection(records: seq<RejectionRecord>, route: RouteId, alternative: GateId): (latest: Option<Time>)
    ensures latest.None? <==> forall r | r in records :: !(r.routeId == route && r.alternativeGateId == alternative)
    ensures latest.Some? ==> RejectionRecord(route, alternative, latest.value) in records
    ensures latest.Some? ==>
      forall r | r in records && r.routeId == route && r.alternativeGateId == alternative ::
          r.rejectedAt <= latest.value
  {
    if records == [] then
      None
    else
      var n := |records| - 1;
      assert records == records[..n] + [records[n]];
      var earlier := LatestRejection(records[..n], route, alternative);
      var last := records[n];
      if last.routeId == route && last.alternativeGateId == alternative
         && (earlier.None? || earlier.value < last.rejectedAt) then Some(last.rejectedAt) else earlier
  }

  /**
   The score handler takes `now` at its start and `getRecentRejections` reads the clock again
   later. With two readings the pre-filtered scan still agrees with the full scan, except
   exactly when the latest rejection's suppression ends strictly between the readings.
   */
  lemma PrefilterAgreesUnlessExpiringBetween(
      records: seq<RejectionRecord>, route: RouteId, alternative: GateId, now: Time, readAt: Time)
    requires now <= readAt
    ensures (IsSuppressed(route, alternative, RecentRejections(records, readAt), now) <==>
               IsSuppressed(route, alternative, records, now))
       <==> var latest := LatestRejection(records, route, alternative);
            latest.Some? ==> !(now < latest.value + 5 * MINUTE < readAt)
  {
    RecentRejectionsMembers(records, readAt);
    var latest := LatestRejection(records, route, alternative);
    if latest.Some? {
      var last := RejectionRecord(route, alternative, latest.value);
      assert Suppresses(last, route, alternative, now) <==> now < latest.value + 5 * MINUTE;
      assert last in RecentRejections(records, readAt) <==> latest.value + 5 * MINUTE >= readAt;
    }
  }

  // ---------- Generation ----------

  function RedirectionFor(
      gate: Gate, score: int, risk: RiskLevel, alternative: GateId, route: RouteId, now: Time): Redirection {
    Redirection((route, gate.gateId, now), route, gate.gateId, alternative, score, risk, now, PENDING, None, None)
  }

  /** The routes, in order, that a redirection to `alternative` is produced for. */
  function OpenRoutes(
      gate: Gate, alternative: GateId, routes: seq<RouteId>, rejections: seq<RejectionRecord>, now: Time)
      : seq<RouteId>
  {
    if routes == [] then
      []
    else
      var n := |routes| - 1;
      OpenRoutes(gate, alternative, routes[..n], rejections, now)
      + if routes[n] in gate.assignedRouteIds && !IsSuppressed(routes[n], alternative, rejections, now) then
          [routes[n]]
        else
          []
  }

  /** What `generateRedirections` answers; a route enters only through its id. */
  function Redirections(
      before: GateOrder, gate: Gate, forecasts: Forecasts, routes: seq<RouteId>, rejections: seq<RejectionRecord>,
      now: Time)
      : seq<Redirection>
    requires StrictTotalOrder(before)
  {
    var risk := GateRisk(forecasts, gate.gateId);
    var alternative := Alternative(before, gate.gateId, risk, forecasts);
    if !IsHot(risk) || alternative.None? then
      []
    else
      var open := OpenRoutes(gate, alternative.value, routes, rejections, now);
      seq(|open|, i requires 0 <= i < |open| =>
        RedirectionFor(gate, GateScore(forecasts, gate.gateId), risk, alternative.value, open[i], now))
  }

  /** No listed rejection of the pair is younger than 5 minutes. */
  predicate Clear(route: RouteId, alternative: GateId, rejections: seq<RejectionRecord>, now: Time) {
    forall j | j in rejections && j.routeId == route && j.alternativeGateId == alternative ::
      now - j.rejectedAt >= 5 * MINUTE
  }

  /** The redirection of one route of a gate to an alternative, as of `now`. */
  predicate IsAdvice(
      r: Redirection, gate: Gate, forecasts: Forecasts, alternative: GateId, route: RouteId, now: Time) {
    && r.routeId == route && r.originGateId == gate.gateId && r.alternativeGateId == alternative
    && r.generatedAt == now && r.id == (route, gate.gateId, now)
    && r.originScore == GateScore(forecasts, gate.gateId) && r.originRisk == GateRisk(forecasts, gate.gateId)
    && r.status == PENDING && r.accepted == None && r.rejected == None
  }

  /**
   The whole advice for a gate: nothing unless it is High or Critical and there is an alternative;
   then one redirection for every route that is assigned to it and clear, in the order of the routes.
   */
  ghost predicate FullAdvice(
      rs: seq<Redirection>, before: GateOrder, gate: Gate, forecasts: Forecasts, routes: seq<RouteId>,
      rejections: seq<RejectionRecord>, now: Time)
    requires StrictTotalOrder(before)
  {
    var risk := GateRisk(forecasts, gate.gateId);
    var alternative := Alternative(before, gate.gateId, risk, forecasts);
    if !IsHot(risk) || alternative.None? then
      rs == []
    else
      exists open :: OpenFor(open, gate, alternative.value, routes, rejections, now) && |rs| == |open|
        && forall i | 0 <= i < |open| :: IsAdvice(rs[i], gate, forecasts, alternative.value, open[i], now)
  }

  ghost predicate OpenFor(
      open: seq<RouteId>, gate: Gate, alternative: GateId, routes: seq<RouteId>, rejections: seq<RejectionRecord>,
      now: Time)
  {
    Picks(open, routes, (r: RouteId) => r in gate.assignedRouteIds && Clear(r, alternative, rejections, now))
  }

  lemma {:induction false} OpenRoutesPicks(
      gate: Gate, alternative: GateId, routes: seq<RouteId>, rejections: seq<RejectionRecord>, now: Time)
    ensures OpenFor(OpenRoutes(gate, alternative, routes, rejections, now), gate, alternative, routes, rejections, now)
  {
    hide Picks, Clear, IsSuppressed;
    var keep := (r: RouteId) => r in gate.assignedRouteIds && Clear(r, alternative, rejections, now);
    if routes == [] {
      PicksNone(keep);
    } else {
      var n := |routes| - 1;
      var open := OpenRoutes(gate, alternative, routes[..n], rejections, now);
      OpenRoutesPicks(gate, alternative, routes[..n], rejections, now);
      PicksOneMore(open, routes[..n], keep, routes[n]);
      ClearIsUnsuppressed(routes[n], alternative, rejections, now);
      assert routes == routes[..n] + [routes[n]];
      assert open + [] == open;
    }
  }

  lemma ClearIsUnsuppressed(route: RouteId, alternative: GateId, rejections: seq<RejectionRecord>, now: Time)
    ensures Clear(route, alternative, rejections, now) <==> !IsSuppressed(route, alternative, rejections, now)
  {
  }

  lemma RedirectionsAdvise(
      before: GateOrder, gate: Gate, forecasts: Forecasts, routes: seq<RouteId>, rejections: seq<RejectionRecord>,
      now: Time)
    requires StrictTotalOrder(before)
    ensures FullAdvice(
              Redirections(before, gate, forecasts, routes, rejections, now), before, gate, forecasts, routes,
                rejections,
              now)
  {
    hide StrictTotalOrder, Alternative, OpenFor, OpenRoutes;
    var alternative := Alternative(before, gate.gateId, GateRisk(forecasts, gate.gateId), forecasts);
    if alternative.Some? {
      OpenRoutesPicks(gate, alternative.value, routes, rejections, now);
    }
  }

  method GenerateRedirections(
      before: GateOrder, gate: Gate, forecasts: Forecasts, routes: seq<RouteId>, rejections: seq<RejectionRecord>,
      now: Time)
    returns (recommendations: seq<Redirection>)
    requires StrictTotalOrder(before)
    ensures recommendations == Redirections(before, gate, forecasts, routes, rejections, now)
    ensures FullAdvice(recommendations, before, gate, forecasts, routes, rejections, now)
  {
    hide FullAdvice;
    RedirectionsAdvise(before, gate, forecasts, routes, rejections, now);
    var risk := GateRisk(forecasts, gate.gateId);
    var score := GateScore(forecasts, gate.gateId);
    recommendations := [];
    if !IsHot(risk) {
      return;
    }
    ghost var chosen := Alternative(before, gate.gateId, risk, forecasts);
    ghost var open: seq<RouteId> := [];
    for i := 0 to |routes|
      invariant |recommendations| == |open|
      invariant chosen.None? ==> open == []
      invariant chosen.Some? ==> open == OpenRoutes(gate, chosen.value, routes[..i], rejections, now)
      invariant chosen.Some? ==> forall k | 0 <= k < |open| ::
        recommendations[k] == RedirectionFor(gate, score, risk, chosen.value, open[k], now)
    {
      assert routes[..i + 1][..i] == routes[..i];
      if routes[i] !in gate.assignedRouteIds {
        continue;
      }
      var alternative := PickAlternativeGate(before, gate.gateId, risk, forecasts);
      if alternative.None? {
        continue;
      }
      if IsSuppressed(routes[i], alternative.value, rejections, now) {
        continue;
      }
      recommendations := recommendations + [RedirectionFor(gate, score, risk, alternative.value, routes[i], now)];
      open := open + [routes[i]];
    }
    assert routes[..|routes|] == routes;
  }

  lemma {:induction false} OpenRoutesMembers(
      gate: Gate, alternative: GateId, routes: seq<RouteId>, rejections: seq<RejectionRecord>, now: Time)
    ensures forall r :: r in OpenRoutes(gate, alternative, routes, rejections, now) <==>
                    (r in routes && r in gate.assignedRouteIds && !IsSuppressed(r, alternative, rejections, now))
  {
    if routes != [] {
      var n := |routes| - 1;
      assert routes == routes[..n] + [routes[n]];
      OpenRoutesMembers(gate, alternative, routes[..n], rejections, now);
    }
  }

  /**
   A (route, gate) pair is recommended exactly when the origin is High or Critical, the route is
   assigned to it, the gate is the selected alternative, and the pair is not suppressed. What is
   recommended always has strictly lower risk than the origin.
   */
  lemma RecommendedExactly(
      before: GateOrder, gate: Gate, forecasts: Forecasts, routes: seq<RouteId>, rejections: seq<RejectionRecord>,
      now: Time, route: RouteId, alternative: GateId)
    requires StrictTotalOrder(before)
    ensures var risk := GateRisk(forecasts, gate.gateId);
      (exists r :: r in Redirections(before, gate, forecasts, routes, rejections, now)
                && r.routeId == route && r.alternativeGateId == alternative)
      <==> IsHot(risk) && Alternative(before, gate.gateId, risk, forecasts) == Some(alternative)
           && route in routes && route in gate.assignedRouteIds && Clear(route, alternative, rejections, now)
    ensures forall r | r in Redirections(before, gate, forecasts, routes, rejections, now) ::
      && Order(GateRisk(forecasts, r.alternativeGateId)) < Order(GateRisk(forecasts, r.originGateId))
      && r.originGateId == gate.gateId && r.alternativeGateId != gate.gateId && r.status == PENDING
      && r.id == (r.routeId, gate.gateId, now)
  {
    var risk := GateRisk(forecasts, gate.gateId);
    var chosen := Alternative(before, gate.gateId, risk, forecasts);
    var result := Redirections(before, gate, forecasts, routes, rejections, now);
    ClearIsUnsuppressed(route, alternative, rejections, now);
    if IsHot(risk) && chosen.Some? {
      var open := OpenRoutes(gate, chosen.value, routes, rejections, now);
      OpenRoutesMembers(gate, chosen.value, routes, rejections, now);
      forall i | 0 <= i < |open| ensures result[i].routeId == open[i] && result[i] in result {
      }
      if route in open {
        var i :| 0 <= i < |open| && open[i] == route;
        assert result[i].routeId == route;
      }
    }
  }

  /**
   Suppression end to end: a handler that started at `now` and read the rejection list at
   `readAt` never recommends a pair rejected within the last 5 minutes before `now`, less the
   time it let pass between the two readings.
   */
  lemma RejectedPairStaysAway(
      before: GateOrder, gate: Gate, forecasts: Forecasts, routes: seq<RouteId>, log: seq<RejectionRecord>, now: Time,
      readAt: Time, rejection: RejectionRecord, r: Redirection)
    requires StrictTotalOrder(before) && now <= readAt && rejection in log
    requires r in Redirections(before, gate, forecasts, routes, RecentRejections(log, readAt), now)
    requires r.routeId == rejection.routeId && r.alternativeGateId == rejection.alternativeGateId
    ensures now - rejection.rejectedAt >= 5 * MINUTE
         || now - rejection.rejectedAt > 5 * MINUTE - (readAt - now)
    ensures now == readAt ==> now - rejection.rejectedAt >= 5 * MINUTE
  {
    RecommendedExactly(before, gate, forecasts, routes, RecentRejections(log, readAt), now, r.routeId,
      r.alternativeGateId);
    RecentRejectionsMembers(log, readAt);
    assert !Suppresses(rejection, r.routeId, r.alternativeGateId, now) || rejection !in RecentRejections(log, readAt);
  }

  /** The forecasts once `gate` has been recomputed from a window and the others are as they were. */
  function Recomputed(forecasts: Forecasts, gate: Gate, window: seq<SignalEvent>, now: Time): Forecasts {
    forecasts[gate.gateId := ComputeForecast(gate, window, now)]
  }

  /**
   End-to-end stability: with more people counted at the origin and everything else fixed, its
   risk does not fall and every redirection of the quieter window is produced again, for the
   same route and to the same gate, in the same order.
   */
  lemma RedirectionsStable(
      before: GateOrder, gate: Gate, forecasts: Forecasts, routes: seq<RouteId>, rejections: seq<RejectionRecord>,
      now: Time, quieter: seq<SignalEvent>, busier: seq<SignalEvent>, at: Time)
    requires StrictTotalOrder(before)
    requires Total(Recent(quieter, at)) <= Total(Recent(busier, at))
    ensures var f, f' := Recomputed(forecasts, gate, quieter, at), Recomputed(forecasts, gate, busier, at);
      var rs, rs' := Redirections(before, gate, f, routes, rejections, now),
          Redirections(before, gate, f', routes, rejections, now);
      && Order(GateRisk(f, gate.gateId)) <= Order(GateRisk(f', gate.gateId))
      && (rs != [] ==> |rs'| == |rs|)
      && forall i | 0 <= i < |rs| ::
           rs'[i] == rs[i].(originScore := GateScore(f', gate.gateId), originRisk := GateRisk(f', gate.gateId))
  {
    var f, f' := Recomputed(forecasts, gate, quieter, at), Recomputed(forecasts, gate, busier, at);
    var risk, risk' := GateRisk(f, gate.gateId), GateRisk(f', gate.gateId);
    ScoreMonotoneInTotal(gate, Total(Recent(quieter, at)), Total(Recent(busier, at)), 0);
    if IsHot(risk) && Alternative(before, gate.gateId, risk, f).Some? {
      AlternativeStable(before, gate.gateId, risk, risk', f, ComputeForecast(gate, busier, at));
      assert f[gate.gateId := ComputeForecast(gate, busier, at)] == f';
    }
  }

  // ---------- The dispatcher's API ----------

  /** The index of the recommendation with the given id, or the length when there is none. */
  function IndexOf(recs: seq<Redirection>, id: RedirectionId): (i: nat)
    ensures i <= |recs|
    ensures i < |recs| ==> recs[i].id == id
    ensures forall k | 0 <= k < i :: recs[k].id != id
  {
    if recs == [] || recs[0].id == id then 0 else 1 + IndexOf(recs[1..], id)
  }

  function Upserted(recs: seq<Redirection>, rec: Redirection): seq<Redirection> {
    var i := IndexOf(recs, rec.id);
    if i < |recs| then recs[i := rec] else recs + [rec]
  }

  ghost predicate DistinctIds(recs: seq<Redirection>) {
    forall i, j :: 0 <= i < j < |recs| ==> recs[i].id != recs[j].id
  }

  /**
   `ShuttleRedirectionApi` with the in-memory redirection store, the TTL suppression store and
   the server's rejection list. A rejection reads the clock twice: for its record, and in the
   store for the TTL key. The awaits inside one request are not split.
   */
  class ShuttleRedirectionApi {
    var store: map<RouteId, seq<Redirection>>
    var recentRejections: seq<RejectionRecord>
    const suppression: ExpiringStore<(RouteId, GateId), string>

    ghost predicate Valid()
      reads this, suppression
    {
      && suppression.Valid()
      && Parallel(recentRejections, suppression.log)
      && (forall r | r in recentRejections :: r.rejectedAt <= suppression.clock)
      && forall route | route in store ::
           DistinctIds(store[route]) && forall r | r in store[route] :: r.routeId == route
    }

    constructor (ghost now: Time)
      ensures Valid() && fresh(suppression) && store == map[] && recentRejections == [] && suppression.clock == now
    {
      store, recentRejections := map[], [];
      suppression := new ExpiringStore(now);
    }

    function ActiveRecommendations(route: RouteId): seq<Redirection>
      reads this
    {
      if route in store then store[route] else []
    }

    method UpdateRecommendation(rec: Redirection)
      requires Valid()
      modifies this`store
      ensures Valid()
      ensures store == old(store)[rec.routeId := Upserted(old(ActiveRecommendations(rec.routeId)), rec)]
      ensures var active := old(ActiveRecommendations(rec.routeId));
        && ((forall r | r in active :: r.id != rec.id) ==> store[rec.routeId] == active + [rec])
        && forall i | 0 <= i < |active| && active[i].id == rec.id :: store[rec.routeId] == active[i := rec]
    {
      var existing := ActiveRecommendations(rec.routeId);
      var index := IndexOf(existing, rec.id);
      if index < |existing| {
        existing := existing[index := rec];
      } else {
        existing := existing + [rec];
      }
      store := store[rec.routeId := existing];
    }

    method FindRecommendation(route: RouteId, id: RedirectionId) returns (rec: Option<Redirection>)
      ensures var active := ActiveRecommendations(route);
        rec == if IndexOf(active, id) < |active| then Some(active[IndexOf(active, id)]) else None
    {
      var active := ActiveRecommendations(route);
      var i := IndexOf(active, id);
      rec := if i < |active| then Some(active[i]) else None;
    }

    /** Accepting marks the one recommendation and touches nothing else. */
    method AcceptRedirection(
        route: RouteId, id: RedirectionId, dispatcher: UserId, now: Time)
      returns (updated: Option<Redirection>)
      requires Valid()
      modifies this`store
      ensures Valid()
      ensures var active := old(ActiveRecommendations(route)); var i := IndexOf(active, id);
        if i == |active| then
          updated == None && store == old(store)
        else
          && updated == Some(active[i].(status := ACCEPTED, accepted := Some((now, dispatcher))))
          && store == old(store)[route := active[i := updated.value]]
    {
      var rec := FindRecommendation(route, id);
      if rec.None? {
        return None;
      }
      updated := Some(rec.value.(status := ACCEPTED, accepted := Some((now, dispatcher))));
      UpdateRecommendation(updated.value);
    }

    /**
     Rejecting marks the one recommendation and records its pair in both suppression forms: in
     the list with the request's time, under the TTL key with the store's own later reading.
     */
    method RejectRedirection(route: RouteId, id: RedirectionId, dispatcher: UserId, now: Time, storedAt: Time)
      returns (updated: Option<Redirection>)
      requires Valid() && suppression.clock <= now <= storedAt
      modifies this`store, this`recentRejections, suppression
      ensures Valid()
      ensures var active := old(ActiveRecommendations(route)); var i := IndexOf(active, id);
        if i == |active| then
          updated == None && store == old(store) && recentRejections == old(recentRejections)
        else
          && updated == Some(active[i].(status := REJECTED, rejected := Some((now, dispatcher))))
          && store == old(store)[route := active[i := updated.value]]
          && recentRejections == old(recentRejections) + [RejectionRecord(route, active[i].alternativeGateId, now)]
          && suppression.log == old(suppression.log)
                              + [Write((route, active[i].alternativeGateId), "1", storedAt, 5 * MINUTE)]
          && suppression.clock == storedAt
    {
      hide Parallel, Tracks;
      TracksOrdered(suppression.entries, suppression.log, suppression.clock);
      var rec := FindRecommendation(route, id);
      if rec.None? {
        return None;
      }
      ParallelGrows(recentRejections, suppression.log, RejectionRecord(route, rec.value.alternativeGateId, now),
        storedAt);
      updated := Some(rec.value.(status := REJECTED, rejected := Some((now, dispatcher))));
      UpdateRecommendation(updated.value);
      suppression.Put((rec.value.routeId, rec.value.alternativeGateId), "1", storedAt, REJECTION_SUPPRESSION_MS);
      recentRejections := recentRejections + [RejectionRecord(rec.value.routeId, rec.value.alternativeGateId, now)];
    }

    /**
     The TTL form of the suppression question: the answer of the whole rejection list, except
     exactly between the two expiries of the pair's last rejection.
     */
    method IsRejectionSuppressed(route: RouteId, alternative: GateId, now: Time) returns (suppressed: bool)
      requires Valid() && suppression.clock <= now
      modifies suppression
      ensures Valid() && suppression.clock == now
      ensures suppression.log == old(suppression.log)
      ensures var k := LastIndex(recentRejections, route, alternative);
        (suppressed <==> IsSuppressed(route, alternative, recentRejections, now)) <==>
        (k < |recentRejections| ==>
           !(recentRejections[k].rejectedAt + 5 * MINUTE <= now
             && now < suppression.log[k].at + 5 * MINUTE))
    {
      TtlAgreesUnlessLagging(recentRejections, suppression.log, route, alternative, now);
      var value := suppression.GetIfNotExpired((route, alternative), now);
      suppressed := value.Some?;
    }
  }
}
