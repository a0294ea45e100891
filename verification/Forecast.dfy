/**
 Windowed forecasting arithmetic (src/congestion-forecaster/forecast.ts and risk-level.ts).

 All arithmetic is exact: `real` stands for the source's numbers and rounding is
 floor(x + 1/2), which is what Math.round computes.
 */
module Forecasting {
  import opened Domain
  import opened Filtering

  const RECENT_WINDOW_MS: int := 10 * 60 * 1000
  const OFFSETS: seq<int> := [0, 5, 10, 15]

  /** The growth factor per offset; anything else falls back to 1. */
  function GrowthFactor(offsetMinutes: int): real {
    if offsetMinutes == 5 then 1.05
    else if offsetMinutes == 10 then 1.1
    else if offsetMinutes == 15 then 1.15
    else 1.0
  }

  function Clamp(value: real): real {
    if value < 0.0 then 0.0 else if value > 100.0 then 100.0 else value
  }

  function ClampInt(value: int): int {
    if value < 0 then 0 else if value > 100 then 100 else value
  }

  function Round(x: real): int {
    (x + 0.5).Floor
  }

  function NonNegative(x: real): real {
    if x < 0.0 then 0.0 else x
  }

  /** The band of a score; None is the RangeError that the source throws outside 0..100. */
  function DeriveRiskLevel(score: int): Option<RiskLevel> {
    if score < 0 || score > 100 then None
    else if score <= 39 then Some(LOW)
    else if score <= 69 then Some(MODERATE)
    else if score <= 89 then Some(HIGH)
    else Some(CRITICAL)
  }

  function IncomingCount(event: SignalEvent): (count: real)
    ensures count >= 0.0
  {
    match event.payload
    case GateCounter(count) => NonNegative(count)
    case TicketScan(_) => 1.0
    case TransitArrival(passengers, _, _) => NonNegative(passengers)
  }

  predicate Counts(event: SignalEvent, now: Time) {
    !event.isStale && now - event.timestamp <= RECENT_WINDOW_MS
  }

  /** The events of a window that count towards a forecast made at `now`, in order. */
  function Recent(window: seq<SignalEvent>, now: Time): seq<SignalEvent> {
    if window == [] then
      []
    else
      var n := |window| - 1;
      Recent(window[..n], now) + if Counts(window[n], now) then [window[n]] else []
  }

  function Total(events: seq<SignalEvent>): (total: real)
    ensures total >= 0.0
  {
    if events == [] then 0.0
    else Total(events[..|events| - 1]) + IncomingCount(events[|events| - 1])
  }

  function Capacity(gate: Gate): (c: real)
    ensures c >= 1.0
  {
    if gate.capacityThreshold < 1.0 then 1.0 else gate.capacityThreshold
  }

  function BaseScore(gate: Gate, total: real): real {
    Clamp(total / Capacity(gate) * 100.0)
  }

  function ScoreAt(base: real, offsetMinutes: int): (score: int)
    ensures 0 <= score <= 100
  {
    ClampInt(Round(base * GrowthFactor(offsetMinutes)))
  }

  function PointAt(gate: Gate, base: real, offsetMinutes: int, now: Time, lowConfidence: bool): ScorePoint {
    var score := ScoreAt(base, offsetMinutes);
    ScorePoint(gate.gateId, now + offsetMinutes * 60 * 1000, offsetMinutes, score,
               DeriveRiskLevel(score).value, lowConfidence, false)
  }

  function ComputeForecast(gate: Gate, window: seq<SignalEvent>, now: Time): ForecastResult {
    var recent := Recent(window, now);
    var base := BaseScore(gate, Total(recent));
    var lowConfidence := recent == [];
    ForecastResult(
      seq(|OFFSETS|, i requires 0 <= i < |OFFSETS| => PointAt(gate, base, OFFSETS[i], now, lowConfidence)),
      lowConfidence)
  }

  // ---------- What a forecast is, for every gate, window and instant ----------

  /** The bands: LOW below 40, MODERATE from 40, HIGH from 70, CRITICAL from 90. */
  predicate InBand(score: int, risk: RiskLevel) {
    && 0 <= score <= 100
    && (risk == LOW <==> score < 40)
    && (risk == MODERATE <==> 40 <= score < 70)
    && (risk == HIGH <==> 70 <= score < 90)
    && (risk == CRITICAL <==> 90 <= score)
  }

  /**
   A published series: starts at offset 0, whose point is the one that readers take for current,
   and each risk is its score's band.
   */
  predicate WellFormed(forecast: ForecastResult) {
    && forecast.scores != []
    && forecast.scores[0].offsetMinutes == 0
    && RiskOf(forecast) == forecast.scores[0].risk && ScoreOf(forecast) == forecast.scores[0].score
    && (forall p | p in forecast.scores :: DeriveRiskLevel(p.score) == Some(p.risk) && InBand(p.score, p.risk))
  }

  /** One point for now and for every 5 minutes up to 15 ahead. */
  predicate Horizon(forecast: ForecastResult, gate: GateId, now: Time) {
    && |forecast.scores| == 4
    && forall i | 0 <= i < 4 ::
         var p := forecast.scores[i];
         && p.gateId == gate && p.offsetMinutes == 5 * i && p.forecastTime == now + 5 * i * MINUTE
         && p.lowConfidence == forecast.lowConfidence && !p.outdated
  }

  lemma ForecastWellFormed(gate: Gate, window: seq<SignalEvent>, now: Time)
    ensures WellFormed(ComputeForecast(gate, window, now))
    ensures Horizon(ComputeForecast(gate, window, now), gate.gateId, now)
  {
    hide ScoreAt, BaseScore, Total, Recent;
  }

  /** Neither marked stale nor older than 10 minutes. */
  predicate Fresh(event: SignalEvent, now: Time) {
    !event.isStale && now - event.timestamp <= 10 * MINUTE
  }

  /** No fresh event: every score is 0, every risk LOW and the result is low-confidence. */
  lemma SilentWindow(gate: Gate, window: seq<SignalEvent>, now: Time)
    ensures var f := ComputeForecast(gate, window, now);
      && (f.lowConfidence <==> forall e | e in window :: !Fresh(e, now))
      && (f.lowConfidence ==> forall p | p in f.scores :: p.score == 0 && p.risk == LOW && p.lowConfidence)
  {
    RecentMembers(window, now);
    var f := ComputeForecast(gate, window, now);
    if f.lowConfidence {
      assert BaseScore(gate, 0.0) == 0.0;
      assert forall o | o in OFFSETS :: ScoreAt(0.0, o) == 0;
    } else {
      var e := Recent(window, now)[0];
      assert e in Recent(window, now);
    }
  }

  lemma {:induction false} RecentMembers(window: seq<SignalEvent>, now: Time)
    ensures forall e :: e in Recent(window, now) <==> e in window && Counts(e, now)
  {
    if window != [] {
      var n := |window| - 1;
      assert window == window[..n] + [window[n]];
      RecentMembers(window[..n], now);
    }
  }

  /** Exactly the fresh events count, in their order. */
  lemma {:induction false} RecentPicks(window: seq<SignalEvent>, now: Time)
    ensures Picks(Recent(window, now), window, (e: SignalEvent) => Fresh(e, now))
  {
    hide Picks;
    var keep := (e: SignalEvent) => Fresh(e, now);
    if window == [] {
      PicksNone(keep);
    } else {
      var n := |window| - 1;
      RecentPicks(window[..n], now);
      PicksOneMore(Recent(window[..n], now), window[..n], keep, window[n]);
      assert window == window[..n] + [window[n]];
      assert Recent(window[..n], now) + [] == Recent(window[..n], now);
    }
  }

  // ---------- Only the multiset of counted events matters, and monotonically ----------

  lemma {:induction false} RecentAppend(a: seq<SignalEvent>, b: seq<SignalEvent>, now: Time)
    ensures Recent(a + b, now) == Recent(a, now) + Recent(b, now)
  {
    if b == [] {
      assert a + b == a;
    } else {
      var n := |b| - 1;
      assert (a + b)[..|a| + n] == a + b[..n];
      assert (a + b)[|a| + n] == b[n];
      RecentAppend(a, b[..n], now);
    }
  }

  lemma {:induction false} TotalAppend(a: seq<SignalEvent>, b: seq<SignalEvent>)
    ensures Total(a + b) == Total(a) + Total(b)
  {
    if b == [] {
      assert a + b == a;
    } else {
      var n := |b| - 1;
      assert (a + b)[..|a| + n] == a + b[..n];
      TotalAppend(a, b[..n]);
    }
  }

  /** Losing events or reordering them never raises the total. */
  lemma {:induction false} TotalMonotone(fewer: seq<SignalEvent>, more: seq<SignalEvent>)
    requires multiset(fewer) <= multiset(more)
    ensures Total(fewer) <= Total(more)
    decreases |fewer|
  {
    if fewer != [] {
      var n := |fewer| - 1;
      var e := fewer[n];
      assert fewer == fewer[..n] + [e];
      assert e in multiset(fewer);
      assert e in more;
      var k :| 0 <= k < |more| && more[k] == e;
      var rest := more[..k] + more[k + 1..];
      assert more == more[..k] + [e] + more[k + 1..];
      assert multiset(rest) == multiset(more) - multiset{e};
      TotalMonotone(fewer[..n], rest);
      TotalAppend(more[..k] + [e], more[k + 1..]);
      TotalAppend(more[..k], [e]);
      TotalAppend(more[..k], more[k + 1..]);
    }
  }

  lemma ScoreMonotoneInTotal(gate: Gate, total: real, total': real, offset: int)
    requires 0.0 <= total <= total'
    ensures ScoreAt(BaseScore(gate, total), offset) <= ScoreAt(BaseScore(gate, total'), offset)
  {
    var c := Capacity(gate);
    assert total / c <= total' / c by { DivideMonotone(total, total', c); }
  }

  lemma DivideMonotone(a: real, b: real, c: real)
    requires a <= b && c > 0.0
    ensures a / c <= b / c
  {
    assert b / c - a / c == (b - a) / c;
    assert (b - a) / c >= 0.0;
  }

  /**
   The forecast is a function of the multiset of counted events, and counting more can only
   raise scores and risks, at every offset of the horizon.
   */
  lemma ForecastMonotone(gate: Gate, fewer: seq<SignalEvent>, more: seq<SignalEvent>, now: Time)
    requires multiset(Recent(fewer, now)) <= multiset(Recent(more, now))
    ensures var f, g := ComputeForecast(gate, fewer, now), ComputeForecast(gate, more, now);
      && |f.scores| == |g.scores|
      && (forall i | 0 <= i < |f.scores| ::
            f.scores[i].score <= g.scores[i].score && Order(f.scores[i].risk) <= Order(g.scores[i].risk))
      && (multiset(Recent(fewer, now)) == multiset(Recent(more, now)) ==> f == g)
  {
    hide Recent, Total;
    var a, b := Recent(fewer, now), Recent(more, now);
    TotalMonotone(a, b);
    if multiset(a) == multiset(b) {
      TotalMonotone(b, a);
      assert |multiset(a)| == |a| && |multiset(b)| == |b|;
    }
    var f, g := ComputeForecast(gate, fewer, now), ComputeForecast(gate, more, now);
    forall i | 0 <= i < |f.scores|
      ensures f.scores[i].score <= g.scores[i].score && Order(f.scores[i].risk) <= Order(g.scores[i].risk)
    {
      ScoreMonotoneInTotal(gate, Total(a), Total(b), OFFSETS[i]);
    }
  }

  // ---------- What a score means ----------

  function Sum(window: seq<SignalEvent>, weight: SignalEvent -> real): real {
    if window == [] then 0.0 else Sum(window[..|window| - 1], weight) + weight(window[|window| - 1])
  }

  /** How many fresh ticket scans there are. */
  ghost function FreshScans(window: seq<SignalEvent>, now: Time): nat {
    |Places(window, (e: SignalEvent) => Fresh(e, now) && e.payload.TicketScan?)|
  }

  /** What the fresh gate counters counted; a negative count is none. */
  ghost function Counted(window: seq<SignalEvent>, now: Time): real {
    Sum(window, (e: SignalEvent) =>
      if Fresh(e, now) && e.payload.GateCounter? && e.payload.count > 0.0 then e.payload.count else 0.0)
  }

  /** The passengers of the fresh transit arrivals; a negative estimate is none. */
  ghost function Arriving(window: seq<SignalEvent>, now: Time): real {
    Sum(window, (e: SignalEvent) =>
      if Fresh(e, now) && e.payload.TransitArrival? && e.payload.passengers > 0.0 then e.payload.passengers else 0.0)
  }

  /** The people that a window tells of: one per fresh scan, and the fresh counts and passengers. */
  ghost function People(window: seq<SignalEvent>, now: Time): real {
    FreshScans(window, now) as real + Counted(window, now) + Arriving(window, now)
  }

  lemma {:induction false} TotalIsPeople(window: seq<SignalEvent>, now: Time)
    ensures Total(Recent(window, now)) == People(window, now)
  {
    hide People, Total, IncomingCount, Counts;
    if window == [] {
      NoPeople(now);
    } else {
      var n := |window| - 1;
      var e := window[n];
      TotalIsPeople(window[..n], now);
      PeopleOneMore(window, now);
      TotalOneMore(Recent(window[..n], now), e);
      assert Recent(window[..n], now) + [] == Recent(window[..n], now);
    }
  }

  lemma NoPeople(now: Time)
    ensures People([], now) == Total([]) == 0.0
  {
    NoPlaces((e: SignalEvent) => Fresh(e, now) && e.payload.TicketScan?);
  }

  lemma PeopleOneMore(window: seq<SignalEvent>, now: Time)
    requires window != []
    ensures var n := |window| - 1;
      People(window, now) == People(window[..n], now) + if Counts(window[n], now) then IncomingCount(window[n]) else 0.0
  {
    hide Places;
    PlacesOneMore(window, (e: SignalEvent) => Fresh(e, now) && e.payload.TicketScan?);
  }

  lemma TotalOneMore(events: seq<SignalEvent>, e: SignalEvent)
    ensures Total(events + [e]) == Total(events) + IncomingCount(e)
  {
    assert (events + [e])[..|events|] == events;
  }

  /** `percent` is the share of the capacity that `total` takes, capped at 100. */
  ghost predicate IsPercentage(percent: real, total: real, capacity: real) {
    if total <= capacity then percent * capacity == 100.0 * total else percent == 100.0
  }

  /** `score` is the integer nearest to `ahead`, halves upwards, and never above 100. */
  ghost predicate IsNearest(score: int, ahead: real) {
    if ahead >= 99.5 then score == 100 else score as real - 0.5 <= ahead < score as real + 0.5
  }

  /**
   What a score means: the people of the window's fresh events as a percentage of the gate's
   capacity (at least one), raised by 5 percent of itself per 5 minutes ahead, and rounded.
   */
  lemma ScoreIsRoundedPercentage(gate: Gate, window: seq<SignalEvent>, now: Time, i: nat)
    requires i < |OFFSETS|
    ensures var capacity := if gate.capacityThreshold < 1.0 then 1.0 else gate.capacityThreshold;
      exists percent ::
      && IsPercentage(percent, People(window, now), capacity)
      && IsNearest(ComputeForecast(gate, window, now).scores[i].score, percent * (100 + 5 * i) as real / 100.0)
  {
    var total, c := Total(Recent(window, now)), Capacity(gate);
    var percent := BaseScore(gate, total);
    TotalIsPeople(window, now);
    BaseIsPercentage(gate, total);
    NearestAhead(percent, i);
  }

  lemma BaseIsPercentage(gate: Gate, total: real)
    requires total >= 0.0
    ensures IsPercentage(BaseScore(gate, total), total, Capacity(gate))
  {
    var c := Capacity(gate);
    assert total / c * c == total;
    if total <= c {
      DivideMonotone(total, c, c);
    } else {
      DivideMonotone(c, total, c);
    }
    assert c / c == 1.0;
  }

  lemma NearestAhead(percent: real, i: nat)
    requires 0.0 <= percent <= 100.0 && i < |OFFSETS|
    ensures IsNearest(ScoreAt(percent, OFFSETS[i]), percent * (100 + 5 * i) as real / 100.0)
  {
    assert OFFSETS[i] == 5 * i;
    if i == 0 {
    } else if i == 1 {
    } else if i == 2 {
    } else {
    }
  }

  // ---------- Along the horizon ----------

  /**
   Scores never fall along the horizon and rise by at most 13 points from one end to the
   other, so the risk climbs at most one band.
   */
  lemma HorizonRise(gate: Gate, window: seq<SignalEvent>, now: Time, i: nat, j: nat)
    requires i <= j < |OFFSETS|
    ensures var s := ComputeForecast(gate, window, now).scores;
      && s[i].score <= s[j].score <= s[i].score + 13
      && Order(s[i].risk) <= Order(s[j].risk) <= Order(s[i].risk) + 1
  {
    var base := BaseScore(gate, Total(Recent(window, now)));
    HorizonScores(base);
  }

  lemma HorizonScores(base: real)
    requires 0.0 <= base <= 100.0
    ensures ScoreAt(base, 0) <= ScoreAt(base, 5) <= ScoreAt(base, 10) <= ScoreAt(base, 15) <= ScoreAt(base, 0) + 13
  {
  }

  /** The 13-point bound is attained. */
  lemma HorizonRiseTight()
    ensures exists gate, window, now ::
      var s := ComputeForecast(gate, window, now).scores; s[3].score == s[0].score + 13
  {
    var gate := Gate("gate-a", 100.0, []);
    var e := SignalEvent("s", Some("gate-a"), 0, false, GateCounter(87.0));
    var w := [e];
    assert w[..0] == [] && w[0] == e;
    assert Recent(w[..0], 0) == [] && Recent(w, 0) == [e];
    assert [e][..0] == [] && Total([e]) == 87.0;
    assert BaseScore(gate, 87.0) == 87.0;
    var s := ComputeForecast(gate, w, 0).scores;
    assert s[0].score == ScoreAt(87.0, 0) == 87;
    assert s[3].score == ScoreAt(87.0, 15) == 100;
  }
}
