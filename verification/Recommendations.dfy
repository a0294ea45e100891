/**
 Ranked actions (src/recommendation-engine/recommendations.ts), the active-action list that a
 score update replaces (service.ts), and its execution (api.ts).
 */
module Recommending {
  import opened Domain
  import opened Filtering
  import opened Forecasting
  import opened Sorting

  datatype ActionType = OPEN_GATE_LANE | REDIRECT_SHUTTLE_ROUTE | HOLD_TRANSIT_ARRIVAL | FAN_NUDGE_CAMPAIGN

  const CANDIDATE_ACTION_TYPES: seq<ActionType> :=
    [OPEN_GATE_LANE, REDIRECT_SHUTTLE_ROUTE, HOLD_TRANSIT_ARRIVAL, FAN_NUDGE_CAMPAIGN]

  type ActionId = (GateId, Time, ActionType)

  /** The facts the explanation text is composed from. */
  datatype Explanation = Explanation(signalIds: seq<string>, score: int, lowConfidence: bool)

  datatype RecommendedAction = RecommendedAction(
    id: ActionId,
    gateId: GateId,
    actionType: ActionType,
    rank: int,
    explanation: Explanation,
    generatedAt: Time,
    executed: Option<(Time, UserId)>)

  datatype Scored = Scored(actionType: ActionType, impact: real)

  function CounterEvents(window: seq<SignalEvent>): nat {
    if window == [] then 0
    else CounterEvents(window[..|window| - 1]) + if window[|window| - 1].payload.GateCounter? then 1 else 0
  }

  function ScanEvents(window: seq<SignalEvent>): nat {
    if window == [] then 0
    else ScanEvents(window[..|window| - 1]) + if window[|window| - 1].payload.TicketScan? then 1 else 0
  }

  function TransitEvents(window: seq<SignalEvent>): nat {
    if window == [] then 0
    else TransitEvents(window[..|window| - 1]) + if window[|window| - 1].payload.TransitArrival? then 1 else 0
  }

  function Impact(action: ActionType, score: int, window: seq<SignalEvent>): real {
    var counters, scans := CounterEvents(window) as real, ScanEvents(window) as real;
    var transits := TransitEvents(window) as real;
    match action
    case OPEN_GATE_LANE => score as real * 1.0 + counters * 2.0 + scans * 0.5
    case REDIRECT_SHUTTLE_ROUTE => score as real * 0.9 + transits * 3.0
    case HOLD_TRANSIT_ARRIVAL => score as real * 0.7 + transits * 2.0
    case FAN_NUDGE_CAMPAIGN => score as real * 0.5 + scans * 0.3
  }

  /** The place of an action type's name in `localeCompare` order; the four initials differ. */
  function NameOrder(action: ActionType): int {
    match action
    case FAN_NUDGE_CAMPAIGN => 0
    case HOLD_TRANSIT_ARRIVAL => 1
    case OPEN_GATE_LANE => 2
    case REDIRECT_SHUTTLE_ROUTE => 3
  }

  /** Descending impact, ties by name. */
  predicate Outranks(a: Scored, b: Scored) {
    a.impact > b.impact || (a.impact == b.impact && NameOrder(a.actionType) < NameOrder(b.actionType))
  }

  function ScoredActions(score: int, window: seq<SignalEvent>): seq<Scored> {
    seq(|CANDIDATE_ACTION_TYPES|, i requires 0 <= i < |CANDIDATE_ACTION_TYPES| =>
      Scored(CANDIDATE_ACTION_TYPES[i], Impact(CANDIDATE_ACTION_TYPES[i], score, window)))
  }

  function Explain(forecast: ForecastResult, window: seq<SignalEvent>): Explanation {
    var n := if |window| < 5 then |window| else 5;
    Explanation(seq(n, i requires 0 <= i < n => window[i].signalId), ScoreOf(forecast), forecast.lowConfidence)
  }

  function GenerateRecommendations(
      gate: GateId, forecast: ForecastResult, window: seq<SignalEvent>): seq<RecommendedAction> {
    if RiskOf(forecast) == LOW then
      []
    else
      var at := forecast.scores[0].forecastTime;
      var scored := SortBy(Outranks, ScoredActions(ScoreOf(forecast), window));
      seq(|scored|, i requires 0 <= i < |scored| =>
        RecommendedAction((gate, at, scored[i].actionType), gate, scored[i].actionType, i + 1,
          Explain(forecast, window), at, None))
  }

  // ---------- The ranking ----------

  /** Where an action type stands in a list; past the end when it does not occur. */
  function Place(actions: seq<RecommendedAction>, t: ActionType): (i: nat)
    ensures i <= |actions|
    ensures i < |actions| ==> actions[i].actionType == t
    ensures forall k | 0 <= k < i :: actions[k].actionType != t
  {
    if actions == [] || actions[0].actionType == t then 0 else 1 + Place(actions[1..], t)
  }

  /** Each of the four types once, ranked 1..4 from the top. */
  ghost predicate Ranking(actions: seq<RecommendedAction>) {
    && |actions| == 4
    && (forall i | 0 <= i < 4 :: actions[i].rank == i + 1)
    && (forall t: ActionType :: Place(actions, t) < 4)
    && (forall i, j :: 0 <= i < j < 4 ==> actions[i].actionType != actions[j].actionType)
  }

  lemma OutranksOrders()
    ensures StrictWeakOrder(Outranks)
  {
  }

  function TypeIndex(t: ActionType): (i: nat)
    ensures i < 4 && CANDIDATE_ACTION_TYPES[i] == t
  {
    match t
    case OPEN_GATE_LANE => 0
    case REDIRECT_SHUTTLE_ROUTE => 1
    case HOLD_TRANSIT_ARRIVAL => 2
    case FAN_NUDGE_CAMPAIGN => 3
  }

  lemma ScoredActionsDistinct(score: int, window: seq<SignalEvent>)
    ensures var given := ScoredActions(score, window);
      && |given| == 4
      && (forall i | 0 <= i < 4 :: given[i].impact == Impact(given[i].actionType, score, window))
      && (forall t: ActionType :: given[TypeIndex(t)].actionType == t)
      && (forall i, j :: 0 <= i < j < 4 ==> given[i] != given[j])
  {
  }

  /** The sorted scores: each type once, its own impact, and every earlier one outranks every later. */
  ghost predicate SortedTypes(sorted: seq<Scored>, score: int, window: seq<SignalEvent>) {
    && |sorted| == 4
    && (forall i | 0 <= i < 4 :: sorted[i].impact == Impact(sorted[i].actionType, score, window))
    && (forall t: ActionType :: exists i :: 0 <= i < 4 && sorted[i] == Scored(t, Impact(t, score, window)))
    && (forall i, j :: 0 <= i < j < 4 ==>
          sorted[i].actionType != sorted[j].actionType && Outranks(sorted[i], sorted[j]))
  }

  lemma SortedScores(score: int, window: seq<SignalEvent>)
    ensures SortedTypes(SortBy(Outranks, ScoredActions(score, window)), score, window)
  {
    hide SortBy, ScoredActions, Impact;
    var given := ScoredActions(score, window);
    var sorted := SortBy(Outranks, given);
    ScoredActionsDistinct(score, window);
    OutranksOrders();
    SortBySorts(Outranks, given);
    assert |multiset(sorted)| == |multiset(given)| == 4;
    forall i | 0 <= i < 4 ensures sorted[i].impact == Impact(sorted[i].actionType, score, window) {
      assert sorted[i] in multiset(sorted);
      assert sorted[i] in given;
    }
    forall t: ActionType ensures exists i :: 0 <= i < 4 && sorted[i] == Scored(t, Impact(t, score, window)) {
      assert given[TypeIndex(t)] in multiset(given);
      assert given[TypeIndex(t)] in sorted;
    }
    forall i, j | 0 <= i < j < 4
        ensures sorted[i].actionType != sorted[j].actionType && Outranks(sorted[i], sorted[j]) {
      DistinctStay(given, sorted, i, j);
      assert !Outranks(sorted[j], sorted[i]);
      NamesDiffer(sorted[i].actionType, sorted[j].actionType);
    }
  }

  lemma NamesDiffer(a: ActionType, b: ActionType)
    ensures NameOrder(a) == NameOrder(b) ==> a == b
  {
  }

  lemma DistinctStay<T>(given: seq<T>, sorted: seq<T>, i: nat, j: nat)
    requires multiset(given) == multiset(sorted) && i < j < |sorted|
    requires |given| == 4 && forall a, b :: 0 <= a < b < 4 ==> given[a] != given[b]
    ensures sorted[i] != sorted[j]
  {
    assert given == [given[0], given[1], given[2], given[3]];
    assert multiset(given) == multiset{given[0]} + multiset{given[1]} + multiset{given[2]} + multiset{given[3]};
    var x := sorted[i];
    assert multiset(given)[x] <= 1;
    assert sorted == sorted[..i] + [x] + sorted[i + 1..j] + [sorted[j]] + sorted[j + 1..];
  }

  /**
   The list ranks each of the four actions once, 1 to 4, and one action stands before another
   exactly when its impact is higher, or equal with the earlier name. A LOW forecast has none.
   */
  lemma RankingCharacterised(
      gate: GateId, forecast: ForecastResult, window: seq<SignalEvent>, a: ActionType, b: ActionType)
    ensures var actions := GenerateRecommendations(gate, forecast, window); var score := ScoreOf(forecast);
      && (actions == [] <==> RiskOf(forecast) == LOW)
      && (actions != [] ==>
            && Ranking(actions)
            && (Place(actions, a) < Place(actions, b) <==>
                  Outranks(Scored(a, Impact(a, score, window)), Scored(b, Impact(b, score, window)))))
  {
    hide SortBy, ScoredActions, Impact, Explain, Outranks;
    var score := ScoreOf(forecast);
    SortedScores(score, window);
    if RiskOf(forecast) != LOW {
      var sorted, actions := SortBy(Outranks, ScoredActions(score, window)),
          GenerateRecommendations(gate, forecast, window);
      forall i | 0 <= i < 4 ensures actions[i].actionType == sorted[i].actionType && actions[i].rank == i + 1 {
      }
      forall t: ActionType ensures Place(actions, t) < 4 {
        PlaceInSorted(actions, sorted, score, window, t);
      }
      PlaceOrder(actions, sorted, score, window, a, b);
    }
  }

  lemma PlaceInSorted(
      actions: seq<RecommendedAction>, sorted: seq<Scored>, score: int, window: seq<SignalEvent>, t: ActionType)
    requires SortedTypes(sorted, score, window) && |actions| == 4
    requires forall i | 0 <= i < 4 :: actions[i].actionType == sorted[i].actionType
    ensures Place(actions, t) < 4 && sorted[Place(actions, t)] == Scored(t, Impact(t, score, window))
  {
    hide Impact;
    var k :| 0 <= k < 4 && sorted[k] == Scored(t, Impact(t, score, window));
    assert actions[k].actionType == t;
  }

  lemma {:induction false} PlaceOrder(
      actions: seq<RecommendedAction>, sorted: seq<Scored>, score: int, window: seq<SignalEvent>, a: ActionType,
      b: ActionType)
    requires SortedTypes(sorted, score, window) && |actions| == 4
    requires forall i | 0 <= i < 4 :: actions[i].actionType == sorted[i].actionType
    ensures Place(actions, a) < Place(actions, b)
       <==> Outranks(Scored(a, Impact(a, score, window)), Scored(b, Impact(b, score, window)))
  {
    hide Impact, Outranks;
    PlaceInSorted(actions, sorted, score, window, a);
    PlaceInSorted(actions, sorted, score, window, b);
    OutranksAsymmetric(Scored(a, Impact(a, score, window)), Scored(b, Impact(b, score, window)));
  }

  lemma OutranksAsymmetric(a: Scored, b: Scored)
    ensures Outranks(a, b) ==> !Outranks(b, a)
    ensures !Outranks(a, a)
  {
  }

  /** How many events of a window are gate counts, ticket scans and transit arrivals. */
  ghost function CounterCount(window: seq<SignalEvent>): nat {
    |Places(window, (e: SignalEvent) => e.payload.GateCounter?)|
  }

  ghost function ScanCount(window: seq<SignalEvent>): nat {
    |Places(window, (e: SignalEvent) => e.payload.TicketScan?)|
  }

  ghost function TransitCount(window: seq<SignalEvent>): nat {
    |Places(window, (e: SignalEvent) => e.payload.TransitArrival?)|
  }

  lemma {:induction false} EventsCounted(window: seq<SignalEvent>)
    ensures CounterEvents(window) == CounterCount(window)
    ensures ScanEvents(window) == ScanCount(window)
    ensures TransitEvents(window) == TransitCount(window)
  {
    hide Places;
    var counter := (e: SignalEvent) => e.payload.GateCounter?;
    var scan := (e: SignalEvent) => e.payload.TicketScan?;
    var transit := (e: SignalEvent) => e.payload.TransitArrival?;
    if window == [] {
      NoPlaces(counter);
      NoPlaces(scan);
      NoPlaces(transit);
    } else {
      EventsCounted(window[..|window| - 1]);
      PlacesOneMore(window, counter);
      PlacesOneMore(window, scan);
      PlacesOneMore(window, transit);
    }
  }

  /**
   Every action of a list is the gate's, made at the time of the forecast's current point, not yet
   executed, and explained by the window's first signals, five at most, the score and the confidence.
   */
  lemma ActionsExplained(gate: GateId, forecast: ForecastResult, window: seq<SignalEvent>, i: nat)
    requires i < |GenerateRecommendations(gate, forecast, window)|
    ensures var a, at := GenerateRecommendations(gate, forecast, window)[i], forecast.scores[0].forecastTime;
      && a.id == (gate, at, a.actionType) && a.gateId == gate && a.generatedAt == at && a.executed == None
      && a.explanation.score == forecast.scores[0].score && a.explanation.lowConfidence == forecast.lowConfidence
      && |a.explanation.signalIds| <= 5 && |a.explanation.signalIds| <= |window|
      && (|a.explanation.signalIds| < 5 ==> |a.explanation.signalIds| == |window|)
      && forall k | 0 <= k < |a.explanation.signalIds| :: a.explanation.signalIds[k] == window[k].signalId
  {
    hide SortBy, ScoredActions;
  }

  /**
   The whole order in integers, for a forecast whose risk is its score's band: opening a lane
   always precedes the nudge campaign, redirecting always precedes holding, and the other four
   pairs are decided by linear conditions on the score and the counts of the window. So the
   redirection is first exactly when 30 transit > score + 20 counter + 5 scan.
   */
  lemma RankingInIntegers(gate: GateId, forecast: ForecastResult, window: seq<SignalEvent>)
    requires RiskOf(forecast) != LOW && DeriveRiskLevel(ScoreOf(forecast)) == Some(RiskOf(forecast))
    ensures var actions := GenerateRecommendations(gate, forecast, window);
      var s, c, t, x := ScoreOf(forecast), CounterCount(window), ScanCount(window), TransitCount(window);
      var open, redirect, hold, nudge := Place(actions, OPEN_GATE_LANE), Place(actions, REDIRECT_SHUTTLE_ROUTE),
                                         Place(actions, HOLD_TRANSIT_ARRIVAL), Place(actions, FAN_NUDGE_CAMPAIGN);
      && open < nudge && redirect < hold
      && (redirect < open <==> 30 * x > s + 20 * c + 5 * t)
      && (open < hold <==> 3 * s + 20 * c + 5 * t > 20 * x)
      && (redirect < nudge <==> 4 * s + 30 * x > 3 * t)
      && (hold < nudge <==> 2 * s + 20 * x > 3 * t)
      && (redirect == 0 <==> 30 * x > s + 20 * c + 5 * t)
  {
    hide GenerateRecommendations, CounterEvents, ScanEvents, TransitEvents, CounterCount, ScanCount, TransitCount;
    EventsCounted(window);
    RankingCharacterised(gate, forecast, window, OPEN_GATE_LANE, FAN_NUDGE_CAMPAIGN);
    RankingCharacterised(gate, forecast, window, REDIRECT_SHUTTLE_ROUTE, HOLD_TRANSIT_ARRIVAL);
    RankingCharacterised(gate, forecast, window, REDIRECT_SHUTTLE_ROUTE, OPEN_GATE_LANE);
    RankingCharacterised(gate, forecast, window, OPEN_GATE_LANE, HOLD_TRANSIT_ARRIVAL);
    RankingCharacterised(gate, forecast, window, REDIRECT_SHUTTLE_ROUTE, FAN_NUDGE_CAMPAIGN);
    RankingCharacterised(gate, forecast, window, HOLD_TRANSIT_ARRIVAL, FAN_NUDGE_CAMPAIGN);
    var actions := GenerateRecommendations(gate, forecast, window);
    FirstPlace(actions);
  }

  lemma FirstPlace(actions: seq<RecommendedAction>)
    requires Ranking(actions)
    requires Place(actions, OPEN_GATE_LANE) < Place(actions, FAN_NUDGE_CAMPAIGN)
    requires Place(actions, REDIRECT_SHUTTLE_ROUTE) < Place(actions, HOLD_TRANSIT_ARRIVAL)
    ensures Place(actions, REDIRECT_SHUTTLE_ROUTE) == 0
        <==> Place(actions, REDIRECT_SHUTTLE_ROUTE) < Place(actions, OPEN_GATE_LANE)
  {
    match actions[0].actionType
    case OPEN_GATE_LANE =>
    case REDIRECT_SHUTTLE_ROUTE =>
    case HOLD_TRANSIT_ARRIVAL =>
    case FAN_NUDGE_CAMPAIGN =>
  }

  // ---------- The active list ----------

  /** The list with its execution marks taken off. */
  function Unexecuted(actions: seq<RecommendedAction>): seq<RecommendedAction> {
    seq(|actions|, i requires 0 <= i < |actions| => actions[i].(executed := None))
  }

  function ActionIndex(actions: seq<RecommendedAction>, id: ActionId): (i: nat)
    ensures i <= |actions|
    ensures i < |actions| ==> actions[i].id == id
    ensures forall k | 0 <= k < i :: actions[k].id != id
  {
    if actions == [] || actions[0].id == id then 0 else 1 + ActionIndex(actions[1..], id)
  }

  /** The list after executing one of its actions; a list without it stays as it is. */
  function Executed(actions: seq<RecommendedAction>, id: ActionId, user: UserId, now: Time): seq<RecommendedAction> {
    var i := ActionIndex(actions, id);
    if i < |actions| then actions[i := actions[i].(executed := Some((now, user)))] else actions
  }

  lemma ExecutingMarksOnly(actions: seq<RecommendedAction>, id: ActionId, user: UserId, now: Time)
    ensures Unexecuted(Executed(actions, id, user, now)) == Unexecuted(actions)
    ensures var i := ActionIndex(actions, id);
      i < |actions| ==> Executed(actions, id, user, now)[i] == actions[i].(executed := Some((now, user)))
    ensures forall i | 0 <= i < |actions| && i != ActionIndex(actions, id) ::
        Executed(actions, id, user, now)[i] == actions[i]
  {
  }

  /** A gate's last handled update. */
  datatype Served = Served(forecast: ForecastResult, window: seq<SignalEvent>)

  /** A list holds exactly the actions of an update, up to execution marks. */
  predicate Serves(actions: seq<RecommendedAction>, gate: GateId, served: Served) {
    Unexecuted(actions) == GenerateRecommendations(gate, served.forecast, served.window)
  }

  type ActionStore = map<GateId, seq<RecommendedAction>>

  function ListIn(store: ActionStore, gate: GateId): seq<RecommendedAction> {
    if gate in store then store[gate] else []
  }

  /** The store after an execution writes back the list it read; an unknown id writes nothing. */
  function WrittenBack(
      store: ActionStore, gate: GateId, snapshot: seq<RecommendedAction>, id: ActionId, user: UserId,
      now: Time): ActionStore
  {
    if ActionIndex(snapshot, id) < |snapshot| then store[gate := Executed(snapshot, id, user, now)] else store
  }

  /** `ActiveActionsStore` with the operations that write it. */
  class ActiveActions {
    var store: map<GateId, seq<RecommendedAction>>
    ghost var served: map<GateId, Served>

    ghost predicate Valid()
      reads this
    {
      && store.Keys == served.Keys
      && forall gate | gate in served :: Serves(store[gate], gate, served[gate])
    }

    constructor ()
      ensures Valid() && store == map[]
    {
      store, served := map[], map[];
    }

    /** `RecommendationEngineService.onScoreUpdate`: the list is replaced, never merged. */
    method OnScoreUpdate(
        gate: GateId, forecast: ForecastResult, window: seq<SignalEvent>)
      returns (actions: seq<RecommendedAction>)
      requires Valid()
      modifies this
      ensures Valid() && served == old(served)[gate := Served(forecast, window)]
      ensures store == old(store)[gate := actions] && actions == GenerateRecommendations(gate, forecast, window)
    {
      actions := GenerateRecommendations(gate, forecast, window);
      assert Unexecuted(actions) == actions;
      store := store[gate := actions];
      served := served[gate := Served(forecast, window)];
    }

    /** `executeAction` up to its await: the list it will work on. */
    method ReadForExecution(gate: GateId) returns (snapshot: seq<RecommendedAction>)
      ensures snapshot == ListIn(store, gate)
    {
      snapshot := if gate in store then store[gate] else [];
    }

    /** `executeAction` after its await: marks the action in the list it read, and writes that list back. */
    method FinishExecution(gate: GateId, snapshot: seq<RecommendedAction>, id: ActionId, user: UserId, now: Time)
      returns (updated: Option<RecommendedAction>)
      modifies this`store
      ensures store == WrittenBack(old(store), gate, snapshot, id, user, now)
      ensures var i := ActionIndex(snapshot, id);
        updated == if i == |snapshot| then None else Some(snapshot[i].(executed := Some((now, user))))
    {
      var i := ActionIndex(snapshot, id);
      if i == |snapshot| {
        return None;
      }
      var marked := snapshot[i].(executed := Some((now, user)));
      store := store[gate := snapshot[i := marked]];
      return Some(marked);
    }

    /** Both stretches with nothing in between: the list stays that of the last update. */
    method ExecuteAction(
        gate: GateId, id: ActionId, user: UserId, now: Time)
      returns (updated: Option<RecommendedAction>)
      requires Valid()
      modifies this`store
      ensures Valid()
      ensures var actions := ListIn(old(store), gate);
        var i := ActionIndex(actions, id);
        if i == |actions| then
          updated == None && store == old(store)
        else
          && updated == Some(actions[i].(executed := Some((now, user)))) && updated.value.id == id
          && store == old(store)[gate := Executed(actions, id, user, now)] && store[gate][i] == updated.value
    {
      var snapshot := ReadForExecution(gate);
      ExecutingMarksOnly(snapshot, id, user, now);
      updated := FinishExecution(gate, snapshot, id, user, now);
    }
  }

  /**
   What a served list looks like: empty exactly when the last handled risk is LOW, otherwise the
   four actions of that update, ranked 1 to 4.
   */
  lemma ServedList(actions: seq<RecommendedAction>, gate: GateId, served: Served)
    requires Serves(actions, gate, served)
    ensures actions == [] <==> RiskOf(served.forecast) == LOW
    ensures actions != [] ==> Ranking(actions)
  {
    RankingCharacterised(gate, served.forecast, served.window, OPEN_GATE_LANE, OPEN_GATE_LANE);
    var clean := Unexecuted(actions);
    assert |clean| == |actions|;
    if actions != [] {
      forall i | 0 <= i < 4 ensures actions[i].actionType == clean[i].actionType && actions[i].rank == clean[i].rank {
      }
      forall t: ActionType ensures Place(actions, t) < 4 {
        var k := Place(clean, t);
        assert actions[k].actionType == t;
      }
    }
  }

  // ---------- When two updates rank alike ----------

  datatype SourceCounts = SourceCounts(counters: int, scans: int, transits: int)

  ghost function CountsOf(window: seq<SignalEvent>): SourceCounts {
    SourceCounts(CounterCount(window), ScanCount(window), TransitCount(window))
  }

  /** At one score, two windows decide each of the six pairs of actions alike. */
  predicate SameOrder(s: int, a: SourceCounts, b: SourceCounts) {
    && (5 * s + 20 * a.counters + 2 * a.scans > 0 <==> 5 * s + 20 * b.counters + 2 * b.scans > 0)
    && (s + 5 * a.transits > 0 <==> s + 5 * b.transits > 0)
    && (30 * a.transits > s + 20 * a.counters + 5 * a.scans <==> 30 * b.transits > s + 20 * b.counters + 5 * b.scans)
    && (3 * s + 20 * a.counters + 5 * a.scans > 20 * a.transits
        <==> 3 * s + 20 * b.counters + 5 * b.scans > 20 * b.transits)
    && (4 * s + 30 * a.transits > 3 * a.scans <==> 4 * s + 30 * b.transits > 3 * b.scans)
    && (2 * s + 20 * a.transits > 3 * a.scans <==> 2 * s + 20 * b.transits > 3 * b.scans)
  }

  /**
   Two updates call for the same list: both LOW; or neither, with the same forecast time, the
   same explained facts (first five signals, score, confidence), and pairs decided alike.
   */
  ghost predicate SameList(a: Served, b: Served) {
    && (RiskOf(a.forecast) == LOW <==> RiskOf(b.forecast) == LOW)
    && (RiskOf(a.forecast) != LOW ==>
          && a.forecast.scores[0].forecastTime == b.forecast.scores[0].forecastTime
          && Explain(a.forecast, a.window) == Explain(b.forecast, b.window)
          && SameOrder(ScoreOf(a.forecast), CountsOf(a.window), CountsOf(b.window)))
  }

  /** The pairwise order of two actions for a score and a window. */
  predicate Before(x: ActionType, y: ActionType, score: int, window: seq<SignalEvent>) {
    Outranks(Scored(x, Impact(x, score, window)), Scored(y, Impact(y, score, window)))
  }

  lemma SameOrderDecides(score: int, a: seq<SignalEvent>, b: seq<SignalEvent>)
    ensures SameOrder(score, CountsOf(a), CountsOf(b)) <==>
            forall x: ActionType, y: ActionType :: Before(x, y, score, a) <==> Before(x, y, score, b)
  {
    hide CounterEvents, ScanEvents, TransitEvents, CounterCount, ScanCount, TransitCount, Before;
    PairsInIntegers(score, a);
    PairsInIntegers(score, b);
    forall x: ActionType, y: ActionType
      ensures SameOrder(score, CountsOf(a), CountsOf(b)) ==> (Before(x, y, score, a) <==> Before(x, y, score, b))
    {
      BeforeIsTotal(x, y, score, a);
      BeforeIsTotal(x, y, score, b);
    }
  }

  lemma PairsInIntegers(s: int, window: seq<SignalEvent>)
    ensures var k := CountsOf(window);
      && (Before(OPEN_GATE_LANE, FAN_NUDGE_CAMPAIGN, s, window) <==> 5 * s + 20 * k.counters + 2 * k.scans > 0)
      && (Before(REDIRECT_SHUTTLE_ROUTE, HOLD_TRANSIT_ARRIVAL, s, window) <==> s + 5 * k.transits > 0)
      && (Before(REDIRECT_SHUTTLE_ROUTE, OPEN_GATE_LANE, s, window)
          <==> 30 * k.transits > s + 20 * k.counters + 5 * k.scans)
      && (Before(OPEN_GATE_LANE, HOLD_TRANSIT_ARRIVAL, s, window)
          <==> 3 * s + 20 * k.counters + 5 * k.scans > 20 * k.transits)
      && (Before(REDIRECT_SHUTTLE_ROUTE, FAN_NUDGE_CAMPAIGN, s, window) <==> 4 * s + 30 * k.transits > 3 * k.scans)
      && (Before(HOLD_TRANSIT_ARRIVAL, FAN_NUDGE_CAMPAIGN, s, window) <==> 2 * s + 20 * k.transits > 3 * k.scans)
  {
    hide CounterEvents, ScanEvents, TransitEvents, CounterCount, ScanCount, TransitCount;
    EventsCounted(window);
  }

  lemma BeforeIsTotal(x: ActionType, y: ActionType, score: int, window: seq<SignalEvent>)
    ensures x == y ==> !Before(x, y, score, window)
    ensures x != y ==> (Before(x, y, score, window) <==> !Before(y, x, score, window))
  {
    NamesDiffer(x, y);
  }

  /** Four distinct places out of four are fixed by their order. */
  lemma OrderFixesPlaces(a: seq<RecommendedAction>, b: seq<RecommendedAction>)
    requires Ranking(a) && Ranking(b)
    requires forall x: ActionType, y: ActionType :: Place(a, x) < Place(a, y) <==> Place(b, x) < Place(b, y)
    ensures forall t: ActionType :: Place(a, t) == Place(b, t)
  {
    hide Place;
    PlacesDiffer(a);
    PlacesDiffer(b);
    FourPlaces(
      Place(a, OPEN_GATE_LANE), Place(a, REDIRECT_SHUTTLE_ROUTE), Place(a, HOLD_TRANSIT_ARRIVAL),
      Place(a, FAN_NUDGE_CAMPAIGN),
      Place(b, OPEN_GATE_LANE), Place(b, REDIRECT_SHUTTLE_ROUTE), Place(b, HOLD_TRANSIT_ARRIVAL),
      Place(b, FAN_NUDGE_CAMPAIGN));
    forall t: ActionType ensures Place(a, t) == Place(b, t) {
      match t
      case OPEN_GATE_LANE =>
      case REDIRECT_SHUTTLE_ROUTE =>
      case HOLD_TRANSIT_ARRIVAL =>
      case FAN_NUDGE_CAMPAIGN =>
    }
  }

  lemma FourPlaces(a: nat, b: nat, c: nat, d: nat, a': nat, b': nat, c': nat, d': nat)
    requires a < 4 && b < 4 && c < 4 && d < 4 && a' < 4 && b' < 4 && c' < 4 && d' < 4
    requires a != b && a != c && a != d && b != c && b != d && c != d
    requires a' != b' && a' != c' && a' != d' && b' != c' && b' != d' && c' != d'
    requires (a < b <==> a' < b') && (a < c <==> a' < c') && (a < d <==> a' < d')
    requires (b < c <==> b' < c') && (b < d <==> b' < d') && (c < d <==> c' < d')
    ensures a == a' && b == b' && c == c' && d == d'
  {
  }

  lemma PlacesDiffer(a: seq<RecommendedAction>)
    requires Ranking(a)
    ensures forall x: ActionType, y: ActionType :: x != y ==> Place(a, x) != Place(a, y)
    ensures forall i | 0 <= i < 4 :: Place(a, a[i].actionType) == i
  {
  }

  lemma SameListIff(gate: GateId, a: Served, b: Served)
    ensures SameList(a, b) <==>
            GenerateRecommendations(gate, a.forecast, a.window) == GenerateRecommendations(gate, b.forecast, b.window)
  {
    hide GenerateRecommendations, SameList, Ranking;
    if SameList(a, b) {
      SameListGenerates(gate, a, b);
    }
    if GenerateRecommendations(gate, a.forecast, a.window) == GenerateRecommendations(gate, b.forecast, b.window) {
      GeneratedSame(gate, a, b);
    }
  }

  lemma SameListGenerates(gate: GateId, a: Served, b: Served)
    requires SameList(a, b)
    ensures GenerateRecommendations(gate, a.forecast, a.window) == GenerateRecommendations(gate, b.forecast, b.window)
  {
    hide GenerateRecommendations, SameOrder, Before, Explain, Place;
    var p, q := GenerateRecommendations(gate, a.forecast, a.window),
        GenerateRecommendations(gate, b.forecast, b.window);
    GeneratedShape(gate, a);
    GeneratedShape(gate, b);
    if RiskOf(a.forecast) != LOW {
      SameOrderDecides(ScoreOf(a.forecast), a.window, b.window);
      OrderFixesPlaces(p, q);
      PlacesDiffer(p);
      PlacesDiffer(q);
      forall i | 0 <= i < 4 ensures p[i] == q[i] {
        assert Place(q, p[i].actionType) == i;
      }
    }
  }

  lemma GeneratedSame(gate: GateId, a: Served, b: Served)
    requires GenerateRecommendations(gate, a.forecast, a.window) == GenerateRecommendations(gate, b.forecast, b.window)
    ensures SameList(a, b)
  {
    hide GenerateRecommendations, SameOrder, Before, Explain, Place;
    var p := GenerateRecommendations(gate, a.forecast, a.window);
    GeneratedShape(gate, a);
    GeneratedShape(gate, b);
    if RiskOf(a.forecast) != LOW {
      assert p[0].explanation == Explain(a.forecast, a.window) == Explain(b.forecast, b.window);
      SameOrderDecides(ScoreOf(a.forecast), a.window, b.window);
    }
  }

  /** Everything in a non-empty list but the order of its types comes from the forecast and the explained facts. */
  lemma GeneratedShape(gate: GateId, served: Served)
    ensures var actions := GenerateRecommendations(gate, served.forecast, served.window);
      && (actions == [] <==> RiskOf(served.forecast) == LOW)
      && (actions != [] ==>
            && Ranking(actions)
            && (forall i | 0 <= i < 4 ::
                  var at := served.forecast.scores[0].forecastTime;
                  actions[i] == RecommendedAction((gate, at, actions[i].actionType), gate, actions[i].actionType, i + 1,
                                                  Explain(served.forecast, served.window), at, None))
            && Explain(served.forecast, served.window).score == ScoreOf(served.forecast)
            && (forall x: ActionType, y: ActionType ::
                  Place(actions, x) < Place(actions, y) <==> Before(x, y, ScoreOf(served.forecast), served.window)))
  {
    hide SortBy, ScoredActions, Impact;
    forall x: ActionType, y: ActionType {
      RankingCharacterised(gate, served.forecast, served.window, x, y);
    }
    RankingCharacterised(gate, served.forecast, served.window, OPEN_GATE_LANE, OPEN_GATE_LANE);
  }

  // ---------- Execution across an update ----------

  /**
   `executeAction` awaits between reading the list and writing it back. Let it read a list that
   serves `earlier`, and find the store with a list that serves `newer`. What it leaves serves
   `newer` exactly when it wrote nothing, because the id was not in the list it read, or when the
   two updates call for the same list. Other gates' lists are as they were.
   */
  lemma InterleavedExecution(
      store: ActionStore, gate: GateId, snapshot: seq<RecommendedAction>, id: ActionId, user: UserId, now: Time,
      earlier: Served, newer: Served)
    requires Serves(snapshot, gate, earlier) && gate in store && Serves(store[gate], gate, newer)
    ensures var left := WrittenBack(store, gate, snapshot, id, user, now);
      && gate in left
      && (Serves(left[gate], gate, newer) <==> ActionIndex(snapshot, id) == |snapshot| || SameList(earlier, newer))
      && forall other | other != gate :: ListIn(left, other) == ListIn(store, other)
  {
    hide SameList, GenerateRecommendations;
    ExecutingMarksOnly(snapshot, id, user, now);
    SameListIff(gate, earlier, newer);
  }

  /** So an execution that straddles its gate's return to LOW brings back four dead actions. */
  lemma ExecutionCanReviveActions(
      store: ActionStore, gate: GateId, snapshot: seq<RecommendedAction>, id: ActionId, user: UserId, now: Time,
      earlier: Served, newer: Served)
    requires Serves(snapshot, gate, earlier) && gate in store && Serves(store[gate], gate, newer)
    requires ActionIndex(snapshot, id) < |snapshot| && RiskOf(newer.forecast) == LOW
    ensures store[gate] == [] && |WrittenBack(store, gate, snapshot, id, user, now)[gate]| == 4
  {
    hide GenerateRecommendations;
    ServedList(snapshot, gate, earlier);
    ServedList(store[gate], gate, newer);
  }
}
