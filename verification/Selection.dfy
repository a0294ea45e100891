/**
 Alternative-gate selection (src/congestion-forecaster/risk-comparison.ts).

 `before` stands for the strict total order that `localeCompare` puts on gate ids. A forecast
 map is a `map`, so everything proved here holds for every iteration order of the source's Map.
 */
module Selection {
  import opened Domain
  import opened Forecasting
  import opened Sorting

  type GateOrder = (GateId, GateId) -> bool

  ghost predicate StrictTotalOrder(before: GateOrder) {
    && (forall a, b :: before(a, b) ==> !before(b, a))
    && (forall a, b, c :: before(a, b) && before(b, c) ==> before(a, c))
    && (forall a, b :: a == b || before(a, b) || before(b, a))
  }

  datatype Candidate = Candidate(gateId: GateId, riskOrder: int, score: int)

  function CandidateOf(forecasts: Forecasts, gate: GateId): Candidate {
    Candidate(gate, Order(GateRisk(forecasts, gate)), GateScore(forecasts, gate))
  }

  /** The source's comparator: by risk, then by score, then by gate id. */
  function Comparator(before: GateOrder): (Candidate, Candidate) -> bool {
    (a: Candidate, b: Candidate) =>
      if a.riskOrder != b.riskOrder then a.riskOrder < b.riskOrder
      else if a.score != b.score then a.score < b.score
      else before(a.gateId, b.gateId)
  }

  lemma ComparatorOrders(before: GateOrder)
    requires StrictTotalOrder(before)
    ensures StrictWeakOrder(Comparator(before))
  {
    var less := Comparator(before);
    forall a, b | less(a, b) ensures !less(b, a) {
      assert before(a.gateId, b.gateId) ==> !before(b.gateId, a.gateId);
    }
    forall a, b, c | less(a, c) ensures less(a, b) || less(b, c) {
      if a.riskOrder == b.riskOrder == c.riskOrder && a.score == b.score == c.score {
        assert a.gateId == b.gateId || before(a.gateId, b.gateId) || before(b.gateId, a.gateId);
      }
    }
  }

  /** The gates the source's loop lets through: another gate of strictly lower risk. */
  predicate IsCandidate(origin: GateId, originRisk: RiskLevel, forecasts: Forecasts, gate: GateId) {
    gate in forecasts && gate != origin && Order(GateRisk(forecasts, gate)) < Order(originRisk)
  }

  function Candidates(origin: GateId, originRisk: RiskLevel, forecasts: Forecasts): set<GateId> {
    set g | g in forecasts.Keys && IsCandidate(origin, originRisk, forecasts, g)
  }

  /** `best` is a gate of the set that no gate of the set precedes. */
  predicate IsLeast(before: GateOrder, forecasts: Forecasts, gates: set<GateId>, best: GateId) {
    && best in gates
    && forall g | g in gates :: !Comparator(before)(CandidateOf(forecasts, g), CandidateOf(forecasts, best))
  }

  lemma {:induction false} LeastExists(before: GateOrder, forecasts: Forecasts, gates: set<GateId>)
    requires StrictTotalOrder(before) && gates != {}
    ensures exists best :: IsLeast(before, forecasts, gates, best)
  {
    var g :| g in gates;
    var rest := gates - {g};
    ComparatorOrders(before);
    if rest == {} {
      assert gates == {g};
      assert IsLeast(before, forecasts, gates, g);
    } else {
      LeastExists(before, forecasts, rest);
      var b :| IsLeast(before, forecasts, rest, b);
      if Comparator(before)(CandidateOf(forecasts, g), CandidateOf(forecasts, b)) {
        assert IsLeast(before, forecasts, gates, g);
      } else {
        assert IsLeast(before, forecasts, gates, b);
      }
    }
  }

  lemma LeastUnique(before: GateOrder, forecasts: Forecasts, gates: set<GateId>, a: GateId, b: GateId)
    requires StrictTotalOrder(before)
    requires IsLeast(before, forecasts, gates, a) && IsLeast(before, forecasts, gates, b)
    ensures a == b
  {
    assert a == b || before(a, b) || before(b, a);
  }

  /** The least gate of a non-empty set, by (risk, score, id). */
  function Least(before: GateOrder, forecasts: Forecasts, gates: set<GateId>): (best: GateId)
    requires StrictTotalOrder(before) && gates != {}
    ensures IsLeast(before, forecasts, gates, best)
  {
    LeastExists(before, forecasts, gates);
    assert forall a, b | a in gates && b in gates ::
        IsLeast(before, forecasts, gates, a) && IsLeast(before, forecasts, gates, b) ==> a == b by {
      forall a, b | IsLeast(before, forecasts, gates, a) && IsLeast(before, forecasts, gates, b) ensures a == b {
        LeastUnique(before, forecasts, gates, a, b);
      }
    }
    var best :| best in gates && IsLeast(before, forecasts, gates, best);
    best
  }

  /** What `pickAlternativeGate` answers. */
  function Alternative(
      before: GateOrder, origin: GateId, originRisk: RiskLevel, forecasts: Forecasts): (r: Option<GateId>)
    requires StrictTotalOrder(before)
    ensures r.Some? ==> IsCandidate(origin, originRisk, forecasts, r.value)
    ensures r.None? <==> forall g :: !IsCandidate(origin, originRisk, forecasts, g)
  {
    var gates := Candidates(origin, originRisk, forecasts);
    if gates == {} then
      assert forall g :: IsCandidate(origin, originRisk, forecasts, g) ==> g in gates;
      None
    else
      Some(Least(before, forecasts, gates))
  }

  /** `a` comes before `b`: of lower risk, at one risk of lower score, at one score of smaller id. */
  predicate Preferred(before: GateOrder, forecasts: Forecasts, a: GateId, b: GateId) {
    || Order(GateRisk(forecasts, a)) < Order(GateRisk(forecasts, b))
    || (GateRisk(forecasts, a) == GateRisk(forecasts, b) && GateScore(forecasts, a) < GateScore(forecasts, b))
    || (GateRisk(forecasts, a) == GateRisk(forecasts, b) && GateScore(forecasts, a) == GateScore(forecasts, b)
        && before(a, b))
  }

  lemma AlternativePreferred(before: GateOrder, origin: GateId, originRisk: RiskLevel, forecasts: Forecasts)
    requires StrictTotalOrder(before)
    ensures var best := Alternative(before, origin, originRisk, forecasts);
      best.Some? ==> forall g | IsCandidate(origin, originRisk, forecasts, g) && g != best.value ::
        Preferred(before, forecasts, best.value, g)
  {
    var gates := Candidates(origin, originRisk, forecasts);
    if gates != {} {
      var best := Least(before, forecasts, gates);
      forall g | g in gates && g != best ensures Preferred(before, forecasts, best, g) {
        assert before(best, g) || before(g, best);
      }
    }
  }

  /**
   `pickAlternativeGate`: collects the candidates in whatever order the map yields its entries,
   sorts them and takes the first. The answer does not depend on that order.
   */
  method PickAlternativeGate(before: GateOrder, origin: GateId, originRisk: RiskLevel, forecasts: Forecasts)
    returns (r: Option<GateId>)
    requires StrictTotalOrder(before)
    ensures r == Alternative(before, origin, originRisk, forecasts)
    ensures r.Some? ==> forall g | IsCandidate(origin, originRisk, forecasts, g) && g != r.value ::
      Preferred(before, forecasts, r.value, g)
  {
    AlternativePreferred(before, origin, originRisk, forecasts);
    var candidates: seq<Candidate> := [];
    var remaining := forecasts.Keys;
    while remaining != {}
      invariant remaining <= forecasts.Keys
      invariant forall c :: c in candidates <==>
        c.gateId !in remaining && IsCandidate(origin, originRisk, forecasts, c.gateId)
          && c == CandidateOf(forecasts, c.gateId)
      decreases |remaining|
    {
      var gateId :| gateId in remaining;
      remaining := remaining - {gateId};
      if gateId == origin {
        continue;
      }
      var risk := GateRisk(forecasts, gateId);
      if Order(risk) < Order(originRisk) {
        candidates := candidates + [Candidate(gateId, Order(risk), GateScore(forecasts, gateId))];
      }
    }
    ghost var gates := Candidates(origin, originRisk, forecasts);
    assert forall g :: g in gates ==> CandidateOf(forecasts, g) in candidates;
    if |candidates| == 0 {
      return None;
    }
    ComparatorOrders(before);
    SortedHead(Comparator(before), candidates);
    candidates := SortBy(Comparator(before), candidates);
    assert IsLeast(before, forecasts, gates, candidates[0].gateId);
    LeastUnique(before, forecasts, gates, candidates[0].gateId, Least(before, forecasts, gates));
    return Some(candidates[0].gateId);
  }

  // ---------- Optimality over all other gates ----------

  /** Every forecast's risk is the band of its score (an absent current point reads as 0, LOW). */
  predicate Consistent(forecasts: Forecasts) {
    forall g | g in forecasts :: DeriveRiskLevel(ScoreOf(forecasts[g])) == Some(RiskOf(forecasts[g]))
  }

  /** `best` has the least (score, id) among the gates other than `origin`. */
  ghost predicate LeastScored(before: GateOrder, origin: GateId, forecasts: Forecasts, best: GateId) {
    && best in forecasts && best != origin
    && forall g | g in forecasts && g != origin && g != best ::
         || GateScore(forecasts, best) < GateScore(forecasts, g)
         || (GateScore(forecasts, best) == GateScore(forecasts, g) && before(best, g))
  }

  /**
   With consistent forecasts the answer is the gate of least (score, id) among all other gates,
   exactly when that gate has strictly lower risk than the origin; otherwise there is none.
   */
  lemma SelectionOptimal(before: GateOrder, origin: GateId, originRisk: RiskLevel, forecasts: Forecasts, best: GateId)
    requires StrictTotalOrder(before) && Consistent(forecasts)
    requires LeastScored(before, origin, forecasts, best)
    ensures Alternative(before, origin, originRisk, forecasts)
         == if Order(GateRisk(forecasts, best)) < Order(originRisk) then Some(best) else None
  {
    var gates := Candidates(origin, originRisk, forecasts);
    forall g | g in gates ensures Order(GateRisk(forecasts, best)) <= Order(GateRisk(forecasts, g)) {
    }
    if Order(GateRisk(forecasts, best)) < Order(originRisk) {
      assert best in gates;
      assert IsLeast(before, forecasts, gates, best);
      LeastUnique(before, forecasts, gates, best, Least(before, forecasts, gates));
    }
  }

  /** Such a gate always exists when there is another gate at all; with none, there is no alternative. */
  lemma LeastScoredExists(before: GateOrder, origin: GateId, originRisk: RiskLevel, forecasts: Forecasts)
    requires StrictTotalOrder(before) && Consistent(forecasts)
    ensures (exists best :: LeastScored(before, origin, forecasts, best)) <==> forecasts.Keys - {origin} != {}
    ensures forecasts.Keys - {origin} == {} ==> Alternative(before, origin, originRisk, forecasts) == None
  {
    var others := forecasts.Keys - {origin};
    if others != {} {
      var best := Least(before, forecasts, others);
      forall g | g in forecasts && g != origin && g != best
        ensures GateScore(forecasts, best) < GateScore(forecasts, g)
             || (GateScore(forecasts, best) == GateScore(forecasts, g) && before(best, g))
      {
        assert g in others;
        assert g == best || before(best, g) || before(g, best);
      }
      assert LeastScored(before, origin, forecasts, best);
    } else {
      assert forall g | g in forecasts :: g == origin || g in others;
    }
  }

  // ---------- Stability under a worsening origin ----------

  /**
   Replacing the origin's own forecast and raising its risk never changes an alternative that
   was already available: the newly admitted gates all come after it.
   */
  lemma AlternativeStable(
      before: GateOrder, origin: GateId, risk: RiskLevel, risk': RiskLevel, forecasts: Forecasts,
      forecast': ForecastResult)
    requires StrictTotalOrder(before) && Order(risk) <= Order(risk')
    requires Alternative(before, origin, risk, forecasts).Some?
    ensures Alternative(before, origin, risk', forecasts[origin := forecast'])
        == Alternative(before, origin, risk, forecasts)
  {
    var forecasts' := forecasts[origin := forecast'];
    var gates, gates' := Candidates(origin, risk, forecasts), Candidates(origin, risk', forecasts');
    var best := Alternative(before, origin, risk, forecasts).value;
    assert forall g | g != origin :: CandidateOf(forecasts', g) == CandidateOf(forecasts, g);
    assert best in gates';
    forall g | g in gates'
      ensures !Comparator(before)(CandidateOf(forecasts', g), CandidateOf(forecasts', best))
    {
      if g !in gates {
        assert Order(GateRisk(forecasts, g)) >= Order(risk) > Order(GateRisk(forecasts, best));
      }
    }
    assert IsLeast(before, forecasts', gates', best);
    LeastUnique(before, forecasts', gates', best, Least(before, forecasts', gates'));
  }
}
