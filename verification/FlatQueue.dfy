/**
 The reference queue: one list of queued events in arrival order, and a ledger of everything
 that ever happened to an offered event. `IntakeQueue` shows that the four-bucket class of
 src/signal-ingestion/priority-queue.ts moves through exactly these ledgers.
 */
module FlatQueue {
  import opened Domain

  datatype QueuedEvent = QueuedEvent(event: SignalEvent, gateRisk: RiskLevel, enqueuedAt: Time)

  function Level(e: QueuedEvent): int {
    Order(e.gateRisk)
  }

  /** The events of one risk level, in order. */
  function OfLevel(s: seq<QueuedEvent>, risk: RiskLevel): seq<QueuedEvent> {
    if s == [] then
      []
    else
      var n := |s| - 1;
      OfLevel(s[..n], risk) + if s[n].gateRisk == risk then [s[n]] else []
  }

  function RemoveAt(s: seq<QueuedEvent>, i: nat): seq<QueuedEvent>
    requires i < |s|
  {
    s[..i] + s[i + 1..]
  }

  /** The index of the earliest event of the highest level. */
  function FirstMax(s: seq<QueuedEvent>): (i: nat)
    requires s != []
    ensures i < |s|
    ensures forall j | 0 <= j < |s| :: Level(s[j]) <= Level(s[i])
    ensures forall j | 0 <= j < i :: Level(s[j]) < Level(s[i])
  {
    var n := |s| - 1;
    if n == 0 then 0
    else
      var i := FirstMax(s[..n]);
      if Level(s[n]) > Level(s[i]) then n else i
  }

  /** The index of the earliest event of the lowest level. */
  function FirstMin(s: seq<QueuedEvent>): (i: nat)
    requires s != []
    ensures i < |s|
    ensures forall j | 0 <= j < |s| :: Level(s[i]) <= Level(s[j])
    ensures forall j | 0 <= j < i :: Level(s[i]) < Level(s[j])
  {
    var n := |s| - 1;
    if n == 0 then 0
    else
      var i := FirstMin(s[..n]);
      if Level(s[n]) < Level(s[i]) then n else i
  }

  // ---------- The machine ----------

  /**
   `kept` is the queue. `departed` lists every event that left it from the front, in order of
   leaving, whether it was dequeued (`taken`) or shed (`shed`).
   */
  datatype Ledger = Ledger(
    offered: seq<QueuedEvent>,
    accepted: seq<QueuedEvent>,
    kept: seq<QueuedEvent>,
    departed: seq<QueuedEvent>,
    taken: seq<QueuedEvent>,
    shed: seq<QueuedEvent>,
    dropped: seq<QueuedEvent>)

  const EMPTY: Ledger := Ledger([], [], [], [], [], [], [])

  datatype Op = Offer(item: QueuedEvent) | Take | Drain

  /** A full queue with nothing strictly below the newcomer drops the newcomer. */
  predicate Drops(capacity: int, kept: seq<QueuedEvent>, item: QueuedEvent) {
    |kept| >= capacity && (kept == [] || Level(kept[FirstMin(kept)]) >= Level(item))
  }

  function ShedOne(l: Ledger): Ledger
    requires l.kept != []
  {
    var i := FirstMin(l.kept);
    l.(kept := RemoveAt(l.kept, i), departed := l.departed + [l.kept[i]], shed := l.shed + [l.kept[i]])
  }

  function Accept(l: Ledger, item: QueuedEvent): Ledger {
    l.(offered := l.offered + [item], accepted := l.accepted + [item], kept := l.kept + [item])
  }

  function OfferTo(capacity: int, l: Ledger, item: QueuedEvent): Ledger {
    if Drops(capacity, l.kept, item) then
      l.(offered := l.offered + [item], dropped := l.dropped + [item])
    else if |l.kept| >= capacity then
      Accept(ShedOne(l), item)
    else
      Accept(l, item)
  }

  function TakeFrom(l: Ledger): Ledger {
    if l.kept == [] then
      l
    else
      var i := FirstMax(l.kept);
      l.(kept := RemoveAt(l.kept, i), departed := l.departed + [l.kept[i]], taken := l.taken + [l.kept[i]])
  }

  function DrainFrom(l: Ledger): Ledger
    decreases |l.kept|
  {
    if l.kept == [] then l else DrainFrom(TakeFrom(l))
  }

  function Next(capacity: int, l: Ledger, op: Op): Ledger {
    match op
    case Offer(item) => OfferTo(capacity, l, item)
    case Take => TakeFrom(l)
    case Drain => DrainFrom(l)
  }

  function Run(capacity: int, ops: seq<Op>): Ledger {
    if ops == [] then EMPTY
    else Next(capacity, Run(capacity, ops[..|ops| - 1]), ops[|ops| - 1])
  }

  // ---------- Lists by level ----------

  lemma {:induction false} OfLevelAppend(a: seq<QueuedEvent>, b: seq<QueuedEvent>, risk: RiskLevel)
    ensures OfLevel(a + b, risk) == OfLevel(a, risk) + OfLevel(b, risk)
  {
    if b == [] {
      assert a + b == a;
    } else {
      var n := |b| - 1;
      assert (a + b)[..|a| + n] == a + b[..n];
      OfLevelAppend(a, b[..n], risk);
    }
  }

  lemma OfLevelOne(e: QueuedEvent, risk: RiskLevel)
    ensures OfLevel([e], risk) == if e.gateRisk == risk then [e] else []
  {
    assert [e][..0] == [];
  }

  lemma {:induction false} OfLevelMembers(s: seq<QueuedEvent>, risk: RiskLevel)
    ensures forall e :: e in OfLevel(s, risk) <==> e in s && e.gateRisk == risk
    ensures |OfLevel(s, risk)| <= |s|
  {
    if s != [] {
      var n := |s| - 1;
      assert s == s[..n] + [s[n]];
      OfLevelMembers(s[..n], risk);
    }
  }

  lemma {:induction false} OfLevelNone(s: seq<QueuedEvent>, risk: RiskLevel)
    requires forall e | e in s :: e.gateRisk != risk
    ensures OfLevel(s, risk) == []
  {
    if s != [] {
      OfLevelNone(s[..|s| - 1], risk);
    }
  }

  lemma {:induction false} LevelsPartition(s: seq<QueuedEvent>)
    ensures |s| == |OfLevel(s, LOW)| + |OfLevel(s, MODERATE)| + |OfLevel(s, HIGH)| + |OfLevel(s, CRITICAL)|
    ensures multiset(s) == multiset(OfLevel(s, LOW)) + multiset(OfLevel(s, MODERATE))
                         + multiset(OfLevel(s, HIGH)) + multiset(OfLevel(s, CRITICAL))
  {
    if s != [] {
      var n := |s| - 1;
      assert s == s[..n] + [s[n]];
      LevelsPartition(s[..n]);
    }
  }

  /** Removing the earliest event of a level takes the head off that level and nothing else. */
  lemma RemoveHeadOfLevel(s: seq<QueuedEvent>, i: nat, risk: RiskLevel)
    requires i < |s|
    requires forall j | 0 <= j < i :: s[j].gateRisk != s[i].gateRisk
    ensures s[i].gateRisk != risk ==> OfLevel(RemoveAt(s, i), risk) == OfLevel(s, risk)
    ensures s[i].gateRisk == risk ==> OfLevel(s, risk) == [s[i]] + OfLevel(RemoveAt(s, i), risk)
  {
    assert s == s[..i] + ([s[i]] + s[i + 1..]);
    OfLevelAppend(s[..i], [s[i]] + s[i + 1..], risk);
    OfLevelAppend([s[i]], s[i + 1..], risk);
    OfLevelAppend(s[..i], s[i + 1..], risk);
    OfLevelOne(s[i], risk);
    if s[i].gateRisk == risk {
      OfLevelNone(s[..i], risk);
    }
  }

  // ---------- What every run keeps ----------

  /** Nothing is invented, lost or duplicated, and the bound holds. */
  ghost predicate Conserved(capacity: int, l: Ledger) {
    && multiset(l.offered) == multiset(l.kept) + multiset(l.taken) + multiset(l.shed) + multiset(l.dropped)
    && multiset(l.departed) == multiset(l.taken) + multiset(l.shed)
    && |l.kept| <= Size(capacity)
  }

  /** Within a level events leave in the order they were accepted, so none is overtaken. */
  ghost predicate Fair(l: Ledger) {
    forall risk :: OfLevel(l.departed, risk) + OfLevel(l.kept, risk) == OfLevel(l.accepted, risk)
  }

  function Size(capacity: int): nat {
    if capacity > 0 then capacity else 0
  }

  lemma RemoveKeepsLevelOrder(s: seq<QueuedEvent>, i: nat, before: seq<QueuedEvent>, risk: RiskLevel)
    requires i < |s|
    requires forall j | 0 <= j < i :: s[j].gateRisk != s[i].gateRisk
    ensures OfLevel(before + [s[i]], risk) + OfLevel(RemoveAt(s, i), risk) == OfLevel(before, risk) + OfLevel(s, risk)
  {
    hide OfLevel;
    RemoveHeadOfLevel(s, i, risk);
    OfLevelAppend(before, [s[i]], risk);
    OfLevelOne(s[i], risk);
    var x, b, rest := OfLevel([s[i]], risk), OfLevel(before, risk), OfLevel(RemoveAt(s, i), risk);
    assert (b + x) + rest == b + (x + rest);
    assert [] + rest == rest;
  }

  lemma RemoveAtMultiset(s: seq<QueuedEvent>, i: nat)
    requires i < |s|
    ensures multiset(s) == multiset(RemoveAt(s, i)) + multiset{s[i]}
  {
    assert s == s[..i] + [s[i]] + s[i + 1..];
  }

  lemma RemoveFair(l: Ledger, i: nat)
    requires Fair(l) && i < |l.kept|
    requires forall j | 0 <= j < i :: l.kept[j].gateRisk != l.kept[i].gateRisk
    ensures Fair(l.(kept := RemoveAt(l.kept, i), departed := l.departed + [l.kept[i]]))
  {
    hide OfLevel;
    var m := l.(kept := RemoveAt(l.kept, i), departed := l.departed + [l.kept[i]]);
    forall risk ensures OfLevel(m.departed, risk) + OfLevel(m.kept, risk) == OfLevel(m.accepted, risk) {
      RemoveKeepsLevelOrder(l.kept, i, l.departed, risk);
    }
  }

  lemma AcceptFair(l: Ledger, item: QueuedEvent)
    requires Fair(l)
    ensures Fair(Accept(l, item))
  {
    hide OfLevel;
    var m := Accept(l, item);
    forall risk ensures OfLevel(m.departed, risk) + OfLevel(m.kept, risk) == OfLevel(m.accepted, risk) {
      OfLevelAppend(l.kept, [item], risk);
      OfLevelAppend(l.accepted, [item], risk);
    }
  }

  lemma OfferConserved(capacity: int, l: Ledger, item: QueuedEvent)
    requires Conserved(capacity, l)
    ensures Conserved(capacity, OfferTo(capacity, l, item))
  {
    if !Drops(capacity, l.kept, item) && |l.kept| >= capacity {
      RemoveAtMultiset(l.kept, FirstMin(l.kept));
    }
  }

  lemma OfferFair(capacity: int, l: Ledger, item: QueuedEvent)
    requires Fair(l)
    ensures Fair(OfferTo(capacity, l, item))
  {
    hide OfLevel;
    if Drops(capacity, l.kept, item) {
    } else if |l.kept| >= capacity {
      RemoveFair(l, FirstMin(l.kept));
      AcceptFair(ShedOne(l), item);
    } else {
      AcceptFair(l, item);
    }
  }

  lemma TakeKeeps(capacity: int, l: Ledger)
    requires Conserved(capacity, l) && Fair(l)
    ensures Conserved(capacity, TakeFrom(l)) && Fair(TakeFrom(l))
  {
    hide OfLevel;
    if l.kept != [] {
      RemoveAtMultiset(l.kept, FirstMax(l.kept));
      RemoveFair(l, FirstMax(l.kept));
    }
  }

  lemma {:induction false} DrainKeeps(capacity: int, l: Ledger)
    requires Conserved(capacity, l) && Fair(l)
    ensures Conserved(capacity, DrainFrom(l)) && Fair(DrainFrom(l))
    decreases |l.kept|
  {
    hide OfLevel;
    if l.kept != [] {
      TakeKeeps(capacity, l);
      DrainKeeps(capacity, TakeFrom(l));
    }
  }

  /** Conservation, bound and first-in-first-out per level, over every run. */
  lemma {:induction false} RunKeeps(capacity: int, ops: seq<Op>)
    ensures Conserved(capacity, Run(capacity, ops)) && Fair(Run(capacity, ops))
  {
    if ops == [] {
    } else {
      var n := |ops| - 1;
      RunKeeps(capacity, ops[..n]);
      var l := Run(capacity, ops[..n]);
      match ops[n]
      case Offer(item) =>
        OfferConserved(capacity, l, item);
        OfferFair(capacity, l, item);
      case Take => TakeKeeps(capacity, l);
      case Drain => DrainKeeps(capacity, l);
    }
  }

  /**
   No inversion, at any step of any run: an event is lost only by an offer to a full queue,
   at most one per offer, and everything kept afterwards is of at least its level.
   */
  lemma NoInversion(capacity: int, l: Ledger, op: Op)
    ensures var m := Next(capacity, l, op);
      && (op.Offer? ==>
            var lost := m.shed[|l.shed|..] + m.dropped[|l.dropped|..];
            && l.shed <= m.shed && l.dropped <= m.dropped
            && (lost != [] <==> |l.kept| >= capacity)
            && |lost| <= 1
            && forall e, k :: e in lost && k in m.kept ==> Level(e) <= Level(k))
      && (!op.Offer? ==> m.shed == l.shed && m.dropped == l.dropped)
  {
    if op.Offer? {
      var m := OfferTo(capacity, l, op.item);
      if Drops(capacity, l.kept, op.item) {
        assert m.shed[|l.shed|..] == [] && m.dropped[|l.dropped|..] == [op.item];
      } else if |l.kept| >= capacity {
        assert m.shed[|l.shed|..] == [l.kept[FirstMin(l.kept)]] && m.dropped[|l.dropped|..] == [];
      } else {
        assert m.shed[|l.shed|..] == [] && m.dropped[|l.dropped|..] == [];
      }
    } else if op.Drain? {
      DrainLosesNothing(l);
    }
  }

  lemma {:induction false} DrainLosesNothing(l: Ledger)
    ensures DrainFrom(l).shed == l.shed && DrainFrom(l).dropped == l.dropped
    ensures DrainFrom(l).offered == l.offered && DrainFrom(l).accepted == l.accepted
    ensures DrainFrom(l).kept == []
    decreases |l.kept|
  {
    if l.kept != [] {
      DrainLosesNothing(TakeFrom(l));
    }
  }

  // ---------- Draining is a stable sort by descending level ----------

  function PriorityOrder(s: seq<QueuedEvent>): seq<QueuedEvent> {
    OfLevel(s, CRITICAL) + OfLevel(s, HIGH) + OfLevel(s, MODERATE) + OfLevel(s, LOW)
  }

  ghost predicate Descending(s: seq<QueuedEvent>) {
    forall i, j :: 0 <= i < j < |s| ==> Level(s[i]) >= Level(s[j])
  }

  lemma FirstMaxHeadsOrder(s: seq<QueuedEvent>)
    requires s != []
    ensures PriorityOrder(s) == [s[FirstMax(s)]] + PriorityOrder(RemoveAt(s, FirstMax(s)))
  {
    var i := FirstMax(s);
    forall risk: RiskLevel | Order(risk) > Level(s[i]) ensures OfLevel(s, risk) == [] {
      OfLevelNone(s, risk);
    }
    RemoveHeadOfLevel(s, i, CRITICAL);
    RemoveHeadOfLevel(s, i, HIGH);
    RemoveHeadOfLevel(s, i, MODERATE);
    RemoveHeadOfLevel(s, i, LOW);
    MoveHead(s[i], OfLevel(s, CRITICAL), OfLevel(s, HIGH), OfLevel(s, MODERATE), OfLevel(s, LOW),
             OfLevel(RemoveAt(s, i), CRITICAL), OfLevel(RemoveAt(s, i), HIGH), OfLevel(RemoveAt(s, i), MODERATE),
             OfLevel(RemoveAt(s, i), LOW));
  }

  lemma MoveHead<T>(x: T, c: seq<T>, h: seq<T>, m: seq<T>, o: seq<T>, c': seq<T>, h': seq<T>, m': seq<T>, o': seq<T>)
    requires
      || (c == [x] + c' && h == h' && m == m' && o == o')
      || (c == c' == [] && h == [x] + h' && m == m' && o == o')
      || (c == c' == [] && h == h' == [] && m == [x] + m' && o == o')
      || (c == c' == [] && h == h' == [] && m == m' == [] && o == [x] + o')
    ensures c + h + m + o == [x] + (c' + h' + m' + o')
  {
  }

  lemma {:induction false} DrainOrder(l: Ledger)
    ensures DrainFrom(l).taken == l.taken + PriorityOrder(l.kept)
    decreases |l.kept|
  {
    if l.kept != [] {
      DrainOrder(TakeFrom(l));
      FirstMaxHeadsOrder(l.kept);
    }
  }

  lemma PriorityOrderLevels(s: seq<QueuedEvent>, risk: RiskLevel)
    ensures OfLevel(PriorityOrder(s), risk) == OfLevel(s, risk)
  {
    hide OfLevel;
    var c, h, m, o := OfLevel(s, CRITICAL), OfLevel(s, HIGH), OfLevel(s, MODERATE), OfLevel(s, LOW);
    OfLevelAppend(c + h + m, o, risk);
    OfLevelAppend(c + h, m, risk);
    OfLevelAppend(c, h, risk);
    OfLevelTwice(s, CRITICAL, risk);
    OfLevelTwice(s, HIGH, risk);
    OfLevelTwice(s, MODERATE, risk);
    OfLevelTwice(s, LOW, risk);
  }

  lemma {:induction false} OfLevelTwice(s: seq<QueuedEvent>, inner: RiskLevel, outer: RiskLevel)
    ensures OfLevel(OfLevel(s, inner), outer) == if inner == outer then OfLevel(s, inner) else []
  {
    if s != [] {
      var n := |s| - 1;
      OfLevelTwice(s[..n], inner, outer);
      OfLevelAppend(OfLevel(s[..n], inner), if s[n].gateRisk == inner then [s[n]] else [], outer);
      OfLevelOne(s[n], outer);
    }
  }

  /** How many events are strictly above a level. */
  function CountAbove(s: seq<QueuedEvent>, risk: RiskLevel): nat {
    (if Order(risk) < 3 then |OfLevel(s, CRITICAL)| else 0)
    + (if Order(risk) < 2 then |OfLevel(s, HIGH)| else 0)
    + (if Order(risk) < 1 then |OfLevel(s, MODERATE)| else 0)
  }

  /** The four blocks of the priority order, by index. */
  lemma PriorityOrderShape(s: seq<QueuedEvent>)
    ensures var p := PriorityOrder(s);
      && |p| == |s|
      && forall i | 0 <= i < |p| ::
          CountAbove(s, p[i].gateRisk) <= i < CountAbove(s, p[i].gateRisk) + |OfLevel(s, p[i].gateRisk)|
  {
    hide OfLevel;
    LevelsPartition(s);
    OfLevelMembers(s, CRITICAL);
    OfLevelMembers(s, HIGH);
    OfLevelMembers(s, MODERATE);
    OfLevelMembers(s, LOW);
    var c, h, m := |OfLevel(s, CRITICAL)|, |OfLevel(s, HIGH)|, |OfLevel(s, MODERATE)|;
    var p := PriorityOrder(s);
    forall i | 0 <= i < |p|
      ensures CountAbove(s, p[i].gateRisk) <= i < CountAbove(s, p[i].gateRisk) + |OfLevel(s, p[i].gateRisk)|
    {
      if i < c {
        assert p[i] in OfLevel(s, CRITICAL);
      } else if i < c + h {
        assert p[i] in OfLevel(s, HIGH);
      } else if i < c + h + m {
        assert p[i] in OfLevel(s, MODERATE);
      } else {
        assert p[i] in OfLevel(s, LOW);
      }
    }
  }

  lemma PriorityOrderDescends(s: seq<QueuedEvent>)
    ensures Descending(PriorityOrder(s))
  {
    PriorityOrderShape(s);
  }

  /** A descending list is determined by its four level sublists. */
  lemma {:induction false} DescendingUnique(s: seq<QueuedEvent>, t: seq<QueuedEvent>)
    requires Descending(s) && Descending(t)
    requires forall risk :: OfLevel(s, risk) == OfLevel(t, risk)
    ensures s == t
    decreases |s|
  {
    hide OfLevel;
    SameLength(s, t);
    if s != [] {
      var n := |s| - 1;
      LastOfDescending(s, t);
      forall risk ensures OfLevel(s[..n], risk) == OfLevel(t[..n], risk) {
        DropLast(s, t, risk);
      }
      DescendingUnique(s[..n], t[..n]);
      assert s == s[..n] + [s[n]] && t == t[..n] + [t[n]];
    }
  }

  lemma SameLength(s: seq<QueuedEvent>, t: seq<QueuedEvent>)
    requires forall risk :: OfLevel(s, risk) == OfLevel(t, risk)
    ensures |s| == |t|
  {
    LevelsPartition(s);
    LevelsPartition(t);
    assert OfLevel(s, LOW) == OfLevel(t, LOW) && OfLevel(s, MODERATE) == OfLevel(t, MODERATE);
    assert OfLevel(s, HIGH) == OfLevel(t, HIGH) && OfLevel(s, CRITICAL) == OfLevel(t, CRITICAL);
  }

  lemma DropLast(s: seq<QueuedEvent>, t: seq<QueuedEvent>, risk: RiskLevel)
    requires |s| == |t| > 0 && s[|s| - 1] == t[|t| - 1]
    requires OfLevel(s, risk) == OfLevel(t, risk)
    ensures OfLevel(s[..|s| - 1], risk) == OfLevel(t[..|t| - 1], risk)
  {
    var a, b := OfLevel(s[..|s| - 1], risk), OfLevel(t[..|t| - 1], risk);
    if s[|s| - 1].gateRisk == risk {
      assert a == (a + [s[|s| - 1]])[..|a|] && b == (b + [t[|t| - 1]])[..|b|];
    } else {
      assert a + [] == a && b + [] == b;
    }
  }

  lemma LastIsLastOfLevel(s: seq<QueuedEvent>)
    requires s != []
    ensures var own := OfLevel(s, s[|s| - 1].gateRisk); own != [] && own[|own| - 1] == s[|s| - 1]
  {
  }

  lemma LastOfDescending(s: seq<QueuedEvent>, t: seq<QueuedEvent>)
    requires |s| == |t| > 0
    requires Descending(s) && Descending(t)
    requires forall risk :: OfLevel(s, risk) == OfLevel(t, risk)
    ensures s[|s| - 1] == t[|t| - 1]
  {
    hide OfLevel;
    var a, b := s[|s| - 1], t[|t| - 1];
    LastIsLastOfLevel(s);
    LastIsLastOfLevel(t);
    assert a in t by {
      OfLevelMembers(s, a.gateRisk);
      OfLevelMembers(t, a.gateRisk);
    }
    assert b in s by {
      OfLevelMembers(s, b.gateRisk);
      OfLevelMembers(t, b.gateRisk);
    }
    assert a.gateRisk == b.gateRisk;
    assert OfLevel(s, a.gateRisk) == OfLevel(t, a.gateRisk);
  }

  /**
   A drain empties the queue and hands out the one list that is descending by level and keeps
   each level's events in order: the stable sort.
   */
  lemma DrainIsStableSort(l: Ledger, sorted: seq<QueuedEvent>)
    requires Descending(sorted) && forall risk :: OfLevel(sorted, risk) == OfLevel(l.kept, risk)
    ensures DrainFrom(l).kept == [] && DrainFrom(l).taken == l.taken + sorted
  {
    DrainLosesNothing(l);
    DrainOrder(l);
    PriorityOrderDescends(l.kept);
    forall risk ensures OfLevel(sorted, risk) == OfLevel(PriorityOrder(l.kept), risk) {
      PriorityOrderLevels(l.kept, risk);
    }
    DescendingUnique(sorted, PriorityOrder(l.kept));
  }

  // ---------- Enqueues only: the queue holds the top `capacity` ----------

  function Offers(items: seq<QueuedEvent>): seq<Op> {
    seq(|items|, i requires 0 <= i < |items| => Offer(items[i]))
  }

  ghost predicate KeepsBest(capacity: int, l: Ledger) {
    && l.taken == []
    && (l.shed + l.dropped != [] ==> |l.kept| == Size(capacity))
    && (forall e, k :: e in l.shed + l.dropped && k in l.kept ==> Level(e) <= Level(k))
    && (forall risk ::
          OfLevel(l.shed, risk) + OfLevel(l.kept, risk) + OfLevel(l.dropped, risk) == OfLevel(l.offered, risk))
  }

  lemma DropKeepsBest(capacity: int, l: Ledger, item: QueuedEvent)
    requires Conserved(capacity, l) && KeepsBest(capacity, l)
    requires Drops(capacity, l.kept, item)
    ensures KeepsBest(capacity, OfferTo(capacity, l, item))
  {
    var m := OfferTo(capacity, l, item);
    forall risk ensures OfLevel(m.shed, risk) + OfLevel(m.kept, risk) + OfLevel(m.dropped, risk)
        == OfLevel(m.offered, risk) {
      assert OfLevel(l.shed, risk) + OfLevel(l.kept, risk) + OfLevel(l.dropped, risk) == OfLevel(l.offered, risk);
      DropKeepsBlocks(l, item, risk);
    }
  }

  lemma DropKeepsBlocks(l: Ledger, item: QueuedEvent, risk: RiskLevel)
    requires OfLevel(l.shed, risk) + OfLevel(l.kept, risk) + OfLevel(l.dropped, risk) == OfLevel(l.offered, risk)
    ensures OfLevel(l.shed, risk) + OfLevel(l.kept, risk) + OfLevel(l.dropped + [item], risk)
        == OfLevel(l.offered + [item], risk)
  {
    OfLevelAppend(l.dropped, [item], risk);
    OfLevelAppend(l.offered, [item], risk);
  }

  /** An accepted event's level was never dropped before, so the level's blocks stay contiguous. */
  lemma AcceptKeepsBlocks(l: Ledger, item: QueuedEvent, risk: RiskLevel)
    requires OfLevel(l.shed, risk) + OfLevel(l.kept, risk) + OfLevel(l.dropped, risk) == OfLevel(l.offered, risk)
    requires forall e | e in l.dropped :: e.gateRisk != item.gateRisk
    ensures var m := Accept(l, item);
      OfLevel(m.shed, risk) + OfLevel(m.kept, risk) + OfLevel(m.dropped, risk) == OfLevel(m.offered, risk)
  {
    hide OfLevel;
    OfLevelAppend(l.kept, [item], risk);
    OfLevelAppend(l.offered, [item], risk);
    OfLevelOne(item, risk);
    var x, before := OfLevel([item], risk), OfLevel(l.shed, risk);
    var kept, dropped := OfLevel(l.kept, risk), OfLevel(l.dropped, risk);
    if item.gateRisk == risk {
      OfLevelNone(l.dropped, risk);
      assert before + (kept + x) + [] == before + kept + [] + x;
    } else {
      assert kept + [] == kept;
    }
  }

  lemma ShedKeepsBlocks(l: Ledger, risk: RiskLevel)
    requires l.kept != []
    requires OfLevel(l.shed, risk) + OfLevel(l.kept, risk) + OfLevel(l.dropped, risk) == OfLevel(l.offered, risk)
    ensures var m := ShedOne(l);
      OfLevel(m.shed, risk) + OfLevel(m.kept, risk) + OfLevel(m.dropped, risk) == OfLevel(m.offered, risk)
  {
    RemoveKeepsLevelOrder(l.kept, FirstMin(l.kept), l.shed, risk);
  }

  lemma OfferKeepsBest(capacity: int, l: Ledger, item: QueuedEvent)
    requires Conserved(capacity, l) && KeepsBest(capacity, l)
    ensures KeepsBest(capacity, OfferTo(capacity, l, item))
  {
    hide OfLevel;
    if Drops(capacity, l.kept, item) {
      DropKeepsBest(capacity, l, item);
    } else if |l.kept| >= capacity {
      var i := FirstMin(l.kept);
      var m := ShedOne(l);
      var after := OfferTo(capacity, l, item);
      forall risk
        ensures OfLevel(after.shed, risk) + OfLevel(after.kept, risk) + OfLevel(after.dropped, risk)
            == OfLevel(after.offered, risk)
      {
        assert OfLevel(l.shed, risk) + OfLevel(l.kept, risk) + OfLevel(l.dropped, risk) == OfLevel(l.offered, risk);
        ShedKeepsBlocks(l, risk);
        assert forall e | e in l.dropped :: e in l.shed + l.dropped && Level(e) <= Level(l.kept[i]);
        AcceptKeepsBlocks(m, item, risk);
      }
      forall e, k | e in after.shed + after.dropped && k in after.kept ensures Level(e) <= Level(k) {
        if e in l.shed + l.dropped {
          assert l.kept[i] in l.kept;
          assert Level(e) <= Level(l.kept[i]);
        }
      }
    } else {
      var after := OfferTo(capacity, l, item);
      assert l.shed + l.dropped == [] && l.dropped == [];
      forall risk
        ensures OfLevel(after.shed, risk) + OfLevel(after.kept, risk) + OfLevel(after.dropped, risk)
            == OfLevel(after.offered, risk)
      {
        assert OfLevel(l.shed, risk) + OfLevel(l.kept, risk) + OfLevel(l.dropped, risk) == OfLevel(l.offered, risk);
        AcceptKeepsBlocks(l, item, risk);
      }
    }
  }

  lemma {:induction false} OffersKeepBest(capacity: int, items: seq<QueuedEvent>)
    ensures var l := Run(capacity, Offers(items)); l.offered == items && KeepsBest(capacity, l)
  {
    var ops := Offers(items);
    if items == [] {
      forall risk ensures OfLevel([], risk) + OfLevel([], risk) + OfLevel([], risk) == OfLevel([], risk) {
      }
    } else {
      var n := |items| - 1;
      assert ops[..n] == Offers(items[..n]);
      assert items == items[..n] + [items[n]];
      OffersKeepBest(capacity, items[..n]);
      RunKeeps(capacity, ops[..n]);
      OfferKeepsBest(capacity, Run(capacity, ops[..n]), items[n]);
    }
  }

  /**
   Each level's arrivals split into three consecutive blocks: first the shed ones, then the
   held ones, then the dropped ones.
   */
  lemma LevelBlocks(capacity: int, items: seq<QueuedEvent>, risk: RiskLevel)
    ensures var l := Run(capacity, Offers(items));
      OfLevel(items, risk) == OfLevel(l.shed, risk) + OfLevel(l.kept, risk) + OfLevel(l.dropped, risk)
  {
    OffersKeepBest(capacity, items);
  }

  /** How many events of a level are among the `k` highest of `s`. */
  function TopCount(s: seq<QueuedEvent>, k: nat, risk: RiskLevel): nat {
    var room := k - CountAbove(s, risk);
    if room <= 0 then 0
    else if room < |OfLevel(s, risk)| then room
    else |OfLevel(s, risk)|
  }

  /** `TopCount` counts the level among the first `k` events of the stable priority order. */
  lemma {:induction false} TopCountIsPrefixCount(s: seq<QueuedEvent>, k: nat, risk: RiskLevel)
    requires k <= |s|
    ensures |PriorityOrder(s)| == |s|
    ensures |OfLevel(PriorityOrder(s)[..k], risk)| == TopCount(s, k, risk)
  {
    hide OfLevel;
    PriorityOrderShape(s);
    OfLevelNone([], risk);
    if k > 0 {
      var p := PriorityOrder(s);
      TopCountIsPrefixCount(s, k - 1, risk);
      assert p[..k] == p[..k - 1] + [p[k - 1]];
      OfLevelAppend(p[..k - 1], [p[k - 1]], risk);
      OfLevelOne(p[k - 1], risk);
      NextTop(s, k - 1, p[k - 1].gateRisk, risk);
    }
  }

  /** Ranking one more event raises the count of exactly the level whose block it falls into. */
  lemma NextTop(s: seq<QueuedEvent>, k: nat, level: RiskLevel, risk: RiskLevel)
    requires CountAbove(s, level) <= k < CountAbove(s, level) + |OfLevel(s, level)|
    ensures TopCount(s, k + 1, risk) == TopCount(s, k, risk) + if level == risk then 1 else 0
  {
  }

  /**
   Top-k: after any sequence of enqueues the queue holds, per risk level, exactly as many
   events as the `capacity` first of everything offered, ranked by descending level.
   (All of them, when fewer were offered.)
   */
  lemma TopK(capacity: int, items: seq<QueuedEvent>, risk: RiskLevel)
    ensures var k := if |items| <= Size(capacity) then |items| else Size(capacity);
      && |PriorityOrder(items)| == |items|
      && |OfLevel(Run(capacity, Offers(items)).kept, risk)| == |OfLevel(PriorityOrder(items)[..k], risk)|
  {
    HeldCount(capacity, items, risk);
    LevelsPartition(items);
    if |items| <= Size(capacity) {
      TopCountIsPrefixCount(items, |items|, risk);
    } else {
      TopCountIsPrefixCount(items, Size(capacity), risk);
    }
  }

  lemma HeldCount(capacity: int, items: seq<QueuedEvent>, risk: RiskLevel)
    ensures |OfLevel(Run(capacity, Offers(items)).kept, risk)| == TopCount(items, Size(capacity), risk)
  {
    var l := Run(capacity, Offers(items));
    OffersKeepBest(capacity, items);
    RunKeeps(capacity, Offers(items));
    LevelsPartition(l.kept);
    forall r: RiskLevel
      ensures |OfLevel(items, r)| == |OfLevel(l.shed, r)| + |OfLevel(l.kept, r)| + |OfLevel(l.dropped, r)|
    {
      LevelBlocks(capacity, items, r);
    }
    forall low: RiskLevel, high: RiskLevel | Order(low) < Order(high)
      ensures OfLevel(l.shed, high) + OfLevel(l.dropped, high) != [] ==> OfLevel(l.kept, low) == []
    {
      LostForbidsLower(capacity, l, low, high);
    }
    forall r: RiskLevel | OfLevel(l.shed, r) + OfLevel(l.dropped, r) != []
      ensures |l.kept| == Size(capacity)
    {
      OfLevelMembers(l.shed, r);
      OfLevelMembers(l.dropped, r);
    }
    TopKArithmetic(l, items, Size(capacity), risk);
  }

  lemma LostForbidsLower(capacity: int, l: Ledger, low: RiskLevel, high: RiskLevel)
    requires KeepsBest(capacity, l) && Order(low) < Order(high)
    ensures OfLevel(l.shed, high) + OfLevel(l.dropped, high) != [] ==> OfLevel(l.kept, low) == []
  {
    if OfLevel(l.shed, high) + OfLevel(l.dropped, high) != [] {
      OfLevelAppend(l.shed, l.dropped, high);
      OfLevelMembers(l.shed + l.dropped, high);
      var e := OfLevel(l.shed + l.dropped, high)[0];
      assert e in OfLevel(l.shed + l.dropped, high);
      OfLevelNone(l.kept, low);
    }
  }

  lemma TopKArithmetic(l: Ledger, items: seq<QueuedEvent>, k: nat, risk: RiskLevel)
    requires |l.kept| <= k
    requires |l.kept| == |OfLevel(l.kept, LOW)| + |OfLevel(l.kept, MODERATE)| + |OfLevel(l.kept, HIGH)|
        + |OfLevel(l.kept, CRITICAL)|
    requires forall r :: |OfLevel(items, r)| == |OfLevel(l.shed, r)| + |OfLevel(l.kept, r)| + |OfLevel(l.dropped, r)|
    requires forall r :: OfLevel(l.shed, r) + OfLevel(l.dropped, r) != [] ==> |l.kept| == k
    requires forall low: RiskLevel, high: RiskLevel ::
      Order(low) < Order(high) && OfLevel(l.shed, high) + OfLevel(l.dropped, high) != [] ==> OfLevel(l.kept, low) == []
    ensures |OfLevel(l.kept, risk)| == TopCount(items, k, risk)
  {
  }
}
