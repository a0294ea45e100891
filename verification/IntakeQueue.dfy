/**
 `PriorityIntakeQueue` of src/signal-ingestion/priority-queue.ts: four FIFO buckets, a cached
 size and a shedding policy, refining the flat queue of `FlatQueue`.

 The comment above `enqueue` says that the shed event is returned. The code returns it only
 when the incoming event itself is the one that is lost, and nothing after shedding an older
 event; the contract of `Enqueue` follows the code.
 */
module IntakeQueue {
  import opened Domain
  import opened FlatQueue

  /** A bucket for every level, as the constructor of the source lays them out. */
  type Buckets = b: map<RiskLevel, seq<QueuedEvent>> | forall risk: RiskLevel :: risk in b
    witness map risk: RiskLevel | Order(risk) >= 0 :: []

  const DESCENDING_LEVELS: seq<RiskLevel> := [CRITICAL, HIGH, MODERATE, LOW]
  const ASCENDING_LEVELS: seq<RiskLevel> := [LOW, MODERATE, HIGH, CRITICAL]

  /** The buckets are the level sublists of an arrival-ordered list. */
  ghost predicate Represents(buffers: Buckets, kept: seq<QueuedEvent>) {
    forall risk: RiskLevel :: buffers[risk] == OfLevel(kept, risk)
  }

  class PriorityIntakeQueue {
    var buffers: Buckets
    var size: int
    const capacity: int
    ghost var history: seq<Op>
    ghost var ledger: Ledger

    ghost predicate Valid()
      reads this
    {
      && ledger == Run(capacity, history)
      && size == |ledger.kept|
      && Represents(buffers, ledger.kept)
    }

    constructor (capacity: int)
      ensures Valid() && this.capacity == capacity && history == []
    {
      this.capacity := capacity;
      buffers := map risk: RiskLevel | Order(risk) >= 0 :: [];
      size := 0;
      history, ledger := [], EMPTY;
    }

    /** The cached size is the number of buffered events, within the capacity, each in the bucket of its level. */
    lemma SizeIsBucketSum()
      requires Valid()
      ensures size == |buffers[CRITICAL]| + |buffers[HIGH]| + |buffers[MODERATE]| + |buffers[LOW]|
      ensures 0 <= size <= Size(capacity)
      ensures forall risk, e | e in buffers[risk] :: e.gateRisk == risk
    {
      hide Run, OfLevel;
      RunKeeps(capacity, history);
      LevelsPartition(ledger.kept);
      forall risk: RiskLevel ensures forall e | e in buffers[risk] :: e.gateRisk == risk {
        OfLevelMembers(ledger.kept, risk);
      }
    }

    predicate IsFull()
      reads this
    {
      size >= capacity
    }

    method Enqueue(item: QueuedEvent) returns (lost: Option<QueuedEvent>)
      requires Valid()
      modifies this
      ensures Valid() && history == old(history) + [Offer(item)]
      ensures ledger == OfferTo(capacity, old(ledger), item)
      ensures lost == if Drops(capacity, old(ledger.kept), item) then Some(item) else None
    {
      hide OfLevel, Represents, Run, RemoveAt, FirstMin;
      RunOneMore(capacity, history, Offer(item));
      history := history + [Offer(item)];
      if IsFull() {
        var shed := ShedLowestPriority(item.gateRisk);
        if shed == None {
          ledger := ledger.(offered := ledger.offered + [item], dropped := ledger.dropped + [item]);
          return Some(item);
        }
      }
      PushRepresented(buffers, ledger.kept, item);
      buffers := buffers[item.gateRisk := buffers[item.gateRisk] + [item]];
      size := size + 1;
      ledger := Accept(ledger, item);
      return None;
    }

    /** Removes the earliest event of the lowest level, when that level is below the newcomer's. */
    method ShedLowestPriority(incoming: RiskLevel) returns (shed: Option<QueuedEvent>)
      requires size == |ledger.kept| && Represents(buffers, ledger.kept)
      modifies this
      ensures history == old(history)
      ensures size == |ledger.kept| && Represents(buffers, ledger.kept)
      ensures var kept := old(ledger.kept);
        if kept != [] && Level(kept[FirstMin(kept)]) < Order(incoming) then
          shed == Some(kept[FirstMin(kept)]) && ledger == ShedOne(old(ledger))
        else
          shed == None && ledger == old(ledger)
    {
      hide OfLevel;
      for i := 0 to |ASCENDING_LEVELS|
        invariant ledger == old(ledger) && history == old(history)
        invariant size == |ledger.kept| && Represents(buffers, ledger.kept)
        invariant forall j | 0 <= j < i :: buffers[ASCENDING_LEVELS[j]] == []
      {
        var risk := ASCENDING_LEVELS[i];
        if Order(risk) >= Order(incoming) {
          NothingBelow(buffers, ledger.kept, i);
          return None;
        }
        if |buffers[risk]| > 0 {
          FirstMinIsHead(buffers, ledger.kept, i);
          shed := Some(buffers[risk][0]);
          size := size - 1;
          buffers := buffers[risk := buffers[risk][1..]];
          ledger := ShedOne(ledger);
          return;
        }
      }
      NothingBelow(buffers, ledger.kept, 4);
      return None;
    }

    method Dequeue() returns (next: Option<QueuedEvent>)
      requires Valid()
      modifies this
      ensures Valid() && history == old(history) + [Take]
      ensures ledger == TakeFrom(old(ledger))
      ensures var kept := old(ledger.kept);
        next == if kept == [] then None else Some(kept[FirstMax(kept)])
    {
      RunOneMore(capacity, history, Take);
      next := ShiftHighest();
      history := history + [Take];
    }

    method ShiftHighest() returns (next: Option<QueuedEvent>)
      requires size == |ledger.kept| && Represents(buffers, ledger.kept)
      modifies this
      ensures history == old(history) && ledger == TakeFrom(old(ledger))
      ensures size == |ledger.kept| && Represents(buffers, ledger.kept)
      ensures var kept := old(ledger.kept);
        next == if kept == [] then None else Some(kept[FirstMax(kept)])
    {
      hide OfLevel;
      for i := 0 to |DESCENDING_LEVELS|
        invariant ledger == old(ledger) && history == old(history)
        invariant size == |ledger.kept| && Represents(buffers, ledger.kept)
        invariant forall j | 0 <= j < i :: buffers[DESCENDING_LEVELS[j]] == []
      {
        var risk := DESCENDING_LEVELS[i];
        if |buffers[risk]| > 0 {
          FirstMaxIsHead(buffers, ledger.kept, i);
          next := Some(buffers[risk][0]);
          size := size - 1;
          buffers := buffers[risk := buffers[risk][1..]];
          ledger := TakeFrom(ledger);
          return;
        }
      }
      NothingAbove(buffers, ledger.kept, 4);
      return None;
    }

    /** Empties the queue into its stable priority order. */
    method DrainInPriorityOrder() returns (result: seq<QueuedEvent>)
      requires Valid()
      modifies this
      ensures Valid() && history == old(history) + [Drain]
      ensures ledger == DrainFrom(old(ledger)) && size == 0
      ensures result == PriorityOrder(old(ledger.kept))
    {
      hide OfLevel, DrainFrom, FirstMax, RemoveAt;
      ghost var start := ledger;
      result := [];
      var next := ShiftHighest();
      DrainStep(start);
      while next.Some?
        invariant history == old(history)
        invariant size == |ledger.kept| && Represents(buffers, ledger.kept)
        invariant DrainFrom(start) == DrainFrom(ledger)
        invariant ledger.taken == start.taken + result + if next.Some? then [next.value] else []
        invariant next == None ==> ledger.kept == []
        decreases if next.Some? then 1 + size else 0
      {
        result := result + [next.value];
        ghost var before := ledger;
        next := ShiftHighest();
        DrainStep(before);
      }
      DrainStep(ledger);
      DrainOrder(start);
      assert start.taken + result == start.taken + PriorityOrder(start.kept);
      assert result == (start.taken + result)[|start.taken|..];
      RunOneMore(capacity, history, Drain);
      history := history + [Drain];
    }
  }

  lemma RunOneMore(capacity: int, ops: seq<Op>, op: Op)
    ensures Run(capacity, ops + [op]) == Next(capacity, Run(capacity, ops), op)
  {
    assert (ops + [op])[..|ops|] == ops;
  }

  lemma DrainStep(l: Ledger)
    ensures DrainFrom(l) == DrainFrom(TakeFrom(l))
    ensures l.kept == [] ==> DrainFrom(l) == l == TakeFrom(l)
    ensures l.kept != [] ==> |TakeFrom(l).kept| == |l.kept| - 1
  {
  }

  lemma PushRepresented(buffers: Buckets, kept: seq<QueuedEvent>, item: QueuedEvent)
    requires Represents(buffers, kept)
    ensures Represents(buffers[item.gateRisk := buffers[item.gateRisk] + [item]], kept + [item])
  {
  }

  lemma RemoveRepresented(buffers: Buckets, kept: seq<QueuedEvent>, i: nat)
    requires Represents(buffers, kept) && i < |kept|
    requires forall j | 0 <= j < i :: kept[j].gateRisk != kept[i].gateRisk
    ensures var bucket := buffers[kept[i].gateRisk];
      && bucket != [] && bucket[0] == kept[i]
      && Represents(buffers[kept[i].gateRisk := bucket[1..]], RemoveAt(kept, i))
  {
    forall risk: RiskLevel
      ensures kept[i].gateRisk == risk ==> buffers[risk] == [kept[i]] + OfLevel(RemoveAt(kept, i), risk)
      ensures kept[i].gateRisk != risk ==> buffers[risk] == OfLevel(RemoveAt(kept, i), risk)
    {
      RemoveHeadOfLevel(kept, i, risk);
    }
  }

  /** The first non-empty bucket of an ascending scan has the earliest minimum at its head. */
  lemma FirstMinIsHead(buffers: Buckets, kept: seq<QueuedEvent>, i: nat)
    requires Represents(buffers, kept)
    requires i < 4 && buffers[ASCENDING_LEVELS[i]] != []
    requires forall j | 0 <= j < i :: buffers[ASCENDING_LEVELS[j]] == []
    ensures var risk := ASCENDING_LEVELS[i];
      && kept != [] && buffers[risk][0] == kept[FirstMin(kept)] && kept[FirstMin(kept)].gateRisk == risk
      && Represents(buffers[risk := buffers[risk][1..]], RemoveAt(kept, FirstMin(kept)))
  {
    BucketMember(buffers, kept, ASCENDING_LEVELS[i]);
    NothingBelow(buffers, kept, i);
    RemoveRepresented(buffers, kept, FirstMin(kept));
  }

  lemma FirstMaxIsHead(buffers: Buckets, kept: seq<QueuedEvent>, i: nat)
    requires Represents(buffers, kept)
    requires i < 4 && buffers[DESCENDING_LEVELS[i]] != []
    requires forall j | 0 <= j < i :: buffers[DESCENDING_LEVELS[j]] == []
    ensures var risk := DESCENDING_LEVELS[i];
      && kept != [] && buffers[risk][0] == kept[FirstMax(kept)] && kept[FirstMax(kept)].gateRisk == risk
      && Represents(buffers[risk := buffers[risk][1..]], RemoveAt(kept, FirstMax(kept)))
  {
    BucketMember(buffers, kept, DESCENDING_LEVELS[i]);
    NothingAbove(buffers, kept, i);
    RemoveRepresented(buffers, kept, FirstMax(kept));
  }

  lemma BucketMember(buffers: Buckets, kept: seq<QueuedEvent>, risk: RiskLevel)
    requires Represents(buffers, kept) && buffers[risk] != []
    ensures exists e :: e in kept && e.gateRisk == risk
  {
    OfLevelMembers(kept, risk);
    assert buffers[risk][0] in OfLevel(kept, risk);
  }

  lemma NothingBelow(buffers: Buckets, kept: seq<QueuedEvent>, i: nat)
    requires Represents(buffers, kept) && i <= 4
    requires forall j | 0 <= j < i :: buffers[ASCENDING_LEVELS[j]] == []
    ensures kept != [] ==> Level(kept[FirstMin(kept)]) >= i
  {
    if kept != [] {
      var e := kept[FirstMin(kept)];
      OfLevelMembers(kept, e.gateRisk);
      assert e in OfLevel(kept, e.gateRisk);
      assert ASCENDING_LEVELS[Level(e)] == e.gateRisk;
    }
  }

  lemma NothingAbove(buffers: Buckets, kept: seq<QueuedEvent>, i: nat)
    requires Represents(buffers, kept) && i <= 4
    requires forall j | 0 <= j < i :: buffers[DESCENDING_LEVELS[j]] == []
    ensures kept != [] ==> Level(kept[FirstMax(kept)]) <= 3 - i
  {
    if kept != [] {
      var e := kept[FirstMax(kept)];
      OfLevelMembers(kept, e.gateRisk);
      assert e in OfLevel(kept, e.gateRisk);
      assert DESCENDING_LEVELS[3 - Level(e)] == e.gateRisk;
    }
  }
}
