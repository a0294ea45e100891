/**
 Delivery passes that overlap. The pipeline starts a pass every 15 seconds and does not wait for
 the one before (src/pipeline.ts:320-322), so a slow store lets several run at once, each over its
 own snapshot of the nudges. Here any number of passes interleave at every await, together with
 new nudges coming in. How often a nudge is audited is then the number of passes that began while
 it was queued, so it is audited once exactly when no pass begins with a nudge that another one
 still has before it.
 */
module PassOverlap {
  import opened Domain
  import opened Nudging
  import opened Delivering
  import opened PipelineMachine

  /** A pass: what it has yet to visit of its snapshot, and the audit call it makes next, if any. */
  datatype Pass = Pass(pending: seq<FanNudge>, now: Time, owed: Option<AuditEntry>)

  /** The nudge store, the audit sink, and every pass so far; a finished one has nothing left. */
  datatype Store = Store(queue: map<NudgeId, FanNudge>, audit: seq<AuditEntry>, passes: seq<Pass>)

  datatype Turn =
    | Begin(order: seq<NudgeId>, now: Time)
    | Visit(i: nat, forecasts: Forecasts)
    | Write(i: nat)
    | Keep(nudge: FanNudge)

  ghost predicate Allowed(s: Store, turn: Turn) {
    match turn
    case Begin(order, _) => Enumerates(order, s.queue)
    case Visit(i, _) => i < |s.passes| && s.passes[i].owed.None? && s.passes[i].pending != []
    case Write(i) => i < |s.passes| && s.passes[i].owed.Some?
    case Keep(nudge) => nudge.status == QUEUED && nudge.id !in s.queue
  }

  function Snapshot(queue: map<NudgeId, FanNudge>, order: seq<NudgeId>): seq<FanNudge>
    requires forall id | id in order :: id in queue
  {
    seq(|order|, i requires 0 <= i < |order| => queue[order[i]])
  }

  function Visited(s: Store, i: nat, forecasts: Forecasts): Store
    requires i < |s.passes| && s.passes[i].pending != []
  {
    var pass := s.passes[i];
    var nudge, rest := pass.pending[0], pass.pending[1..];
    if nudge.status != QUEUED then
      s.(passes := s.passes[i := pass.(pending := rest)])
    else
      var entry := Decision(nudge, forecasts, pass.now);
      s.(queue := s.queue[entry.nudge.id := entry.nudge],
         passes := s.passes[i := Pass(rest, pass.now, Some(entry))])
  }

  function Written(s: Store, i: nat): Store
    requires i < |s.passes| && s.passes[i].owed.Some?
  {
    s.(audit := s.audit + [s.passes[i].owed.value], passes := s.passes[i := s.passes[i].(owed := None)])
  }

  function AfterTurn(s: Store, turn: Turn): Store
    requires Allowed(s, turn)
  {
    match turn
    case Begin(order, now) => s.(passes := s.passes + [Pass(Snapshot(s.queue, order), now, None)])
    case Visit(i, forecasts) => Visited(s, i, forecasts)
    case Write(i) => Written(s, i)
    case Keep(nudge) => s.(queue := s.queue[nudge.id := nudge])
  }

  /** The store after the turns; None when one of them could not be taken. */
  ghost function Turned(turns: seq<Turn>): Option<Store> {
    if turns == [] then
      Some(Store(map[], [], []))
    else
      var n := |turns| - 1;
      var s := Turned(turns[..n]);
      if s.Some? && Allowed(s.value, turns[n]) then Some(AfterTurn(s.value, turns[n])) else None
  }

  lemma LastTurn(turns: seq<Turn>)
    requires turns != [] && Turned(turns).Some?
    ensures var n := |turns| - 1; var s := Turned(turns[..n]);
      s.Some? && Allowed(s.value, turns[n]) && Turned(turns) == Some(AfterTurn(s.value, turns[n]))
  {
  }

  /** A single pass visits and audits as the pipeline's worker does. */
  lemma SinglePassAsInPipeline(s: State)
    requires !s.worker.Resting?
    ensures var owed := if s.worker.Auditing? then Some(s.worker.entry) else None;
      var store := Store(s.nudges.queue, s.nudges.audit, [Pass(s.worker.pending, s.worker.now, owed)]);
      && (s.worker.Scanning? && s.worker.pending != [] ==>
            var t, after := OnPassVisit(s), Visited(store, 0, s.scores.forecasts);
            && after.queue == t.nudges.queue && after.audit == t.nudges.audit
            && after.passes == [Pass(t.worker.pending, t.worker.now, if t.worker.Auditing? then Some(t.worker.entry)
                else None)])
      && (s.worker.Auditing? ==>
            var t, after := OnPassAudit(s), Written(store, 0);
            && after.queue == t.nudges.queue && after.audit == t.nudges.audit
            && after.passes == [Pass(t.worker.pending, t.worker.now, None)])
  {
    hide Decision;
  }

  lemma BeginAsInPipeline(s: State, order: seq<NudgeId>, now: Time)
    requires Enumerates(order, s.nudges.queue)
    ensures var worker := OnPassStart(s, order, now).worker;
      var store := Store(s.nudges.queue, s.nudges.audit, []);
      AfterTurn(store, Begin(order, now)).passes == [Pass(worker.pending, worker.now, None)]
  {
    assert [] + [Pass(Snapshot(s.nudges.queue, order), now, None)]
        == [Pass(Snapshot(s.nudges.queue, order), now, None)];
  }

  predicate IsQueued(queue: map<NudgeId, FanNudge>, id: NudgeId) {
    id in queue && queue[id].status == QUEUED
  }

  predicate IsDecided(queue: map<NudgeId, FanNudge>, id: NudgeId) {
    id in queue && queue[id].status != QUEUED
  }

  // ---------- The load of a nudge ----------

  function QueuedIds(pending: seq<FanNudge>): multiset<NudgeId> {
    if pending == [] then multiset{}
    else (if pending[0].status == QUEUED then multiset{pending[0].id} else multiset{}) + QueuedIds(pending[1..])
  }

  /** The nudges a pass will still decide: those ahead of it that were queued when it began. */
  function Ahead(pass: Pass): multiset<NudgeId> {
    QueuedIds(pass.pending)
  }

  /** The nudge a pass has decided and not yet audited. */
  function Owed(pass: Pass): multiset<NudgeId> {
    if pass.owed.Some? then multiset{pass.owed.value.nudge.id} else multiset{}
  }

  function Total(passes: seq<Pass>, part: Pass -> multiset<NudgeId>): multiset<NudgeId> {
    if passes == [] then multiset{} else Total(passes[..|passes| - 1], part) + part(passes[|passes| - 1])
  }

  function AuditedIds(audit: seq<AuditEntry>): multiset<NudgeId> {
    if audit == [] then multiset{}
    else AuditedIds(audit[..|audit| - 1]) + multiset{audit[|audit| - 1].nudge.id}
  }

  /** Per nudge, its audit entries, written or owed. */
  function Answered(s: Store): multiset<NudgeId> {
    AuditedIds(s.audit) + Total(s.passes, Owed)
  }

  /** Per nudge, its audit entries once the running passes are through. */
  function Load(s: Store): multiset<NudgeId> {
    Answered(s) + Total(s.passes, Ahead)
  }

  lemma {:induction false} TotalUpdate(
      passes: seq<Pass>, i: nat, pass: Pass, part: Pass -> multiset<NudgeId>, id: NudgeId)
    requires i < |passes|
    ensures Total(passes[i := pass], part)[id] + part(passes[i])[id] == Total(passes, part)[id] + part(pass)[id]
  {
    var n := |passes| - 1;
    if i < n {
      assert passes[i := pass][..n] == passes[..n][i := pass];
      TotalUpdate(passes[..n], i, pass, part, id);
    } else {
      assert passes[i := pass][..n] == passes[..n];
    }
  }

  lemma OneMorePass(passes: seq<Pass>, pass: Pass, part: Pass -> multiset<NudgeId>)
    ensures Total(passes + [pass], part) == Total(passes, part) + part(pass)
  {
    assert (passes + [pass])[..|passes|] == passes;
  }

  lemma OneMoreEntry(audit: seq<AuditEntry>, entry: AuditEntry)
    ensures AuditedIds(audit + [entry]) == AuditedIds(audit) + multiset{entry.nudge.id}
  {
    assert (audit + [entry])[..|audit|] == audit;
  }

  lemma {:induction false} SnapshotIds(queue: map<NudgeId, FanNudge>, order: seq<NudgeId>, id: NudgeId)
    requires KeyedById(queue) && forall o | o in order :: o in queue
    requires forall i, j :: 0 <= i < j < |order| ==> order[i] != order[j]
    ensures QueuedIds(Snapshot(queue, order))[id] == if id in order && queue[id].status == QUEUED then 1 else 0
  {
    if order != [] {
      SnapshotIds(queue, order[1..], id);
      assert Snapshot(queue, order)[1..] == Snapshot(queue, order[1..]);
      assert order == [order[0]] + order[1..];
    }
  }

  /** The nudge that a turn decides. */
  function Decides(s: Store, turn: Turn): Option<NudgeId>
    requires turn.Visit? ==> turn.i < |s.passes| && s.passes[turn.i].pending != []
  {
    if turn.Visit? && s.passes[turn.i].pending[0].status == QUEUED then Some(s.passes[turn.i].pending[0].id) else None
  }

  /** What a turn does to the counts of one nudge. */
  lemma Counts(s: Store, turn: Turn, id: NudgeId)
    requires Allowed(s, turn) && KeyedById(s.queue)
    ensures var t := AfterTurn(s, turn);
      var begun, decided := turn.Begin? && IsQueued(s.queue, id), Decides(s, turn) == Some(id);
      && Answered(t)[id] == Answered(s)[id] + (if decided then 1 else 0)
      && Total(t.passes, Ahead)[id] + (if decided then 1 else 0)
          == Total(s.passes, Ahead)[id] + (if begun then 1 else 0)
  {
    hide Decision, Total, AuditedIds;
    match turn
    case Begin(order, now) =>
      var pass := Pass(Snapshot(s.queue, order), now, None);
      SnapshotIds(s.queue, order, id);
      OneMorePass(s.passes, pass, Ahead);
      OneMorePass(s.passes, pass, Owed);
    case Visit(i, forecasts) =>
      var pass := s.passes[i];
      if pass.pending[0].status == QUEUED {
        DecisionKeepsId(pass.pending[0], forecasts, pass.now);
      }
      TotalUpdate(s.passes, i, AfterTurn(s, turn).passes[i], Ahead, id);
      TotalUpdate(s.passes, i, AfterTurn(s, turn).passes[i], Owed, id);
    case Write(i) =>
      var pass := s.passes[i];
      TotalUpdate(s.passes, i, pass.(owed := None), Ahead, id);
      TotalUpdate(s.passes, i, pass.(owed := None), Owed, id);
      OneMoreEntry(s.audit, pass.owed.value);
    case Keep(nudge) =>
  }

  lemma DecisionKeepsId(nudge: FanNudge, forecasts: Forecasts, now: Time)
    requires nudge.status == QUEUED
    ensures var entry := Decision(nudge, forecasts, now); entry.nudge.id == nudge.id && entry.nudge.status != QUEUED
  {
  }

  // ---------- Every run ----------

  /** A nudge is decided exactly when it has an entry, written or owed; and what lies ahead of a pass is stored. */
  ghost predicate Sound(s: Store) {
    && KeyedById(s.queue)
    && (forall id :: IsDecided(s.queue, id) <==> Answered(s)[id] >= 1)
    && (forall id | Total(s.passes, Ahead)[id] >= 1 :: id in s.queue)
  }

  lemma SoundKept(s: Store, turn: Turn)
    requires Allowed(s, turn) && Sound(s)
    ensures Sound(AfterTurn(s, turn))
  {
    hide Decision, Total, Answered;
    var t := AfterTurn(s, turn);
    if turn.Visit? && s.passes[turn.i].pending[0].status == QUEUED {
      DecisionKeepsId(s.passes[turn.i].pending[0], turn.forecasts, s.passes[turn.i].now);
    }
    forall id ensures IsDecided(t.queue, id) <==> Answered(t)[id] >= 1 {
      Counts(s, turn, id);
    }
    forall id | Total(t.passes, Ahead)[id] >= 1 ensures id in t.queue {
      Counts(s, turn, id);
    }
  }

  /** How many passes began while the nudge was queued. */
  ghost function BegunWhileQueued(turns: seq<Turn>, id: NudgeId): nat {
    if turns == [] then
      0
    else
      var n := |turns| - 1;
      var s := Turned(turns[..n]);
      BegunWhileQueued(turns[..n], id) + if turns[n].Begin? && s.Some? && IsQueued(s.value.queue, id) then 1 else 0
  }

  lemma {:induction false} RunKeepsSound(turns: seq<Turn>, id: NudgeId)
    requires Turned(turns).Some?
    ensures Sound(Turned(turns).value)
    ensures Load(Turned(turns).value)[id] == BegunWhileQueued(turns, id)
  {
    hide Sound, Allowed, AfterTurn, Answered, Total;
    if turns == [] {
      EmptyStore();
    } else {
      var n := |turns| - 1;
      LastTurn(turns);
      RunKeepsSound(turns[..n], id);
      SoundKeyed(Turned(turns[..n]).value);
      SoundKept(Turned(turns[..n]).value, turns[n]);
      Counts(Turned(turns[..n]).value, turns[n], id);
    }
  }

  lemma EmptyStore()
    ensures var s := Store(map[], [], []); Sound(s) && Load(s) == multiset{}
  {
  }

  lemma SoundKeyed(s: Store)
    requires Sound(s)
    ensures KeyedById(s.queue)
  {
  }

  predicate Finished(s: Store) {
    forall p | p in s.passes :: p.pending == [] && p.owed.None?
  }

  lemma {:induction false} NothingLeft(passes: seq<Pass>)
    requires forall p | p in passes :: p.pending == [] && p.owed.None?
    ensures Total(passes, Ahead) == multiset{} && Total(passes, Owed) == multiset{}
  {
    if passes != [] {
      NothingLeft(passes[..|passes| - 1]);
    }
  }

  /**
   Conservation, however the passes overlap: once they are all through, a nudge has as many audit
   entries as passes began while it was queued, and it is decided if there was one.
   */
  lemma AuditCount(turns: seq<Turn>, id: NudgeId)
    requires Turned(turns).Some? && Finished(Turned(turns).value)
    ensures var s := Turned(turns).value;
      && AuditedIds(s.audit)[id] == BegunWhileQueued(turns, id)
      && (IsDecided(s.queue, id) <==> BegunWhileQueued(turns, id) >= 1)
  {
    hide Turned;
    RunKeepsSound(turns, id);
    NothingLeft(Turned(turns).value.passes);
  }

  // ---------- When every nudge is audited once ----------

  /** No nudge was queued when two passes began. */
  ghost predicate BegunOnce(turns: seq<Turn>) {
    forall id :: BegunWhileQueued(turns, id) <= 1
  }

  /** No nudge has two entries. */
  ghost predicate AuditedOnce(audit: seq<AuditEntry>) {
    forall id :: AuditedIds(audit)[id] <= 1
  }

  /** What the timer could check before it starts a pass: no other pass has a nudge ahead that is still queued. */
  predicate Harmless(s: Store) {
    forall p, n | p in s.passes && n in p.pending :: n.status == QUEUED ==> !IsQueued(s.queue, n.id)
  }

  ghost predicate BeginsHarmless(turns: seq<Turn>) {
    forall k | 0 <= k < |turns| && turns[k].Begin? && Turned(turns[..k]).Some? :: Harmless(Turned(turns[..k]).value)
  }

  lemma {:induction false} QueuedIdsIn(pending: seq<FanNudge>, id: NudgeId)
    ensures QueuedIds(pending)[id] >= 1 <==> exists n :: n in pending && n.status == QUEUED && n.id == id
  {
    if pending != [] {
      QueuedIdsIn(pending[1..], id);
      assert pending == [pending[0]] + pending[1..];
    }
  }

  lemma {:induction false} AheadIn(passes: seq<Pass>, id: NudgeId)
    ensures Total(passes, Ahead)[id] >= 1
       <==> exists p, n :: p in passes && n in p.pending && n.status == QUEUED && n.id == id
  {
    hide QueuedIds;
    if passes != [] {
      var last := passes[|passes| - 1];
      AheadIn(passes[..|passes| - 1], id);
      QueuedIdsIn(last.pending, id);
      assert passes == passes[..|passes| - 1] + [last];
    }
  }

  /** A beginning pass is harmless exactly when it loads no nudge that has a load already. */
  lemma HarmlessIffUnloaded(s: Store)
    requires Sound(s)
    ensures Harmless(s) <==> forall id | IsQueued(s.queue, id) :: Load(s)[id] == 0
  {
    hide Total, Answered;
    forall id | IsQueued(s.queue, id)
      ensures Load(s)[id] == 0 <==> !exists p, n :: p in s.passes && n in p.pending && n.status == QUEUED && n.id == id
    {
      AheadIn(s.passes, id);
    }
  }

  /**
   However the passes overlap: no nudge ever gets a second entry, written or to come, exactly when
   every pass began harmlessly.
   */
  lemma {:induction false} OneLoadIffHarmless(turns: seq<Turn>)
    requires Turned(turns).Some?
    ensures BeginsHarmless(turns) <==> BegunOnce(turns)
  {
    hide Turned, Harmless, Load, Sound;
    if turns != [] {
      var n := |turns| - 1;
      LastTurn(turns);
      OneLoadIffHarmless(turns[..n]);
      SplitHarmless(turns);
      var s := Turned(turns[..n]).value;
      RunKeepsSound(turns[..n], ("", "", 0));
      HarmlessIffUnloaded(s);
      forall id
        ensures BegunWhileQueued(turns, id)
             == BegunWhileQueued(turns[..n], id) + if turns[n].Begin? && IsQueued(s.queue, id) then 1 else 0
        ensures Load(s)[id] == BegunWhileQueued(turns[..n], id)
      {
        RunKeepsSound(turns[..n], id);
      }
      if BegunOnce(turns) {
        forall id ensures BegunWhileQueued(turns[..n], id) <= 1 {
          assert BegunWhileQueued(turns, id) <= 1;
        }
        forall id | turns[n].Begin? && IsQueued(s.queue, id) ensures Load(s)[id] == 0 {
          assert BegunWhileQueued(turns, id) <= 1;
        }
      }
      if BeginsHarmless(turns) {
        forall id ensures BegunWhileQueued(turns, id) <= 1 {
          assert BegunWhileQueued(turns[..n], id) <= 1;
        }
      }
    }
  }

  lemma SplitHarmless(turns: seq<Turn>)
    requires turns != [] && Turned(turns[..|turns| - 1]).Some?
    ensures var n := |turns| - 1;
      BeginsHarmless(turns) <==> BeginsHarmless(turns[..n]) && (turns[n].Begin? ==> Harmless(Turned(turns[..n]).value))
  {
    hide Turned, Harmless;
    var n := |turns| - 1;
    forall k | 0 <= k < n ensures turns[..n][..k] == turns[..k] {
    }
  }

  /** Once all passes are through: every nudge has at most one audit entry exactly when every pass began harmlessly. */
  lemma AuditedOnceIffHarmless(turns: seq<Turn>)
    requires Turned(turns).Some? && Finished(Turned(turns).value)
    ensures AuditedOnce(Turned(turns).value.audit) <==> BeginsHarmless(turns)
  {
    hide Turned, Finished, AuditedIds, BeginsHarmless;
    OneLoadIffHarmless(turns);
    var audited := AuditedIds(Turned(turns).value.audit);
    forall id ensures audited[id] == BegunWhileQueued(turns, id) {
      AuditCount(turns, id);
    }
    if AuditedOnce(Turned(turns).value.audit) {
      forall id ensures BegunWhileQueued(turns, id) <= 1 {
        assert audited[id] <= 1;
      }
    }
    if BegunOnce(turns) {
      forall id ensures audited[id] <= 1 {
        assert BegunWhileQueued(turns, id) <= 1;
      }
    }
  }

  /** And then, at every moment, no turn changes a decided nudge. */
  lemma DecidedForGood(turns: seq<Turn>, turn: Turn, id: NudgeId)
    requires Turned(turns).Some? && BeginsHarmless(turns)
    requires Allowed(Turned(turns).value, turn) && IsDecided(Turned(turns).value.queue, id)
    ensures var s := Turned(turns).value; var queue := AfterTurn(s, turn).queue; id in queue && queue[id] == s.queue[id]
  {
    hide Turned, BeginsHarmless, Total, AuditedIds, Decision;
    var s := Turned(turns).value;
    OneLoadIffHarmless(turns);
    RunKeepsSound(turns, id);
    assert Total(s.passes, Ahead)[id] == 0;
    if turn.Visit? && s.passes[turn.i].pending[0].status == QUEUED {
      var pass := s.passes[turn.i];
      DecisionKeepsId(pass.pending[0], turn.forecasts, pass.now);
      AheadIn(s.passes, id);
      assert pass in s.passes && pass.pending[0] in pass.pending;
    }
  }
  // ---------- The failure ----------

  lemma OneMoreTurn(turns: seq<Turn>, turn: Turn)
    requires Turned(turns).Some? && Allowed(Turned(turns).value, turn)
    ensures Turned(turns + [turn]) == Some(AfterTurn(Turned(turns).value, turn))
  {
    assert (turns + [turn])[..|turns|] == turns;
  }

  /** Two passes that take the same queued nudge into their snapshots, and each visit it. */
  function TwoPasses(nudge: FanNudge, first: Time, second: Time, hot: Forecasts, calm: Forecasts): seq<Turn> {
    [Keep(nudge), Begin([nudge.id], first), Begin([nudge.id], second),
     Visit(0, hot), Write(0), Visit(1, calm), Write(1)]
  }

  /**
   The first delivers it, and once the gate has calmed down the second cancels it: a decided nudge
   changes, with two entries.
   */
  lemma TwoPassesDecideTwice(nudge: FanNudge, first: Time, second: Time, hot: Forecasts, calm: Forecasts)
    requires nudge.status == QUEUED
    requires IsHot(GateRisk(hot, nudge.originGateId)) && !IsHot(GateRisk(calm, nudge.originGateId))
    ensures var turns := TwoPasses(nudge, first, second, hot, calm);
      && Turned(turns[..5]).Some? && Turned(turns).Some? && Finished(Turned(turns).value)
      && var delivered, left := Turned(turns[..5]).value, Turned(turns).value;
         && nudge.id in delivered.queue && delivered.queue[nudge.id].status == SIMULATED_DELIVERED
         && nudge.id in left.queue && left.queue[nudge.id].status == CANCELLED
         && |left.audit| == 2
         && left.audit[0].nudge == delivered.queue[nudge.id] && left.audit[1].nudge == left.queue[nudge.id]
  {
    hide Turned, SimulateDelivery;
    var turns := TwoPasses(nudge, first, second, hot, calm);
    NoTurns();
    forall k | 0 <= k < 7 ensures turns[..k + 1] == turns[..k] + [turns[k]] {
    }
    assert turns[..0] == [] && turns[..7] == turns;
    var s1 := AfterTurn(Store(map[], [], []), turns[0]);
    var s2 := AfterTurn(s1, turns[1]);
    var s3 := AfterTurn(s2, turns[2]);
    assert s2.passes == [Pass([nudge], first, None)] by { assert Snapshot(s1.queue, [nudge.id]) == [nudge]; }
    assert s3.passes == s2.passes + [Pass([nudge], second, None)] by {
      assert Snapshot(s2.queue, [nudge.id]) == [nudge];
    }
    OneMoreTurn(turns[..0], turns[0]);
    OneMoreTurn(turns[..1], turns[1]);
    OneMoreTurn(turns[..2], turns[2]);
    TwoVisits(turns, s3, nudge, first, second, hot, calm);
  }

  lemma TwoVisits(
      turns: seq<Turn>, s: Store, nudge: FanNudge, first: Time, second: Time, hot: Forecasts, calm: Forecasts)
    requires nudge.status == QUEUED && turns == TwoPasses(nudge, first, second, hot, calm)
    requires IsHot(GateRisk(hot, nudge.originGateId)) && !IsHot(GateRisk(calm, nudge.originGateId))
    requires Turned(turns[..3]) == Some(s) && s.audit == []
    requires s.passes == [Pass([nudge], first, None), Pass([nudge], second, None)]
    ensures Turned(turns[..5]).Some? && Turned(turns).Some? && Finished(Turned(turns).value)
    ensures var delivered, left := Turned(turns[..5]).value, Turned(turns).value;
      && nudge.id in delivered.queue && delivered.queue[nudge.id].status == SIMULATED_DELIVERED
      && nudge.id in left.queue && left.queue[nudge.id].status == CANCELLED
      && |left.audit| == 2
      && left.audit[0].nudge == delivered.queue[nudge.id] && left.audit[1].nudge == left.queue[nudge.id]
  {
    hide Turned, SimulateDelivery;
    forall k | 3 <= k < 7 ensures turns[..k + 1] == turns[..k] + [turns[k]] {
    }
    assert turns[..7] == turns && [nudge][1..] == [];
    var delivery, cancellation := Decision(nudge, hot, first), Decision(nudge, calm, second);
    var s4 := AfterTurn(s, turns[3]);
    var s5 := AfterTurn(s4, turns[4]);
    var s6 := AfterTurn(s5, turns[5]);
    var s7 := AfterTurn(s6, turns[6]);
    assert s5.audit == [delivery] && s5.queue == s.queue[nudge.id := delivery.nudge];
    assert s5.passes == [Pass([], first, None), Pass([nudge], second, None)];
    assert s7.audit == [delivery, cancellation] && s7.queue == s5.queue[nudge.id := cancellation.nudge];
    assert s7.passes == [Pass([], first, None), Pass([], second, None)];
    OneMoreTurn(turns[..3], turns[3]);
    OneMoreTurn(turns[..4], turns[4]);
    OneMoreTurn(turns[..5], turns[5]);
    OneMoreTurn(turns[..6], turns[6]);
  }

  lemma NoTurns()
    ensures Turned([]) == Some(Store(map[], [], []))
  {
  }
}
