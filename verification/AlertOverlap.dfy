/**
 The alerts of the pipeline without the per-gate order that src/infra/kafka-topics.ts asks of the
 transport: any number of score handlers of one gate may wait for their alert call at a time, and
 each of them sets the previous risk when its own call returns (src/pipeline.ts:249-257). Alerts
 can then be raised twice for one rise, or not at all; here is exactly when.
 */
module AlertOverlap {
  import opened Domain
  import opened Alerting
  import opened PipelineMachine
  import opened PipelineSafety

  /** A score handler that waits for its alert call to return. */
  datatype Begun = Begun(gate: GateId, risk: RiskLevel)

  /** The scores of the pipeline, and the handlers waiting, in no particular order of return. */
  datatype Flow = Flow(scores: Scores, waiting: seq<Begun>)

  datatype Move =
    | Begin(gate: GateId, result: ForecastResult, now: Time)
    | Settle(k: nat)

  function FlowStart(): Flow {
    Flow(Start(0).scores, [])
  }

  function AfterMove(f: Flow, move: Move): Flow
    requires move.Settle? ==> move.k < |f.waiting|
  {
    match move
    case Begin(gate, result, now) =>
      Flow(Started(f.scores, gate, result, now), f.waiting + [Begun(gate, RiskOf(result))])
    case Settle(k) =>
      var w := f.waiting[k];
      Flow(f.scores.(previousRisk := f.scores.previousRisk[w.gate := w.risk]), f.waiting[..k] + f.waiting[k + 1..])
  }

  /** The moves are what the pipeline's two steps do to the scores. */
  lemma MovesAsInPipeline(s: State, waiting: seq<Begun>, gate: Gate, result: ForecastResult, now: Time, id: GateId)
    ensures AfterMove(Flow(s.scores, waiting), Begin(gate.gateId, result, now)).scores
         == OnScoreStart(s, gate, result, now).scores
    ensures Resumes(s, SetPrevious(id)) ==>
      AfterMove(Flow(s.scores, [Begun(id, RiskOf(s.handlers[id].result))]), Settle(0))
      == Flow(OnSetPrevious(s, id).scores, [])
  {
    hide Started;
  }

  /** The flow after the moves; None when some `Settle` had no handler to return to. */
  function Flowed(moves: seq<Move>): Option<Flow> {
    if moves == [] then
      Some(FlowStart())
    else
      var n := |moves| - 1;
      var f := Flowed(moves[..n]);
      if f.Some? && (moves[n].Settle? ==> moves[n].k < |f.value.waiting|) then
        Some(AfterMove(f.value, moves[n]))
      else
        None
  }

  /** The gate's alerts are those of handling its updates one after the other. */
  predicate Serial(scores: Scores, id: GateId) {
    AlertsOf(scores.alerts, id) == AlertsRaised(id, ListAt(scores.history, id))
  }

  /** What a handler can check when it starts: a hot update finds the previous risk as hot as the last update's. */
  predicate Harmless(scores: Scores, gate: GateId, result: ForecastResult) {
    IsHot(RiskOf(result)) ==> (IsHot(PreviousRisk(scores, gate)) <==> IsHot(LastRisk(ListAt(scores.history, gate))))
  }

  // ---------- One start, any state ----------

  /** A start keeps the alerts serial exactly when it is harmless. */
  lemma UnguardedStart(scores: Scores, gate: GateId, result: ForecastResult, now: Time)
    requires Serial(scores, gate)
    ensures Serial(Started(scores, gate, result, now), gate) <==> Harmless(scores, gate, result)
  {
    hide AlertsOf, AlertsRaised;
    var risk, before := RiskOf(result), ListAt(scores.history, gate);
    var alert := CheckRiskLevelTransition(gate, PreviousRisk(scores, gate), risk, now);
    var serial := CheckRiskLevelTransition(gate, LastRisk(before), risk, now);
    StartedAt(scores, gate, result, now, gate);
    AlertsOfOneMore(scores.alerts, alert, gate);
    AlertsRaisedOneMore(gate, before, Handled(risk, now));
    var raised := AlertsRaised(gate, before);
    assert |raised + if alert.Some? then [alert.value] else []| == |raised| + if alert.Some? then 1 else 0;
    assert |raised + if serial.Some? then [serial.value] else []| == |raised| + if serial.Some? then 1 else 0;
  }

  lemma OtherStart(scores: Scores, gate: GateId, result: ForecastResult, now: Time, id: GateId)
    requires id != gate
    ensures Serial(Started(scores, gate, result, now), id) <==> Serial(scores, id)
  {
    hide AlertsOf, AlertsRaised;
    var alert := CheckRiskLevelTransition(gate, PreviousRisk(scores, gate), RiskOf(result), now);
    StartedAt(scores, gate, result, now, id);
    AlertsOfOneMore(scores.alerts, alert, id);
  }

  // ---------- Whole runs ----------

  ghost predicate SerialThroughout(moves: seq<Move>, id: GateId) {
    forall k | 0 <= k <= |moves| && Flowed(moves[..k]).Some? :: Serial(Flowed(moves[..k]).value.scores, id)
  }

  predicate HarmlessAt(moves: seq<Move>, id: GateId, k: nat)
    requires k < |moves|
  {
    moves[k].Begin? && moves[k].gate == id && Flowed(moves[..k]).Some?
    ==> Harmless(Flowed(moves[..k]).value.scores, id, moves[k].result)
  }

  /**
   Whatever overlaps: at every moment of a run the gate's alerts have been the rising edges of its
   updates, if and only if every start of the gate was harmless.
   */
  lemma {:induction false} OverlappingRuns(moves: seq<Move>, id: GateId)
    requires Flowed(moves).Some?
    ensures SerialThroughout(moves, id) <==> forall k | 0 <= k < |moves| :: HarmlessAt(moves, id, k)
  {
    hide Serial, Harmless, Flowed;
    if moves == [] {
      StartSerial(id);
    } else {
      var n := |moves| - 1;
      var earlier, last := moves[..n], moves[n];
      LastMove(moves);
      OverlappingRuns(earlier, id);
      Prefixes(moves);
      if SerialThroughout(earlier, id) {
        assert earlier[..n] == earlier;
        assert Serial(Flowed(earlier).value.scores, id);
        LastKeeps(Flowed(earlier).value, last, id);
      }
      SplitThroughout(moves, id);
      SplitHarmless(moves, id);
    }
  }

  lemma StartSerial(id: GateId)
    ensures SerialThroughout([], id)
  {
    assert Flowed([]) == Some(FlowStart());
  }

  lemma LastMove(moves: seq<Move>)
    requires moves != [] && Flowed(moves).Some?
    ensures var n := |moves| - 1; var f := Flowed(moves[..n]);
      && f.Some? && (moves[n].Settle? ==> moves[n].k < |f.value.waiting|)
      && Flowed(moves) == Some(AfterMove(f.value, moves[n]))
  {
  }

  lemma Prefixes(moves: seq<Move>)
    requires moves != []
    ensures moves[..|moves|] == moves
    ensures forall k | 0 <= k < |moves| :: moves[..|moves| - 1][..k] == moves[..k]
  {
  }

  lemma LastKeeps(f: Flow, move: Move, id: GateId)
    requires (move.Settle? ==> move.k < |f.waiting|) && Serial(f.scores, id)
    ensures Serial(AfterMove(f, move).scores, id)
       <==> (move.Begin? && move.gate == id ==> Harmless(f.scores, id, move.result))
  {
    hide Harmless;
    if move.Begin? {
      hide Serial;
      if move.gate == id {
        UnguardedStart(f.scores, id, move.result, move.now);
      } else {
        OtherStart(f.scores, move.gate, move.result, move.now, id);
      }
    }
  }

  lemma SplitThroughout(moves: seq<Move>, id: GateId)
    requires moves != [] && Flowed(moves).Some?
    ensures SerialThroughout(moves, id)
       <==> SerialThroughout(moves[..|moves| - 1], id) && Serial(Flowed(moves).value.scores, id)
  {
    hide Serial, Flowed;
    Prefixes(moves);
    var n := |moves| - 1;
    if SerialThroughout(moves, id) {
      forall k | 0 <= k <= n && Flowed(moves[..n][..k]).Some? ensures Serial(Flowed(moves[..n][..k]).value.scores, id) {
        assert moves[..n][..k] == moves[..k];
      }
    }
    if SerialThroughout(moves[..n], id) && Serial(Flowed(moves).value.scores, id) {
      forall k | 0 <= k <= |moves| && Flowed(moves[..k]).Some? ensures Serial(Flowed(moves[..k]).value.scores, id) {
        assert k <= n ==> moves[..n][..k] == moves[..k];
      }
    }
  }

  lemma SplitHarmless(moves: seq<Move>, id: GateId)
    requires moves != []
    ensures var n := |moves| - 1;
      (forall k | 0 <= k < |moves| :: HarmlessAt(moves, id, k))
      <==> (forall k | 0 <= k < n :: HarmlessAt(moves[..n], id, k)) && HarmlessAt(moves, id, n)
  {
    hide Harmless, Flowed;
    var n := |moves| - 1;
    forall k | 0 <= k < n ensures HarmlessAt(moves[..n], id, k) <==> HarmlessAt(moves, id, k) {
      assert moves[..n][..k] == moves[..k];
    }
  }

  // ---------- The per-gate order is one way to be harmless ----------

  /** No handler of `gate` waits. */
  predicate Idle(f: Flow, gate: GateId) {
    forall b | b in f.waiting :: b.gate != gate
  }

  /** Every start of the gate finds no handler of the gate waiting. */
  ghost predicate OneAtATime(moves: seq<Move>, id: GateId) {
    forall k | 0 <= k < |moves| && moves[k].Begin? && moves[k].gate == id ::
      Flowed(moves[..k]).Some? ==> Idle(Flowed(moves[..k]).value, id)
  }

  predicate AtMostOne(waiting: seq<Begun>, id: GateId) {
    forall i, j :: 0 <= i < j < |waiting| ==> !(waiting[i].gate == id && waiting[j].gate == id)
  }

  /**
   At most one handler of the gate waits; it carries the last update's risk, or else the previous
   risk is that one.
   */
  ghost predicate Tidy(f: Flow, id: GateId) {
    var last := LastRisk(ListAt(f.scores.history, id));
    && AtMostOne(f.waiting, id)
    && (forall b | b in f.waiting && b.gate == id :: b.risk == last)
    && (Idle(f, id) ==> PreviousRisk(f.scores, id) == last)
  }

  lemma TidyAfterBegin(f: Flow, gate: GateId, result: ForecastResult, now: Time, id: GateId)
    requires Tidy(f, id) && (gate == id ==> Idle(f, id))
    ensures Tidy(AfterMove(f, Begin(gate, result, now)), id)
  {
    hide Started;
    var t := AfterMove(f, Begin(gate, result, now));
    StartedAt(f.scores, gate, result, now, id);
    assert t.waiting[|f.waiting|] == Begun(gate, RiskOf(result));
    forall b | b in f.waiting ensures b in t.waiting {
    }
  }

  lemma OneGone(waiting: seq<Begun>, k: nat, id: GateId)
    requires k < |waiting| && AtMostOne(waiting, id)
    ensures var rest := waiting[..k] + waiting[k + 1..];
      && AtMostOne(rest, id)
      && (forall b | b in rest :: b in waiting && !(waiting[k].gate == id && b.gate == id))
      && (forall b | b in waiting && b != waiting[k] :: b in rest)
  {
    var rest := waiting[..k] + waiting[k + 1..];
    forall i | 0 <= i < |rest| ensures rest[i] == waiting[if i < k then i else i + 1] {
    }
    forall b | b in waiting && b != waiting[k] ensures b in rest {
      var i :| 0 <= i < |waiting| && waiting[i] == b;
      assert rest[if i < k then i else i - 1] == b;
    }
  }

  lemma TidyAfterSettle(f: Flow, k: nat, id: GateId)
    requires k < |f.waiting| && Tidy(f, id)
    ensures Tidy(AfterMove(f, Settle(k)), id)
  {
    hide AtMostOne;
    OneGone(f.waiting, k, id);
    if f.waiting[k].gate != id && Idle(AfterMove(f, Settle(k)), id) {
      assert Idle(f, id);
    }
  }

  lemma {:induction false} OneAtATimeIsTidy(moves: seq<Move>, id: GateId)
    requires Flowed(moves).Some? && OneAtATime(moves, id)
    ensures Tidy(Flowed(moves).value, id)
  {
    hide Tidy, Idle, Flowed;
    if moves == [] {
      TidyAtStart(id);
    } else {
      var n := |moves| - 1;
      LastMove(moves);
      Prefixes(moves);
      assert OneAtATime(moves[..n], id);
      OneAtATimeIsTidy(moves[..n], id);
      var f := Flowed(moves[..n]).value;
      match moves[n]
      case Begin(gate, result, now) => TidyAfterBegin(f, gate, result, now, id);
      case Settle(k) => TidyAfterSettle(f, k, id);
    }
  }

  lemma TidyAtStart(id: GateId)
    ensures Flowed([]).Some? && Tidy(Flowed([]).value, id)
  {
  }

  /** One handler of the gate at a time, with any handlers of other gates in between, is harmless throughout. */
  lemma OneAtATimeIsSerial(moves: seq<Move>, id: GateId)
    requires Flowed(moves).Some? && OneAtATime(moves, id)
    ensures SerialThroughout(moves, id)
  {
    hide Tidy, Flowed, Harmless, SerialThroughout;
    forall k | 0 <= k < |moves| ensures HarmlessAt(moves, id, k) {
      if moves[k].Begin? && moves[k].gate == id && Flowed(moves[..k]).Some? {
        forall j | 0 <= j < k ensures moves[..k][..j] == moves[..j] {
        }
        OneAtATimeIsTidy(moves[..k], id);
        IdleIsHarmless(Flowed(moves[..k]).value, id, moves[k].result);
      }
    }
    OverlappingRuns(moves, id);
  }

  lemma IdleIsHarmless(f: Flow, id: GateId, result: ForecastResult)
    requires Tidy(f, id) && Idle(f, id)
    ensures Harmless(f.scores, id, result)
  {
  }

  // ---------- The two ways to fail ----------

  lemma NoMoves(gate: GateId)
    ensures Flowed([]) == Some(FlowStart())
    ensures var scores := FlowStart().scores;
      AlertsOf(scores.alerts, gate) == [] && ListAt(scores.history, gate) == [] && AlertsRaised(gate, []) == []
  {
  }

  lemma OneMoreMove(moves: seq<Move>, move: Move)
    requires Flowed(moves).Some? && (move.Settle? ==> move.k < |Flowed(moves).value.waiting|)
    ensures Flowed(moves + [move]) == Some(AfterMove(Flowed(moves).value, move))
  {
    assert (moves + [move])[..|moves|] == moves;
  }

  /**
   Two hot updates of a gate that was calm, the second before the first's alert call returns: two
   alerts for one rise.
   */
  lemma OverlapDuplicatesAlert(gate: GateId, hot: ForecastResult, first: Time, second: Time)
    requires IsHot(RiskOf(hot))
    ensures var moves := [Begin(gate, hot, first), Begin(gate, hot, second)];
      && Flowed(moves).Some?
      && var scores := Flowed(moves).value.scores;
         && |AlertsOf(scores.alerts, gate)| == 2 && |AlertsRaised(gate, ListAt(scores.history, gate))| == 1
  {
    hide Flowed, Started, AlertsOf, AlertsRaised;
    var a, b := Begin(gate, hot, first), Begin(gate, hot, second);
    assert [] + [a] == [a] && [a] + [b] == [a, b];
    var f := FlowStart();
    var f1 := AfterMove(f, a);
    NoMoves(gate);
    OneMoreMove([], a);
    OneMoreMove([a], b);
    StartCounts(f.scores, gate, hot, first);
    StartCounts(f1.scores, gate, hot, second);
  }

  /** How many alerts of the gate a start adds, as raised and as serial handling would raise them. */
  lemma StartCounts(scores: Scores, gate: GateId, result: ForecastResult, now: Time)
    ensures var after := Started(scores, gate, result, now);
      var history, hot := ListAt(scores.history, gate), IsHot(RiskOf(result));
      && after.previousRisk == scores.previousRisk
      && ListAt(after.history, gate) == history + [Handled(RiskOf(result), now)]
      && LastRisk(ListAt(after.history, gate)) == RiskOf(result)
      && |AlertsOf(after.alerts, gate)|
         == |AlertsOf(scores.alerts, gate)| + (if hot && !IsHot(PreviousRisk(scores, gate)) then 1 else 0)
      && |AlertsRaised(gate, ListAt(after.history, gate))|
         == |AlertsRaised(gate, history)| + (if hot && !IsHot(LastRisk(history)) then 1 else 0)
  {
    hide AlertsOf, AlertsRaised;
    var risk, before := RiskOf(result), ListAt(scores.history, gate);
    StartedAt(scores, gate, result, now, gate);
    AlertsOfOneMore(scores.alerts, CheckRiskLevelTransition(gate, PreviousRisk(scores, gate), risk, now), gate);
    AlertsRaisedOneMore(gate, before, Handled(risk, now));
  }

  /**
   A calm and then a hot update of a hot gate, the second before the first's alert call returns:
   no alert for the rise.
   */
  lemma OverlapLosesAlert(
      gate: GateId, hot: ForecastResult, calm: ForecastResult, first: Time, second: Time, third: Time)
    requires IsHot(RiskOf(hot)) && !IsHot(RiskOf(calm))
    ensures var moves := [Begin(gate, hot, first), Settle(0), Begin(gate, calm, second), Begin(gate, hot, third)];
      && Flowed(moves).Some?
      && var scores := Flowed(moves).value.scores;
         && |AlertsOf(scores.alerts, gate)| == 1 && |AlertsRaised(gate, ListAt(scores.history, gate))| == 2
  {
    hide Flowed, Started, AlertsOf, AlertsRaised;
    var a, b, c, d := Begin(gate, hot, first), Settle(0), Begin(gate, calm, second), Begin(gate, hot, third);
    assert [] + [a] == [a] && [a] + [b] == [a, b] && [a, b] + [c] == [a, b, c] && [a, b, c] + [d] == [a, b, c, d];
    var f := FlowStart();
    NoMoves(gate);
    OneMoreMove([], a);
    OneMoreMove([a], b);
    OneMoreMove([a, b], c);
    OneMoreMove([a, b, c], d);
    var f1 := AfterMove(f, a);
    var f2 := AfterMove(f1, b);
    var f3 := AfterMove(f2, c);
    StartCounts(f.scores, gate, hot, first);
    StartCounts(f2.scores, gate, calm, second);
    StartCounts(f3.scores, gate, hot, third);
  }
}
