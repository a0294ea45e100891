/**
 Risk-level alerts (src/ops-dashboard/alerts.ts), and what they add up to over a gate's serial
 score updates.
 */
module Alerting {
  import opened Domain

  /** A RISK_LEVEL alert; its random id and the fixed audience are left out. */
  datatype Alert = Alert(gateId: GateId, raisedAt: Time, risk: RiskLevel)

  function CheckRiskLevelTransition(gate: GateId, previous: RiskLevel, next: RiskLevel, now: Time): Option<Alert> {
    if !IsHot(previous) && IsHot(next) then Some(Alert(gate, now, next)) else None
  }

  /** One handled update of a gate: when, and the risk it brought. */
  datatype Handled = Handled(risk: RiskLevel, now: Time)

  /** The risk after a history of updates; LOW before the first. */
  function LastRisk(history: seq<Handled>): RiskLevel {
    if history == [] then LOW else history[|history| - 1].risk
  }

  /** The alerts raised when a gate's updates are handled one after the other. */
  function AlertsRaised(gate: GateId, history: seq<Handled>): seq<Alert> {
    if history == [] then
      []
    else
      var n := |history| - 1;
      AlertsRaised(gate, history[..n])
      + match CheckRiskLevelTransition(gate, LastRisk(history[..n]), history[n].risk, history[n].now)
        case Some(alert) => [alert]
        case None => []
  }

  // ---------- Alerts are the starts of the High/Critical blocks ----------

  /** `[from, to)` is a maximal block of High/Critical updates. */
  predicate HotBlock(history: seq<Handled>, from: nat, to: nat) {
    && from < to <= |history|
    && (forall k | from <= k < to :: IsHot(history[k].risk))
    && (from > 0 ==> !IsHot(history[from - 1].risk))
    && (to < |history| ==> !IsHot(history[to].risk))
  }

  predicate Rises(history: seq<Handled>, i: nat) {
    i < |history| && IsHot(history[i].risk) && (i > 0 ==> !IsHot(history[i - 1].risk))
  }

  /** Where alert number k was raised. */
  function RaisedAt(history: seq<Handled>): seq<nat> {
    if history == [] then
      []
    else
      var n := |history| - 1;
      RaisedAt(history[..n]) + if Rises(history, n) then [n] else []
  }

  lemma {:induction false} RaisedAtMembers(history: seq<Handled>)
    ensures forall i: nat :: i in RaisedAt(history) <==> Rises(history, i)
  {
    if history != [] {
      var n := |history| - 1;
      RaisedAtMembers(history[..n]);
      forall i: nat ensures Rises(history, i) <==> Rises(history[..n], i) || (i == n && Rises(history, n)) {
      }
    }
  }

  /** Alerts rise at least two updates apart. */
  ghost predicate Apart(at: seq<nat>) {
    forall j, k :: 0 <= j < k < |at| ==> at[j] + 2 <= at[k]
  }

  lemma {:induction false} RaisedApart(history: seq<Handled>)
    ensures Apart(RaisedAt(history))
  {
    if history != [] {
      var n := |history| - 1;
      RaisedApart(history[..n]);
      RaisedAtMembers(history[..n]);
      var earlier := RaisedAt(history[..n]);
      if Rises(history, n) {
        forall j | 0 <= j < |earlier| ensures earlier[j] + 2 <= n {
          assert earlier[j] in earlier;
          assert Rises(history[..n], earlier[j]);
        }
      }
    }
  }

  /** The alerts raised at the given updates. */
  ghost predicate RaisedThere(gate: GateId, history: seq<Handled>, at: seq<nat>, alerts: seq<Alert>) {
    && |at| == |alerts|
    && forall k | 0 <= k < |at| ::
         at[k] < |history| && alerts[k] == Alert(gate, history[at[k]].now, history[at[k]].risk)
  }

  lemma {:induction false} AlertsMatchPositions(gate: GateId, history: seq<Handled>)
    ensures RaisedThere(gate, history, RaisedAt(history), AlertsRaised(gate, history))
  {
    if history != [] {
      var n := |history| - 1;
      AlertsMatchPositions(gate, history[..n]);
      assert Rises(history, n) <==> !IsHot(LastRisk(history[..n])) && IsHot(history[n].risk);
    }
  }

  lemma {:induction false} BlockEnd(history: seq<Handled>, from: nat, to: nat) returns (end: nat)
    requires from < to <= |history|
    requires forall k | from <= k < to :: IsHot(history[k].risk)
    requires from > 0 ==> !IsHot(history[from - 1].risk)
    ensures to <= end && HotBlock(history, from, end)
    decreases |history| - to
  {
    if to < |history| && IsHot(history[to].risk) {
      end := BlockEnd(history, from, to + 1);
    } else {
      end := to;
    }
  }

  /**
   The alerts of a run are, one for one and in order, the starts of the maximal High/Critical
   blocks of the gate's updates; before each of them lies a Low or Moderate update (or nothing),
   so there is one between any two; and n updates raise at most ceil(n / 2).
   */
  lemma AlertsAreBlockStarts(gate: GateId, history: seq<Handled>)
    ensures RaisedThere(gate, history, RaisedAt(history), AlertsRaised(gate, history))
    ensures forall i: nat :: i in RaisedAt(history) <==> exists to :: HotBlock(history, i, to)
    ensures Apart(RaisedAt(history))
    ensures |AlertsRaised(gate, history)| <= (|history| + 1) / 2
  {
    hide RaisedAt, AlertsRaised;
    AlertsMatchPositions(gate, history);
    RaisedAtMembers(history);
    RaisedApart(history);
    var at := RaisedAt(history);
    forall i: nat | i in at ensures exists to :: HotBlock(history, i, to) {
      var to := BlockEnd(history, i, i + 1);
    }
    forall i: nat, to | HotBlock(history, i, to) ensures i in at {
      assert Rises(history, i);
    }
    if |at| > 0 {
      SpreadOut(at, |at| - 1);
      assert at[|at| - 1] < |history|;
    }
  }

  lemma {:induction false} SpreadOut(at: seq<nat>, k: nat)
    requires k < |at| && Apart(at)
    ensures at[k] >= 2 * k
  {
    if k > 0 {
      SpreadOut(at, k - 1);
      assert at[k - 1] + 2 <= at[k];
    }
  }
}
