/**
 The deadline fallback (src/congestion-forecaster/fallback.ts) and its last-known-score cache.
 Which side wins the race is a parameter.
 */
module Fallback {
  import opened Domain
  import opened Forecasting

  /** One call: its arguments, and whether the deadline won. */
  datatype Attempt = Attempt(gate: Gate, window: seq<SignalEvent>, now: Time, timedOut: bool)

  /** The current point of a gate's latest attempt that finished in time. */
  function LatestFresh(log: seq<Attempt>, gate: GateId): Option<ScorePoint> {
    if log == [] then
      None
    else
      var last := log[|log| - 1];
      if last.gate.gateId == gate && !last.timedOut then
        Some(ComputeForecast(last.gate, last.window, last.now).scores[0])
      else
        LatestFresh(log[..|log| - 1], gate)
  }

  /** The gate's latest attempt that finished in time is number k of the log. */
  ghost predicate IsLatestFresh(log: seq<Attempt>, gate: GateId, k: nat) {
    && k < |log| && log[k].gate.gateId == gate && !log[k].timedOut
    && forall i | k < i < |log| && log[i].gate.gateId == gate :: log[i].timedOut
  }

  /** The cached point is the current one of that attempt, and there is one exactly when some attempt was in time. */
  lemma {:induction false} LatestFreshAt(log: seq<Attempt>, gate: GateId)
    ensures forall k: nat | IsLatestFresh(log, gate, k) ::
      LatestFresh(log, gate) == Some(ComputeForecast(log[k].gate, log[k].window, log[k].now).scores[0])
    ensures LatestFresh(log, gate).Some? <==> exists k: nat :: IsLatestFresh(log, gate, k)
  {
    if log != [] {
      var n := |log| - 1;
      LatestFreshAt(log[..n], gate);
      if log[n].gate.gateId == gate && !log[n].timedOut {
        assert IsLatestFresh(log, gate, n);
      } else {
        forall k: nat ensures IsLatestFresh(log, gate, k) <==> IsLatestFresh(log[..n], gate, k) {
          assert k < n ==> log[..n][k] == log[k];
        }
        assert forall k: nat | IsLatestFresh(log, gate, k) :: log[..n][k] == log[k];
      }
    }
  }

  function Outdated(forecast: ForecastResult): ForecastResult {
    ForecastResult(
      seq(|forecast.scores|, i requires 0 <= i < |forecast.scores| => forecast.scores[i].(outdated := true)),
      true)
  }

  /** What an attempt publishes, given everything that was attempted before it. */
  function Published(log: seq<Attempt>, attempt: Attempt): ForecastResult {
    if !attempt.timedOut then
      ComputeForecast(attempt.gate, attempt.window, attempt.now)
    else
      match LatestFresh(log, attempt.gate.gateId)
      case Some(point) => ForecastResult([point.(outdated := true)], point.lowConfidence)
      case None => Outdated(ComputeForecast(attempt.gate, [], attempt.now))
  }

  class ForecastFallback {
    var lastKnown: map<GateId, ScorePoint>
    ghost var log: seq<Attempt>

    /** The cache holds, per gate, the current point of the latest attempt that was in time. */
    ghost predicate Valid()
      reads this
    {
      forall gate :: LatestFresh(log, gate) == if gate in lastKnown then Some(lastKnown[gate]) else None
    }

    constructor ()
      ensures Valid() && log == []
    {
      lastKnown, log := map[], [];
    }

    method ComputeForecastWithFallback(gate: Gate, window: seq<SignalEvent>, now: Time, timedOut: bool)
      returns (result: ForecastResult)
      requires Valid()
      modifies this
      ensures Valid() && log == old(log) + [Attempt(gate, window, now, timedOut)]
      ensures result == Published(old(log), Attempt(gate, window, now, timedOut))
      ensures !timedOut ==> result == ComputeForecast(gate, window, now)
      ensures !timedOut ==> lastKnown == old(lastKnown)[gate.gateId := result.scores[0]]
      ensures timedOut ==> lastKnown == old(lastKnown)
    {
      log := log + [Attempt(gate, window, now, timedOut)];
      assert log[..|log| - 1] == old(log);
      if timedOut {
        assert LatestFresh(old(log), gate.gateId)
            == if gate.gateId in lastKnown then Some(lastKnown[gate.gateId]) else None;
        if gate.gateId in lastKnown {
          var point := lastKnown[gate.gateId].(outdated := true);
          return ForecastResult([point], point.lowConfidence);
        }
        var default := ComputeForecast(gate, [], now);
        return Outdated(default);
      }
      result := ComputeForecast(gate, window, now);
      lastKnown := lastKnown[gate.gateId := result.scores[0]];
    }
  }

  lemma {:induction false} LatestFreshIsFresh(log: seq<Attempt>, gate: GateId)
    ensures var point := LatestFresh(log, gate);
      point.Some? ==>
        && !point.value.outdated && point.value.gateId == gate && point.value.offsetMinutes == 0
        && DeriveRiskLevel(point.value.score) == Some(point.value.risk)
  {
    if log != [] {
      var last := log[|log| - 1];
      if last.gate.gateId == gate && !last.timedOut {
        ForecastWellFormed(last.gate, last.window, last.now);
        var f := ComputeForecast(last.gate, last.window, last.now);
        assert f.scores[0] in f.scores;
      } else {
        LatestFreshIsFresh(log[..|log| - 1], gate);
      }
    }
  }

  /**
   Over every sequence of successes and timeouts: a published result is well-formed and of its
   own gate, outdated as a whole exactly when the attempt timed out. An attempt in time publishes
   the forecast of its own window. A timeout publishes the current point of the gate's latest
   attempt in time as it was then, or, when there is none, score 0 at every offset.
   */
  lemma FallbackSound(log: seq<Attempt>, attempt: Attempt)
    ensures var result, gate := Published(log, attempt), attempt.gate.gateId;
      && WellFormed(result)
      && (!attempt.timedOut ==> result == ComputeForecast(attempt.gate, attempt.window, attempt.now))
      && (forall p | p in result.scores :: p.gateId == gate && p.outdated == attempt.timedOut)
      && (attempt.timedOut ==> forall k: nat | IsLatestFresh(log, gate, k) ::
            var point := ComputeForecast(log[k].gate, log[k].window, log[k].now).scores[0];
            result == ForecastResult([point.(outdated := true)], point.lowConfidence))
      && (attempt.timedOut && !(exists k: nat :: IsLatestFresh(log, gate, k)) ==>
            |result.scores| == 4 && result.lowConfidence
            && forall p | p in result.scores :: p.score == 0 && p.risk == LOW)
  {
    LatestFreshIsFresh(log, attempt.gate.gateId);
    LatestFreshAt(log, attempt.gate.gateId);
    ForecastWellFormed(attempt.gate, attempt.window, attempt.now);
    ForecastWellFormed(attempt.gate, [], attempt.now);
    SilentWindow(attempt.gate, [], attempt.now);
    var zero := ComputeForecast(attempt.gate, [], attempt.now);
    assert zero.lowConfidence;
    forall p | p in Outdated(zero).scores
      ensures p.outdated && p.gateId == attempt.gate.gateId && p.score == 0 && p.risk == LOW
          && DeriveRiskLevel(p.score) == Some(p.risk)
    {
      var i :| 0 <= i < |zero.scores| && p == zero.scores[i].(outdated := true);
      assert zero.scores[i] in zero.scores;
    }
  }
}
