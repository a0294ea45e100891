/**
 What the pipeline advises when the forecasts it publishes come from the forecaster, with or
 without its deadline fallback: every shuttle redirection and every fan nudge names the gate that
 was the best alternative of all at some moment of the run, the one it was generated at.
 */
module AdviceOptimal {
  import opened Domain
  import opened Forecasting
  import opened Selection
  import opened Redirecting
  import opened Nudging
  import opened Delivering
  import opened PipelineMachine
  import opened PipelineSafety
  import opened PipelineRuns
  import opened Fallback

  // ---------- Forecasts of the forecaster are consistent ----------

  /** The forecaster can publish this result for this gate, after some attempts. */
  ghost predicate Produced(gate: Gate, result: ForecastResult) {
    exists log, attempt: Attempt :: attempt.gate == gate && result == Published(log, attempt)
  }

  ghost predicate FromForecaster(steps: seq<Step>) {
    forall k | 0 <= k < |steps| && steps[k].ScoreStart? :: Produced(steps[k].gate, steps[k].result)
  }

  lemma ProducedConsistent(gate: Gate, result: ForecastResult)
    requires Produced(gate, result)
    ensures DeriveRiskLevel(ScoreOf(result)) == Some(RiskOf(result))
  {
    hide Published, DeriveRiskLevel;
    var log, attempt: Attempt :| attempt.gate == gate && result == Published(log, attempt);
    FallbackSound(log, attempt);
    assert result.scores[0] in result.scores;
  }

  lemma {:induction false} RunConsistent(cfg: Config, clock: Time, steps: seq<Step>)
    requires StrictTotalOrder(cfg.before) && Run(cfg, clock, steps).Some? && FromForecaster(steps)
    ensures Consistent(Run(cfg, clock, steps).value.scores.forecasts)
  {
    hide StrictTotalOrder, Enabled, Next, DeriveRiskLevel, Produced;
    if steps != [] {
      var n := |steps| - 1;
      var s := Run(cfg, clock, steps[..n]).value;
      RunConsistent(cfg, clock, steps[..n]);
      if steps[n].ScoreStart? {
        Dispatch(cfg, s, steps[n]);
        ProducedConsistent(steps[n].gate, steps[n].result);
      } else {
        OwnerFrame(cfg, s, steps[n]);
      }
    }
  }

  // ---------- The best alternative ----------

  /** `best` has the least score of the other gates, ties by id, and a strictly lower risk than `origin`. */
  ghost predicate BestFor(before: GateOrder, forecasts: Forecasts, origin: GateId, best: GateId) {
    LeastScored(before, origin, forecasts, best)
      && Order(GateRisk(forecasts, best)) < Order(GateRisk(forecasts, origin))
  }

  lemma AlternativeIsBest(before: GateOrder, forecasts: Forecasts, origin: GateId)
    requires StrictTotalOrder(before) && Consistent(forecasts)
    ensures var alternative := Alternative(before, origin, GateRisk(forecasts, origin), forecasts);
      && (alternative.Some? ==> BestFor(before, forecasts, origin, alternative.value))
      && (alternative.None? ==> forall best :: !BestFor(before, forecasts, origin, best))
  {
    hide Alternative, StrictTotalOrder, Consistent;
    var risk := GateRisk(forecasts, origin);
    LeastScoredExists(before, origin, risk, forecasts);
    if best :| LeastScored(before, origin, forecasts, best) {
      SelectionOptimal(before, origin, risk, forecasts, best);
    }
    forall best | BestFor(before, forecasts, origin, best)
      ensures Alternative(before, origin, risk, forecasts) == Some(best)
    {
      SelectionOptimal(before, origin, risk, forecasts, best);
    }
  }

  /** `alternative` is the best one of `origin`, or there is none. */
  ghost predicate BestOrNone(before: GateOrder, forecasts: Forecasts, origin: GateId, alternative: Option<GateId>) {
    match alternative
    case Some(best) => BestFor(before, forecasts, origin, best)
    case None => forall best :: !BestFor(before, forecasts, origin, best)
  }

  /** At step k, a handler of `origin` that had started at `at` made its advice, and chose the best alternative. */
  ghost predicate BestAt(
      cfg: Config, clock: Time, steps: seq<Step>, origin: GateId, alternative: Option<GateId>, at: Time, k: nat)
    requires StrictTotalOrder(cfg.before)
  {
    && k < |steps| && (steps[k].Redirect? || steps[k].Decide?) && steps[k].id == origin
    && var earlier := Run(cfg, clock, steps[..k]);
       && earlier.Some? && origin in earlier.value.handlers && earlier.value.handlers[origin].now == at
       && BestOrNone(cfg.before, earlier.value.scores.forecasts, origin, alternative)
  }

  ghost predicate BestDuring(
      cfg: Config, clock: Time, steps: seq<Step>, origin: GateId, alternative: Option<GateId>, at: Time)
    requires StrictTotalOrder(cfg.before)
  {
    exists k: nat :: BestAt(cfg, clock, steps, origin, alternative, at, k)
  }

  lemma EarlierConsistent(cfg: Config, clock: Time, steps: seq<Step>, k: nat)
    requires StrictTotalOrder(cfg.before) && k <= |steps| && Run(cfg, clock, steps[..k]).Some? && FromForecaster(steps)
    ensures Consistent(Run(cfg, clock, steps[..k]).value.scores.forecasts)
  {
    hide Run, Consistent, Produced, StrictTotalOrder;
    RunConsistent(cfg, clock, steps[..k]);
  }

  lemma RedirectionWasBest(cfg: Config, clock: Time, steps: seq<Step>, r: Redirection)
    requires StrictTotalOrder(cfg.before) && FromForecaster(steps) && GeneratedDuring(cfg, clock, steps, r)
    ensures BestDuring(cfg, clock, steps, r.originGateId, Some(r.alternativeGateId), r.generatedAt)
  {
    hide Run, Consistent, BestFor, Alternative, StrictTotalOrder, FromForecaster, Obeys;
    var m: nat :| GeneratedAt(cfg, clock, steps, r, m);
    EarlierConsistent(cfg, clock, steps, m);
    AlternativeIsBest(cfg.before, Run(cfg, clock, steps[..m]).value.scores.forecasts, r.originGateId);
    assert BestAt(cfg, clock, steps, r.originGateId, Some(r.alternativeGateId), r.generatedAt, m);
  }

  lemma NudgeWasBest(cfg: Config, clock: Time, steps: seq<Step>, n: FanNudge)
    requires StrictTotalOrder(cfg.before) && FromForecaster(steps) && MadeDuring(cfg, clock, steps, n)
    ensures BestDuring(cfg, clock, steps, n.originGateId, n.alternativeGateId, n.generatedAt)
  {
    hide Run, Consistent, BestFor, Alternative, StrictTotalOrder, FromForecaster, GenerateFanNudge;
    var m: nat :| MadeAt(cfg, clock, steps, n, m);
    EarlierConsistent(cfg, clock, steps, m);
    AlternativeIsBest(cfg.before, Run(cfg, clock, steps[..m]).value.scores.forecasts, n.originGateId);
    assert BestAt(cfg, clock, steps, n.originGateId, n.alternativeGateId, n.generatedAt, m);
  }

  /**
   Over every interleaving, when all forecasts come from the forecaster: the alternative that a
   published redirection names was, at the step that made it, of strictly lower risk than the
   origin and of the least score among all other gates, ties by id; and so was that of a stored
   nudge, which names none exactly when there was no such gate.
   */
  lemma AdviceWasBest(cfg: Config, clock: Time, steps: seq<Step>)
    requires StrictTotalOrder(cfg.before) && Run(cfg, clock, steps).Some? && FromForecaster(steps)
    ensures var s := Run(cfg, clock, steps).value;
      && (forall r | r in s.advice.published ::
            BestDuring(cfg, clock, steps, r.originGateId, Some(r.alternativeGateId), r.generatedAt))
      && (forall id | id in s.nudges.queue ::
            var n := s.nudges.queue[id];
            BestDuring(cfg, clock, steps, n.originGateId, n.alternativeGateId, n.generatedAt))
  {
    hide Run, StrictTotalOrder, FromForecaster, BestDuring, GeneratedDuring, MadeDuring;
    RedirectionsObeyList(cfg, clock, steps);
    EveryNudgeMade(cfg, clock, steps);
    var s := Run(cfg, clock, steps).value;
    forall r | r in s.advice.published
      ensures BestDuring(cfg, clock, steps, r.originGateId, Some(r.alternativeGateId), r.generatedAt)
    {
      assert Generated(cfg, clock, steps)(r);
      RedirectionWasBest(cfg, clock, steps, r);
    }
    forall id | id in s.nudges.queue
      ensures var n := s.nudges.queue[id];
        BestDuring(cfg, clock, steps, n.originGateId, n.alternativeGateId, n.generatedAt)
    {
      assert Made(cfg, clock, steps)(Original(s.nudges.queue[id]));
      NudgeWasBest(cfg, clock, steps, Original(s.nudges.queue[id]));
    }
  }
}
