/**
 Simulated delivery of queued nudges (src/fan-notification-system/delivery.ts and
 delivery-worker.ts), over the in-memory nudge store of src/server.ts.
 */
module Delivering {
  import opened Domain
  import opened Nudging

  datatype DeliveryRecord = DeliveryRecord(fanId: FanId, targetGate: GateId, simulatedDeliveryTimestamp: Time)

  /**
   One entry of the audit sink: a delivery carries its record, a cancellation none. The risk the
   decision was taken under is history only; the source does not store it.
   */
  datatype AuditEntry = AuditEntry(nudge: FanNudge, record: Option<DeliveryRecord>, decidedUnder: RiskLevel)

  function SimulateDelivery(nudge: FanNudge, forecasts: Forecasts, now: Time): (r: (FanNudge, Option<DeliveryRecord>))
    ensures r.0.(status := nudge.status, simulatedDeliveryTimestamp := nudge.simulatedDeliveryTimestamp) == nudge
    ensures r.1.Some? <==> IsHot(GateRisk(forecasts, nudge.originGateId))
    ensures r.1.Some? ==>
      r.0.simulatedDeliveryTimestamp == Some(now) && r.1.value == DeliveryRecord(nudge.fanId, nudge.originGateId, now)
    ensures r.0.status == if r.1.Some? then SIMULATED_DELIVERED else CANCELLED
    ensures r.1.None? ==> r.0.simulatedDeliveryTimestamp == nudge.simulatedDeliveryTimestamp
    ensures nudge.originGateId !in forecasts ==> r.0.status == CANCELLED
  {
    var risk := GateRisk(forecasts, nudge.originGateId);
    if risk == LOW || risk == MODERATE then
      (nudge.(status := CANCELLED), None)
    else
      (nudge.(status := SIMULATED_DELIVERED, simulatedDeliveryTimestamp := Some(now)),
       Some(DeliveryRecord(nudge.fanId, nudge.originGateId, now)))
  }

  function Decision(nudge: FanNudge, forecasts: Forecasts, now: Time): AuditEntry {
    var (updated, record) := SimulateDelivery(nudge, forecasts, now);
    AuditEntry(updated, record, GateRisk(forecasts, nudge.originGateId))
  }

  /** The forecast map as a pass finds it when it visits a nudge. */
  type LiveForecasts = NudgeId -> Forecasts

  /**
   The store once the nudges of `done` have been visited: queued ones are decided, the others
   untouched. The forecast map is live while a pass awaits its store updates, so each nudge is
   decided on the map of its own visit, `live(id)`.
   */
  function Processed(
      queue: map<NudgeId, FanNudge>, done: set<NudgeId>, live: LiveForecasts, now: Time)
      : map<NudgeId, FanNudge>
  {
    map id | id in queue ::
      if id in done && queue[id].status == QUEUED then Decision(queue[id], live(id), now).nudge else queue[id]
  }

  ghost predicate KeyedById(queue: map<NudgeId, FanNudge>) {
    forall id | id in queue :: queue[id].id == id
  }

  /** `ids` lists the queued nudges of `done`, each once. */
  ghost predicate ListsQueued(ids: seq<NudgeId>, queue: map<NudgeId, FanNudge>, done: set<NudgeId>)
    ensures ListsQueued(ids, queue, done) ==> forall id | id in ids :: id in queue
  {
    && (forall i, j :: 0 <= i < j < |ids| ==> ids[i] != ids[j])
    && (forall id :: id in ids <==> id in queue && id in done && queue[id].status == QUEUED)
  }

  function Decisions(ids: seq<NudgeId>, queue: map<NudgeId, FanNudge>, live: LiveForecasts, now: Time): seq<AuditEntry>
    requires forall id | id in ids :: id in queue
  {
    seq(|ids|, i requires 0 <= i < |ids| => Decision(queue[ids[i]], live(ids[i]), now))
  }

  lemma VisitNudge(
      queue: map<NudgeId, FanNudge>, done: set<NudgeId>, ids: seq<NudgeId>, id: NudgeId, live: LiveForecasts, now: Time)
    requires KeyedById(queue) && id in queue && id !in done && ListsQueued(ids, queue, done)
    ensures queue[id].status != QUEUED ==>
      && Processed(queue, done + {id}, live, now) == Processed(queue, done, live, now)
      && ListsQueued(ids, queue, done + {id})
    ensures queue[id].status == QUEUED ==>
      && var entry := Decision(queue[id], live(id), now);
      && Processed(queue, done + {id}, live, now) == Processed(queue, done, live, now)[id := entry.nudge]
      && ListsQueued(ids + [id], queue, done + {id})
      && Decisions(ids + [id], queue, live, now) == Decisions(ids, queue, live, now) + [entry]
  {
  }

  lemma KeyedAt(queue: map<NudgeId, FanNudge>, id: NudgeId)
    requires KeyedById(queue) && id in queue
    ensures queue[id].id == id
  {
  }

  lemma PassBounds(queue: map<NudgeId, FanNudge>, live: LiveForecasts, now: Time)
    requires KeyedById(queue)
    ensures ListsQueued([], queue, {}) && Processed(queue, {}, live, now) == queue
    ensures var after := Processed(queue, queue.Keys, live, now);
      KeyedById(after) && forall id | id in after :: after[id].status != QUEUED
  {
  }

  class FanNudgeDeliveryWorker {
    var queue: map<NudgeId, FanNudge>
    var audit: seq<AuditEntry>

    constructor ()
      ensures queue == map[] && audit == []
    {
      queue, audit := map[], [];
    }

    /**
     One pass over the store, whose values come in no particular order. Every queued nudge is
     decided and audited exactly once, on the forecasts of its visit; nothing else changes and
     nothing stays queued.
     */
    method ProcessQueue(live: LiveForecasts, now: Time) returns (ghost ids: seq<NudgeId>)
      requires KeyedById(queue)
      modifies this
      ensures ListsQueued(ids, old(queue), old(queue).Keys)
      ensures queue == Processed(old(queue), old(queue).Keys, live, now)
      ensures audit == old(audit) + Decisions(ids, old(queue), live, now)
      ensures KeyedById(queue) && forall id | id in queue :: queue[id].status != QUEUED
    {
      hide ListsQueued, Processed, SimulateDelivery, KeyedById;
      PassBounds(queue, live, now);
      var queued := queue;
      var remaining := queued.Keys;
      ids := [];
      assert queued.Keys - remaining == {};
      while remaining != {}
        invariant remaining <= queued.Keys
        invariant ListsQueued(ids, queued, queued.Keys - remaining)
        invariant queue == Processed(queued, queued.Keys - remaining, live, now)
        invariant audit == old(audit) + Decisions(ids, queued, live, now)
        decreases |remaining|
      {
        var id :| id in remaining;
        VisitNudge(queued, queued.Keys - remaining, ids, id, live, now);
        assert queued.Keys - (remaining - {id}) == queued.Keys - remaining + {id};
        remaining := remaining - {id};
        var nudge := queued[id];
        assert nudge.id == id by { KeyedAt(queued, id); }
        if nudge.status != QUEUED {
          continue;
        }
        var (updated, record) := SimulateDelivery(nudge, live(id), now);
        queue := queue[updated.id := updated];
        audit := audit + [AuditEntry(updated, record, GateRisk(live(id), nudge.originGateId))];
        ids := ids + [id];
      }
      assert queued.Keys - {} == queued.Keys;
    }
  }
}
