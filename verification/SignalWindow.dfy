/**
 The pruned per-gate signal window of src/pipeline.ts, against the full history of a gate.
 */
module SignalWindow {
  import opened Domain
  import opened Filtering
  import opened Forecasting

  const SIGNAL_WINDOW_RETENTION_MS: int := 10 * 60 * 1000

  /** An event together with the clock reading under which it was appended. */
  datatype Arrival = Arrival(event: SignalEvent, at: Time)

  function Prune(window: seq<SignalEvent>, cutoff: Time): seq<SignalEvent> {
    if window == [] then
      []
    else
      var n := |window| - 1;
      Prune(window[..n], cutoff) + if window[n].timestamp >= cutoff then [window[n]] else []
  }

  function Append(window: seq<SignalEvent>, event: SignalEvent, now: Time): seq<SignalEvent> {
    Prune(window, now - SIGNAL_WINDOW_RETENTION_MS) + [event]
  }

  /** The window after a run of appends. */
  function WindowAfter(arrivals: seq<Arrival>): seq<SignalEvent> {
    if arrivals == [] then
      []
    else
      var last := arrivals[|arrivals| - 1];
      Append(WindowAfter(arrivals[..|arrivals| - 1]), last.event, last.at)
  }

  /** Every event ever received, in order of arrival. */
  function History(arrivals: seq<Arrival>): seq<SignalEvent> {
    seq(|arrivals|, i requires 0 <= i < |arrivals| => arrivals[i].event)
  }

  lemma {:induction false} PruneHidesNothingRecent(window: seq<SignalEvent>, cutoff: Time, now: Time)
    requires cutoff <= now - RECENT_WINDOW_MS
    ensures Recent(Prune(window, cutoff), now) == Recent(window, now)
  {
    if window != [] {
      var n := |window| - 1;
      PruneHidesNothingRecent(window[..n], cutoff, now);
      RecentAppend(Prune(window[..n], cutoff), if window[n].timestamp >= cutoff then [window[n]] else [], now);
      assert [window[n]][..0] == [] && Recent([], now) == [];
    }
  }

  lemma {:induction false} WindowCountsHistory(arrivals: seq<Arrival>, now: Time)
    requires forall a | a in arrivals :: a.at <= now
    ensures Recent(WindowAfter(arrivals), now) == Recent(History(arrivals), now)
  {
    if arrivals != [] {
      var n := |arrivals| - 1;
      var before, last := WindowAfter(arrivals[..n]), arrivals[n];
      WindowCountsHistory(arrivals[..n], now);
      PruneHidesNothingRecent(before, last.at - SIGNAL_WINDOW_RETENTION_MS, now);
      RecentAppend(Prune(before, last.at - SIGNAL_WINDOW_RETENTION_MS), [last.event], now);
      assert History(arrivals) == History(arrivals[..n]) + [last.event];
      RecentAppend(History(arrivals[..n]), [last.event], now);
    }
  }

  /** What an append prunes does not show in any forecast made from then on. */
  lemma AppendForecasts(gate: Gate, window: seq<SignalEvent>, event: SignalEvent, now: Time, later: Time)
    requires now <= later
    ensures ComputeForecast(gate, Append(window, event, now), later) == ComputeForecast(gate, window + [event], later)
  {
    var cutoff := now - SIGNAL_WINDOW_RETENTION_MS;
    PruneHidesNothingRecent(window, cutoff, later);
    RecentAppend(Prune(window, cutoff), [event], later);
    RecentAppend(window, [event], later);
  }

  lemma {:induction false} PruneAgain(window: seq<SignalEvent>, event: SignalEvent, early: Time, late: Time)
    requires early <= late
    ensures Prune(Prune(window, early), late) == Prune(window, late)
    ensures Prune(window + [event], late) == Prune(window, late) + if event.timestamp >= late then [event] else []
  {
    assert (window + [event])[..|window|] == window;
    if window != [] {
      var n := |window| - 1;
      PruneAgain(window[..n], event, early, late);
      var kept := Prune(window[..n], early);
      assert (kept + [window[n]])[..|kept|] == kept;
      assert kept + [] == kept;
    }
  }

  ghost predicate InOrder(arrivals: seq<Arrival>) {
    forall i, j :: 0 <= i < j < |arrivals| ==> arrivals[i].at <= arrivals[j].at
  }

  lemma {:induction false} PrunePicks(window: seq<SignalEvent>, cutoff: Time)
    ensures Picks(Prune(window, cutoff), window, (e: SignalEvent) => e.timestamp >= cutoff)
  {
    hide Picks;
    var keep := (e: SignalEvent) => e.timestamp >= cutoff;
    if window == [] {
      PicksNone(keep);
    } else {
      var n := |window| - 1;
      PrunePicks(window[..n], cutoff);
      PicksOneMore(Prune(window[..n], cutoff), window[..n], keep, window[n]);
      assert window == window[..n] + [window[n]];
      assert Prune(window[..n], cutoff) + [] == Prune(window[..n], cutoff);
    }
  }

  /** The last arrival, preceded by exactly the earlier events from the 10 minutes before it, in order. */
  ghost predicate IsWindow(window: seq<SignalEvent>, earlier: seq<SignalEvent>, last: Arrival) {
    && window != [] && window[|window| - 1] == last.event
    && Picks(window[..|window| - 1], earlier, (e: SignalEvent) => e.timestamp >= last.at - 10 * MINUTE)
  }

  /**
   Under a clock that never goes back, the window after an append is exactly the earlier history
   of the last 10 minutes, in order, followed by the new event.
   */
  lemma WindowIsRecentHistory(arrivals: seq<Arrival>, last: Arrival)
    requires InOrder(arrivals + [last])
    ensures IsWindow(WindowAfter(arrivals + [last]), History(arrivals), last)
  {
    hide Prune, WindowAfter, Picks;
    WindowIsPrunedHistory(arrivals, last);
    PrunePicks(History(arrivals), last.at - SIGNAL_WINDOW_RETENTION_MS);
    var kept := Prune(History(arrivals), last.at - SIGNAL_WINDOW_RETENTION_MS);
    assert (kept + [last.event])[..|kept|] == kept;
  }

  lemma {:induction false} WindowIsPrunedHistory(arrivals: seq<Arrival>, last: Arrival)
    requires InOrder(arrivals + [last])
    ensures WindowAfter(arrivals + [last])
        == Prune(History(arrivals), last.at - SIGNAL_WINDOW_RETENTION_MS) + [last.event]
    decreases |arrivals|
  {
    hide Prune;
    assert (arrivals + [last])[..|arrivals|] == arrivals;
    if arrivals == [] {
      assert History(arrivals) == [];
    } else {
      var n := |arrivals| - 1;
      var older, before := arrivals[..n], arrivals[n];
      var early, late := before.at - SIGNAL_WINDOW_RETENTION_MS, last.at - SIGNAL_WINDOW_RETENTION_MS;
      assert arrivals == older + [before];
      assert (arrivals + [last])[n] == before && (arrivals + [last])[n + 1] == last;
      assert forall i | 0 <= i < n :: (arrivals + [last])[i] == (older + [before])[i];
      WindowIsPrunedHistory(older, before);
      assert History(arrivals) == History(older) + [before.event];
      PruneAgain(History(older), before.event, early, late);
      PruneAgain(Prune(History(older), early), before.event, late, late);
    }
  }

  /**
   Forecasting from the pruned window is forecasting from everything ever received, at any
   instant that is not before one of the appends. The appends themselves may come in any order.
   */
  lemma CacheAgreesWithHistory(gate: Gate, arrivals: seq<Arrival>, now: Time)
    requires forall a | a in arrivals :: a.at <= now
    ensures ComputeForecast(gate, WindowAfter(arrivals), now) == ComputeForecast(gate, History(arrivals), now)
  {
    WindowCountsHistory(arrivals, now);
  }

  /**
   At an instant before an append the agreement can fail: that append has already pruned an
   event which the earlier forecast still counts.
   */
  lemma EarlierForecastCanMiss(gate: Gate, event: SignalEvent, stale: SignalEvent)
    requires !event.isStale && event.timestamp == 0 && stale.isStale
    ensures var arrivals := [Arrival(event, 0), Arrival(stale, RECENT_WINDOW_MS + 1)];
      && ComputeForecast(gate, WindowAfter(arrivals), 0).lowConfidence
      && !ComputeForecast(gate, History(arrivals), 0).lowConfidence
  {
    hide ComputeForecast;
    var arrivals := [Arrival(event, 0), Arrival(stale, RECENT_WINDOW_MS + 1)];
    assert arrivals[..1] == [Arrival(event, 0)] && arrivals[..1][..0] == [];
    assert [event][..0] == [] && Prune([event], 1) == [];
    assert WindowAfter(arrivals[..1]) == [event];
    assert WindowAfter(arrivals) == [stale];
    SilentWindow(gate, [stale], 0);
    SilentWindow(gate, History(arrivals), 0);
    assert History(arrivals)[0] == event && Fresh(event, 0) && event in History(arrivals);
  }
}
