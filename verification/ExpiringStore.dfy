/**
 The lazily evicting TTL maps of `MockRedisClientWrapper` (src/server.ts), and the
 degraded-source tracker built on one of them (src/signal-ingestion/degraded-source.ts).

 Every access takes one reading of a clock that never goes back. Each map of the wrapper is
 its own `ExpiringStore`; no operation touches two of them.
 */
module Expiry {
  import opened Domain

  datatype Entry<V> = Entry(value: V, expiresAt: Time)
  datatype Write<K, V> = Write(key: K, value: V, at: Time, ttl: int)

  /** What a read at `now` finds in the map, and the map it leaves behind. */
  function Lookup<K, V>(entries: map<K, Entry<V>>, key: K, now: Time): Option<V> {
    if key in entries && now < entries[key].expiresAt then Some(entries[key].value) else None
  }

  function Evicted<K, V>(entries: map<K, Entry<V>>, key: K, now: Time): (left: map<K, Entry<V>>)
    ensures key in left ==> now < left[key].expiresAt
    ensures forall k | k in entries && (k != key || now < entries[k].expiresAt) :: k in left && left[k] == entries[k]
    ensures left.Keys <= entries.Keys
  {
    if key in entries && now >= entries[key].expiresAt then entries - {key} else entries
  }

  function Stored<K, V>(entries: map<K, Entry<V>>, key: K, value: V, now: Time, ttl: int): map<K, Entry<V>> {
    entries[key := Entry(value, now + ttl)]
  }

  // ---------- The log that a store stands for ----------

  function LastWrite<K(==), V>(log: seq<Write<K, V>>, key: K): Option<Write<K, V>> {
    if log == [] then None
    else if log[|log| - 1].key == key then Some(log[|log| - 1])
    else LastWrite(log[..|log| - 1], key)
  }

  /** The answer of a map that never evicts: the last write, if it is younger than its TTL. */
  function LiveAt<K(==), V>(log: seq<Write<K, V>>, key: K, now: Time): Option<V> {
    var last := LastWrite(log, key);
    if last.Some? && now - last.value.at < last.value.ttl then Some(last.value.value) else None
  }

  ghost predicate Ordered<K, V>(log: seq<Write<K, V>>) {
    forall i, j :: 0 <= i < j < |log| ==> log[i].at <= log[j].at
  }

  ghost predicate Chronological<K, V>(log: seq<Write<K, V>>, clock: Time) {
    Ordered(log) && forall w | w in log :: w.at <= clock
  }

  /** The map holds exactly the last writes, except that expired ones may have been evicted. */
  ghost predicate Tracks<K(!new), V>(entries: map<K, Entry<V>>, log: seq<Write<K, V>>, clock: Time) {
    && Chronological(log, clock)
    && (forall key | key in entries ::
          var last := LastWrite(log, key);
          last.Some? && entries[key] == Entry(last.value.value, last.value.at + last.value.ttl))
    && (forall key | key !in entries ::
          var last := LastWrite(log, key);
          last.Some? ==> clock >= last.value.at + last.value.ttl)
  }

  lemma TracksOrdered<K(!new), V>(entries: map<K, Entry<V>>, log: seq<Write<K, V>>, clock: Time)
    requires Tracks(entries, log, clock)
    ensures Ordered(log) && forall w | w in log :: w.at <= clock
  {
  }

  lemma TracksEmpty<K(!new), V>(clock: Time)
    ensures Tracks<K, V>(map[], [], clock)
  {
  }

  lemma ReadTracks<K(!new), V>(entries: map<K, Entry<V>>, log: seq<Write<K, V>>, clock: Time, key: K, now: Time)
    requires Tracks(entries, log, clock) && clock <= now
    ensures Lookup(entries, key, now) == LiveAt(log, key, now)
    ensures Tracks(Evicted(entries, key, now), log, now)
  {
  }

  lemma WriteTracks<K(!new), V>(
      entries: map<K, Entry<V>>, log: seq<Write<K, V>>, clock: Time, key: K, value: V, now: Time, ttl: int)
    requires Tracks(entries, log, clock) && clock <= now
    ensures Tracks(Stored(entries, key, value, now, ttl), log + [Write(key, value, now, ttl)], now)
  {
  }

  lemma {:induction false} LastWriteIsLatest<K, V>(log: seq<Write<K, V>>, key: K)
    requires Ordered(log)
    ensures LastWrite(log, key).None? ==> forall w | w in log :: w.key != key
    ensures var last := LastWrite(log, key);
      last.Some? ==>
        last.value in log && last.value.key == key && forall w | w in log && w.key == key :: w.at <= last.value.at
  {
    if log != [] {
      var n := |log| - 1;
      assert log == log[..n] + [log[n]];
      LastWriteIsLatest(log[..n], key);
    }
  }

  /** Under one TTL per key, a key is live exactly when some write to it is younger than the TTL. */
  lemma LiveIffRecentWrite<K, V>(log: seq<Write<K, V>>, key: K, ttl: int, now: Time)
    requires Ordered(log)
    requires forall w | w in log && w.key == key :: w.ttl == ttl
    ensures LiveAt(log, key, now).Some? <==> exists w :: w in log && w.key == key && now - w.at < ttl
  {
    LastWriteIsLatest(log, key);
  }

  class ExpiringStore<K(==, !new), V> {
    var entries: map<K, Entry<V>>
    ghost var log: seq<Write<K, V>>
    ghost var clock: Time

    ghost predicate Valid()
      reads this
    {
      Tracks(entries, log, clock)
    }

    constructor (ghost now: Time)
      ensures Valid() && log == [] && clock == now
    {
      entries, log, clock := map[], [], now;
    }

    /** `getIfNotExpired`: an expired entry is deleted on the way. */
    method GetIfNotExpired(key: K, now: Time) returns (r: Option<V>)
      requires Valid() && clock <= now
      modifies this
      ensures Valid() && log == old(log) && clock == now
      ensures r == LiveAt(log, key, now)
      ensures r.None? ==> key !in entries
    {
      ReadTracks(entries, log, clock, key, now);
      clock := now;
      if key !in entries {
        return None;
      }
      if now >= entries[key].expiresAt {
        entries := entries - {key};
        return None;
      }
      return Some(entries[key].value);
    }

    method Put(key: K, value: V, now: Time, ttl: int)
      requires Valid() && clock <= now
      modifies this
      ensures Valid() && clock == now
      ensures log == old(log) + [Write(key, value, now, ttl)]
    {
      WriteTracks(entries, log, clock, key, value, now, ttl);
      entries := entries[key := Entry(value, now + ttl)];
      log := log + [Write(key, value, now, ttl)];
      clock := now;
    }
  }

  // ---------- Degraded sources ----------

  datatype SourceType = GATE_COUNTER | TICKET_SCANNER | TRANSIT_FEED
  type SourceKey = (SourceType, string)

  function SourceTimeoutMs(source: SourceType): int {
    match source
    case GATE_COUNTER => 45000
    case TICKET_SCANNER => 45000
    case TRANSIT_FEED => 90000
  }

  /** Some signal of the source was received less than `timeout` ago. */
  ghost predicate HeardWithin(
      touches: seq<Write<SourceKey, string>>, source: SourceType, id: string, now: Time, timeout: int)
  {
    exists w :: w in touches && w.key == (source, id) && now - w.at < timeout
  }

  class DegradedSourceTracker {
    const timers: ExpiringStore<SourceKey, string>

    ghost predicate Valid()
      reads this, timers
    {
      && timers.Valid()
      && forall w | w in timers.log :: w.ttl == SourceTimeoutMs(w.key.0)
    }

    constructor (ghost now: Time)
      ensures Valid() && fresh(timers) && timers.log == [] && timers.clock == now
    {
      timers := new ExpiringStore(now);
    }

    method MarkActive(source: SourceType, id: string, now: Time)
      requires Valid() && timers.clock <= now
      modifies timers
      ensures Valid() && timers.clock == now
      ensures timers.log
           == old(timers.log) + [Write((source, id), "1", now, if source == TRANSIT_FEED then 90 * SECOND
             else 45 * SECOND)]
    {
      timers.Put((source, id), "1", now, SourceTimeoutMs(source));
    }

    /** Degraded exactly when no signal came within 90 seconds, for a transit feed, or 45, for a gate's own sources. */
    method IsDegraded(source: SourceType, id: string, now: Time) returns (degraded: bool)
      requires Valid() && timers.clock <= now
      modifies timers
      ensures Valid() && timers.clock == now && timers.log == old(timers.log)
      ensures source == TRANSIT_FEED ==> (degraded <==> !HeardWithin(timers.log, source, id, now, 90 * SECOND))
      ensures source != TRANSIT_FEED ==> (degraded <==> !HeardWithin(timers.log, source, id, now, 45 * SECOND))
    {
      LiveIffRecentWrite(timers.log, (source, id), SourceTimeoutMs(source), now);
      var value := timers.GetIfNotExpired((source, id), now);
      degraded := value == None;
    }
  }
}
