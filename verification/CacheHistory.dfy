/**
 The response cache of internal/shared/cache.go as a history of locked steps. A lookup answers from the
 history alone: the background cleanup cannot be observed.

 Times are seconds. The steps are in the order in which they hold the lock; a lookup reads the clock after
 that, so its time may be later than that of steps behind it.
*/
module CacheHistory {
  import opened Options
  import opened Sources

  const TTL_FULL: int := 3600
  const TTL_PARTIAL: int := 900

  datatype Key = Key(text: string)

  /** All sources succeeded: an hour; some failed: a quarter; all failed: not at all. */
  function TTL(sources: seq<Source>): int {
    if sources != [] && (forall i :: 0 <= i < |sources| ==> !sources[i].success) then 0
    else if exists i :: 0 <= i < |sources| && !sources[i].success then TTL_PARTIAL
    else TTL_FULL
  }

  method SelectTTL(sources: seq<Source>) returns (ttl: int)
    ensures ttl == TTL(sources)
  {
    if |sources| == 0 {
      return TTL_FULL;
    }
    var anyFailed, allFailed := false, true;
    for i := 0 to |sources|
      invariant anyFailed <==> exists k :: 0 <= k < i && !sources[k].success
      invariant allFailed <==> forall k :: 0 <= k < i ==> !sources[k].success
    {
      if sources[i].success { allFailed := false; } else { anyFailed := true; }
    }
    if allFailed {
      return 0;
    }
    if anyFailed {
      return TTL_PARTIAL;
    }
    return TTL_FULL;
  }

  datatype Entry<D> = Entry(data: D, expiry: int)

  datatype Event<D> =
    | Get(key: Key, now: int)
    | Set(key: Key, data: D, sources: seq<Source>, now: int)
    | Delete(key: Key)
    | Cleanup(now: int)
  {
    /** A Set that stores something, or a Delete. */
    predicate Writes(k: Key) {
      || (Set? && key == k && TTL(sources) != 0)
      || (Delete? && key == k)
    }
  }

  function Apply<D>(entries: map<Key, Entry<D>>, e: Event<D>): map<Key, Entry<D>> {
    match e
    case Get(_, _) => entries
    case Set(key, data, sources, now) =>
      if TTL(sources) == 0 then entries else entries[key := Entry(data, now + TTL(sources))]
    case Delete(key) => entries - {key}
    case Cleanup(now) => map k | k in entries && now <= entries[k].expiry :: entries[k]
  }

  function Lookup<D>(entries: map<Key, Entry<D>>, key: Key, now: int): Option<D> {
    if key !in entries || now > entries[key].expiry then None else Some(entries[key].data)
  }

  /** The entries after the first k steps. */
  function After<D>(h: seq<Event<D>>, k: nat): map<Key, Entry<D>>
    requires k <= |h|
  {
    if k == 0 then map[] else Apply(After(h, k - 1), h[k - 1])
  }

  /** What the lookup at step i delivers. */
  function Answer<D>(h: seq<Event<D>>, i: nat): Option<D>
    requires i < |h|
  {
    if h[i].Get? then Lookup(After(h, i), h[i].key, h[i].now) else None
  }

  /** A lookup behind a cleanup reads the clock later than the cleanup did. */
  ghost predicate Clocked<D(!new)>(h: seq<Event<D>>) {
    forall i, j :: 0 <= i < j < |h| && h[i].Cleanup? && h[j].Get? ==> h[i].now <= h[j].now
  }

  /** Step s stores under the key, and no step behind it and before k writes that key. */
  ghost predicate Latest<D(!new)>(h: seq<Event<D>>, s: int, k: nat, key: Key)
    requires k <= |h|
  {
    && 0 <= s < k && h[s].Set? && h[s].Writes(key)
    && forall j :: s < j < k ==> !h[j].Writes(key)
  }

  function Expiry<D>(e: Event<D>): int
    requires e.Set?
  {
    e.now + TTL(e.sources)
  }

  lemma LatestIsUnique<D(!new)>(h: seq<Event<D>>, s: int, t: int, k: nat, key: Key)
    requires k <= |h| && Latest(h, s, k, key) && Latest(h, t, k, key)
    ensures s == t
  {
  }

  /**
   What the map holds under a key is the latest Set; what it does not hold was never set, was deleted or was
   cleaned up expired.
  */
  ghost predicate Reflects<D(!new)>(h: seq<Event<D>>, k: nat, key: Key)
    requires k <= |h|
  {
    var entries := After(h, k);
    if key in entries then
      exists s :: Latest(h, s, k, key) && entries[key] == Entry(h[s].data, Expiry(h[s]))
    else
      forall s :: Latest(h, s, k, key) ==> CleanedUp(h, s, k)
  }

  ghost predicate CleanedUp<D(!new)>(h: seq<Event<D>>, s: int, k: nat)
    requires 0 <= s < k <= |h| && h[s].Set?
  {
    exists c :: s < c < k && h[c].Cleanup? && h[c].now > Expiry(h[s])
  }

  lemma LatestStays<D(!new)>(h: seq<Event<D>>, s: int, k: nat, key: Key)
    requires k < |h| && !h[k].Writes(key)
    ensures Latest(h, s, k, key) <==> Latest(h, s, k + 1, key)
  {
  }

  lemma WriteReflects<D(!new)>(h: seq<Event<D>>, k: nat, key: Key)
    requires k < |h| && h[k].Writes(key)
    ensures Reflects(h, k + 1, key)
  {
    if h[k].Set? { assert Latest(h, k, k + 1, key); }
  }

  lemma CleanupReflects<D(!new)>(h: seq<Event<D>>, k: nat, key: Key)
    requires k < |h| && h[k].Cleanup? && Reflects(h, k, key)
    ensures Reflects(h, k + 1, key)
  {
    var n, before, entries := k + 1, After(h, k), After(h, k + 1);
    if key in before {
      var s :| Latest(h, s, k, key) && before[key] == Entry(h[s].data, Expiry(h[s]));
      LatestStays(h, s, k, key);
      if key !in entries {
        forall t | Latest(h, t, n, key) ensures CleanedUp(h, t, n) {
          LatestIsUnique(h, s, t, k + 1, key);
        }
      }
    } else {
      forall t | Latest(h, t, n, key) ensures CleanedUp(h, t, n) {
        LatestStays(h, t, k, key);
        assert CleanedUp(h, t, k);
      }
    }
  }

  lemma OtherReflects<D(!new)>(h: seq<Event<D>>, k: nat, key: Key)
    requires k < |h| && !h[k].Cleanup? && !h[k].Writes(key) && Reflects(h, k, key)
    ensures Reflects(h, k + 1, key)
  {
    var n := k + 1;
    if key in After(h, k) {
      var s :| Latest(h, s, k, key) && After(h, k)[key] == Entry(h[s].data, Expiry(h[s]));
      LatestStays(h, s, k, key);
    } else {
      forall t | Latest(h, t, n, key) ensures CleanedUp(h, t, n) {
        LatestStays(h, t, k, key);
        assert CleanedUp(h, t, k);
      }
    }
  }

  lemma {:induction false} AlwaysReflects<D(!new)>(h: seq<Event<D>>, k: nat, key: Key)
    requires k <= |h|
    ensures Reflects(h, k, key)
  {
    if k > 0 {
      AlwaysReflects(h, k - 1, key);
      if h[k - 1].Writes(key) {
        WriteReflects(h, k - 1, key);
      } else if h[k - 1].Cleanup? {
        CleanupReflects(h, k - 1, key);
      } else {
        OtherReflects(h, k - 1, key);
      }
    }
  }

  /**
   A lookup delivers what the latest effective Set of its key stored, exactly if that has not expired and
   was not deleted since: cleanups, wherever they come, make no difference.
  */
  lemma AnswersFromHistory<D(!new)>(h: seq<Event<D>>, i: nat, data: D)
    requires Clocked(h) && i < |h| && h[i].Get?
    ensures Answer(h, i) == Some(data)
       <==> exists s :: Latest(h, s, i, h[i].key) && h[s].data == data && h[i].now <= Expiry(h[s])
  {
    var key, now, entries := h[i].key, h[i].now, After(h, i);
    AlwaysReflects(h, i, key);
    if key in entries {
      var s :| Latest(h, s, i, key) && entries[key] == Entry(h[s].data, Expiry(h[s]));
      forall t | Latest(h, t, i, key) ensures t == s { LatestIsUnique(h, s, t, i, key); }
    } else {
      forall s | Latest(h, s, i, key) ensures now > Expiry(h[s]) {
        assert CleanedUp(h, s, i);
      }
    }
  }

  /** Some source succeeded, or none was asked. */
  predicate IsKept(sources: seq<Source>) {
    sources == [] || exists k :: 0 <= k < |sources| && sources[k].success
  }

  predicate IsPartial(sources: seq<Source>) {
    exists k :: 0 <= k < |sources| && !sources[k].success
  }

  /** Step s stores under the key, and up to step i nothing is stored under it or deletes it. */
  ghost predicate Stands<D(!new)>(h: seq<Event<D>>, s: int, i: nat, key: Key)
    requires i <= |h|
  {
    && 0 <= s < i && h[s].Set? && h[s].key == key && IsKept(h[s].sources)
    && (forall j :: s < j < i && h[j].Set? && h[j].key == key ==> !IsKept(h[j].sources))
    && (forall j :: s < j < i && h[j].Delete? ==> h[j].key != key)
  }

  lemma TTLIs(sources: seq<Source>)
    ensures TTL(sources) == if !IsKept(sources) then 0 else if IsPartial(sources) then 15 * 60 else 60 * 60
  {
  }

  lemma StandsIsLatest<D(!new)>(h: seq<Event<D>>, s: int, i: nat, key: Key)
    requires i <= |h|
    ensures Stands(h, s, i, key) <==> Latest(h, s, i, key)
  {
    forall j | 0 <= j < i ensures h[j].Writes(key) <==>
      (h[j].Set? && h[j].key == key && IsKept(h[j].sources)) || (h[j].Delete? && h[j].key == key)
    {
      if h[j].Set? { TTLIs(h[j].sources); }
    }
  }

  /**
   In plain numbers: a lookup delivers what stands under its key for an hour, or for fifteen minutes if a source
   had failed; a Set of which every source failed neither stands nor replaces what does.
  */
  lemma AnswersInTime<D(!new)>(h: seq<Event<D>>, i: nat, data: D)
    requires Clocked(h) && i < |h| && h[i].Get?
    ensures Answer(h, i) == Some(data) <==>
            exists s :: Stands(h, s, i, h[i].key) && h[s].data == data
                        && h[i].now <= h[s].now + if IsPartial(h[s].sources) then 900 else 3600
  {
    AnswersFromHistory(h, i, data);
    forall s ensures Stands(h, s, i, h[i].key) <==> Latest(h, s, i, h[i].key) { StandsIsLatest(h, s, i, h[i].key); }
    forall s | Stands(h, s, i, h[i].key)
      ensures Expiry(h[s]) == h[s].now + if IsPartial(h[s].sources) then 900 else 3600
    {
      TTLIs(h[s].sources);
    }
  }
}
