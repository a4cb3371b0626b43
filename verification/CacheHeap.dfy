/** The cache of internal/shared/cache.go as an object. */
module CacheHeap {
  import opened Options
  import opened CacheHistory
  import opened Sources

  class Cache<D(!new)> {
    var entries: map<Key, Entry<D>>

    constructor ()
      ensures entries == map[]
    {
      entries := map[];
    }

    method Get(key: Key, now: int) returns (data: Option<D>)
      ensures data == Lookup(entries, key, now)
    {
      if key !in entries || now > entries[key].expiry {
        return None;
      }
      return Some(entries[key].data);
    }

    method Set(key: Key, data: D, sources: seq<Source>, now: int)
      modifies this
      ensures entries == Apply(old(entries), Event.Set(key, data, sources, now))
    {
      var ttl := SelectTTL(sources);
      if ttl == 0 {
        return;
      }
      entries := entries[key := Entry(data, now + ttl)];
    }

    method Delete(key: Key)
      modifies this
      ensures entries == Apply(old(entries), Event.Delete(key))
    {
      entries := entries - {key};
    }

    method Cleanup(now: int)
      modifies this
      ensures entries == Apply(old(entries), Event.Cleanup(now))
    {
      ghost var before := entries;
      var todo := entries.Keys;
      while todo != {}
        invariant todo <= before.Keys
        invariant forall k :: k in entries <==> k in before && (k in todo || now <= before[k].expiry)
        invariant forall k :: k in entries ==> entries[k] == before[k]
      {
        var k :| k in todo;
        todo := todo - {k};
        if now > entries[k].expiry {
          entries := entries - {k};
        }
      }
    }

    /** One step of a history; what a lookup answers, None otherwise. */
    method Handle(e: Event<D>) returns (answer: Option<D>)
      modifies this
      ensures entries == Apply(old(entries), e)
      ensures answer == if e.Get? then Lookup(old(entries), e.key, e.now) else None
    {
      answer := None;
      match e {
        case Get(key, now) => answer := Get(key, now);
        case Set(key, data, sources, now) => Set(key, data, sources, now);
        case Delete(key) => Delete(key);
        case Cleanup(now) => Cleanup(now);
      }
    }

    /** Any history of calls: the entries are those of the history, and each lookup answers as it says. */
    method Run(h: seq<Event<D>>) returns (answers: seq<Option<D>>)
      requires entries == map[]
      modifies this
      ensures entries == After(h, |h|)
      ensures |answers| == |h| && forall i :: 0 <= i < |h| ==> answers[i] == Answer(h, i)
    {
      answers := [];
      for i := 0 to |h|
        invariant entries == After(h, i)
        invariant |answers| == i && forall k :: 0 <= k < i ==> answers[k] == Answer(h, k)
      {
        var answer := Handle(h[i]);
        answers := answers + [answer];
      }
    }
  }
}
