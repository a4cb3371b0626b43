/**
 The rate limiting of internal/shared/ratelimit.go as a function of a request trace: a shared global
 token bucket, then one bucket per client in a map that forgets clients after fifteen minutes.

 Times are seconds and tokens are counted as exact reals. A token bucket starts full, gains rate tokens
 a second up to burst, and allows a request when it holds at least one token, which it then takes.
*/
module RateLimit {
  import opened Options

  const LIMITER_ENTRY_TTL: real := 900.0
  const CLEANUP_EVERY: real := 60.0

  datatype Client = Client(address: string)

  datatype Params = Params(rate: real, burst: nat) {
    predicate Valid() { rate > 0.0 }
    /** A bucket is full again before its entry can be forgotten. */
    predicate RefillsInTime() { burst as real <= rate * LIMITER_ENTRY_TTL }
  }

  /** The tokens that come in over a stretch of time. */
  function Gain(p: Params, since: real, until: real): real {
    p.rate * (until - since)
  }

  datatype Bucket = Bucket(tokens: real, last: real) {
    function Level(p: Params, now: real): real {
      var filled := tokens + Gain(p, last, now);
      if filled > p.burst as real then p.burst as real else filled
    }
    predicate Allows(p: Params, now: real) {
      Level(p, now) >= 1.0
    }
    function Take(p: Params, now: real): Bucket {
      Bucket(if Allows(p, now) then Level(p, now) - 1.0 else Level(p, now), now)
    }
  }

  function FullBucket(p: Params, now: real): Bucket {
    Bucket(p.burst as real, now)
  }

  // ----- one limiter -----

  datatype Entry = Entry(bucket: Bucket, lastSeen: real)

  /** lastCleanup is None until the first request, which is later than any zero time by more than a minute. */
  datatype Limiter = Limiter(ips: map<Client, Entry>, lastCleanup: Option<real>) {
    predicate CleansAt(now: real) {
      lastCleanup.None? || now - lastCleanup.value >= CLEANUP_EVERY
    }

    function Cleaned(now: real): Limiter {
      if CleansAt(now) then
        Limiter(map c | c in ips && now - ips[c].lastSeen < LIMITER_ENTRY_TTL :: ips[c], Some(now))
      else this
    }

    /** Find or create the client's entry. */
    function Seen(p: Params, c: Client, now: real): Limiter {
      this.(ips := ips[c := Entry(if c in ips then ips[c].bucket else FullBucket(p, now), now)])
    }

    /** get: clean up if due, then look the client up. */
    function Get(p: Params, c: Client, now: real): Limiter {
      Cleaned(now).Seen(p, c, now)
    }

    predicate Allows(p: Params, c: Client, now: real) {
      Get(p, c, now).ips[c].bucket.Allows(p, now)
    }

    function Charged(p: Params, c: Client, now: real): Limiter
      requires c in ips
    {
      this.(ips := ips[c := ips[c].(bucket := ips[c].bucket.Take(p, now))])
    }

    function Take(p: Params, c: Client, now: real): Limiter {
      Get(p, c, now).Charged(p, c, now)
    }
  }

  const NEW_LIMITER := Limiter(map[], None)

  /** A limiter that never forgets: the specification. */
  datatype Memory = Memory(buckets: map<Client, Bucket>) {
    function Of(p: Params, c: Client, now: real): Bucket {
      if c in buckets then buckets[c] else FullBucket(p, now)
    }
    predicate Allows(p: Params, c: Client, now: real) {
      Of(p, c, now).Allows(p, now)
    }
    function Take(p: Params, c: Client, now: real): Memory {
      Memory(buckets[c := Of(p, c, now).Take(p, now)])
    }
  }

  const NO_MEMORY := Memory(map[])

  datatype Request = Request(client: Client, at: real)

  predicate Ordered(trace: seq<Request>) {
    forall i, j :: 0 <= i < j < |trace| ==> trace[i].at <= trace[j].at
  }

  /** The limiter after the first k requests of the trace. */
  function LimiterAfter(p: Params, trace: seq<Request>, k: nat): Limiter
    requires k <= |trace|
  {
    if k == 0 then NEW_LIMITER else LimiterAfter(p, trace, k - 1).Take(p, trace[k - 1].client, trace[k - 1].at)
  }

  function MemoryAfter(p: Params, trace: seq<Request>, k: nat): Memory
    requires k <= |trace|
  {
    if k == 0 then NO_MEMORY else MemoryAfter(p, trace, k - 1).Take(p, trace[k - 1].client, trace[k - 1].at)
  }

  /** The answer to request number i of the trace, with eviction and without. */
  predicate Decides(p: Params, trace: seq<Request>, i: nat)
    requires i < |trace|
  {
    LimiterAfter(p, trace, i).Allows(p, trace[i].client, trace[i].at)
  }

  predicate ShouldDecide(p: Params, trace: seq<Request>, i: nat)
    requires i < |trace|
  {
    MemoryAfter(p, trace, i).Allows(p, trace[i].client, trace[i].at)
  }

  // ----- buckets over time -----

  lemma Gains(p: Params, since: real, until: real)
    requires p.Valid() && since <= until
    ensures Gain(p, since, until) >= 0.0
  {
  }

  lemma GainsAdd(p: Params, from: real, since: real, until: real)
    ensures Gain(p, from, until) == Gain(p, from, since) + Gain(p, since, until)
  {
  }

  lemma GainsMore(p: Params, from: real, since: real, until: real)
    requires p.Valid() && from <= since <= until
    ensures Gain(p, from, since) <= Gain(p, from, until)
  {
    Gains(p, since, until);
    GainsAdd(p, from, since, until);
  }

  /** A bucket in use holds between nothing and burst and was last used at some time up to now. */
  predicate BucketOk(b: Bucket, p: Params, now: real) {
    0.0 <= b.tokens <= p.burst as real && b.last <= now
  }

  predicate IsFull(b: Bucket, p: Params, now: real) {
    b.tokens + Gain(p, b.last, now) >= p.burst as real
  }

  lemma TakeOk(b: Bucket, p: Params, now: real)
    requires p.Valid() && BucketOk(b, p, now)
    ensures BucketOk(b.Take(p, now), p, now) && b.Take(p, now).last == now
  {
    Gains(p, b.last, now);
    assert 0.0 <= b.Level(p, now) <= p.burst as real;
  }

  /** A full bucket behaves like a new one. */
  lemma FullIsNew(b: Bucket, p: Params, now: real)
    requires IsFull(b, p, now)
    ensures b.Allows(p, now) == FullBucket(p, now).Allows(p, now) && b.Take(p, now) == FullBucket(p, now).Take(p, now)
  {
  }

  lemma StaysFull(b: Bucket, p: Params, now: real, later: real)
    requires p.Valid() && IsFull(b, p, now) && now <= later && b.last <= now
    ensures IsFull(b, p, later)
  {
    GainsMore(p, b.last, now, later);
  }

  lemma OldIsFull(b: Bucket, p: Params, now: real)
    requires p.Valid() && p.RefillsInTime() && BucketOk(b, p, now) && now - b.last >= LIMITER_ENTRY_TTL
    ensures IsFull(b, p, now)
  {
    GainsMore(p, 0.0, LIMITER_ENTRY_TTL, now - b.last);
    assert now - b.last - 0.0 == now - b.last;
  }

  /** What a decision takes from a bucket is paid from what it held and what it gains. */
  lemma Drains(b: Bucket, p: Params, now: real, later: real)
    requires p.Valid() && b.last <= now <= later
    ensures (if b.Allows(p, now) then 1.0 else 0.0) + b.Take(p, now).Level(p, later)
         <= b.Level(p, now) + Gain(p, now, later)
  {
    Gains(p, now, later);
  }

  lemma LevelGrows(b: Bucket, p: Params, now: real, later: real)
    requires p.Valid() && b.last <= now <= later
    ensures b.Level(p, later) <= b.Level(p, now) + Gain(p, now, later)
  {
    Gains(p, now, later);
    GainsAdd(p, b.last, now, later);
  }

  // ----- eviction is unobservable -----

  /** The evicting limiter knows the same buckets, and the clients it has forgotten have full ones. */
  ghost predicate Agrees(p: Params, l: Limiter, m: Memory, now: real) {
    && (forall c :: c in m.buckets ==> BucketOk(m.buckets[c], p, now))
    && (forall c :: c in l.ips ==>
          c in m.buckets && l.ips[c].bucket == m.buckets[c] && l.ips[c].lastSeen == m.buckets[c].last)
    && (forall c :: c in m.buckets && c !in l.ips ==> IsFull(m.buckets[c], p, now))
  }

  lemma AgreesLater(p: Params, l: Limiter, m: Memory, now: real, later: real)
    requires p.Valid() && Agrees(p, l, m, now) && now <= later
    ensures Agrees(p, l, m, later)
  {
    forall c | c in m.buckets && c !in l.ips ensures IsFull(m.buckets[c], p, later) {
      StaysFull(m.buckets[c], p, now, later);
    }
  }

  lemma CleanupAgrees(p: Params, l: Limiter, m: Memory, now: real)
    requires p.Valid() && p.RefillsInTime() && Agrees(p, l, m, now)
    ensures Agrees(p, l.Cleaned(now), m, now)
  {
    forall c | c in m.buckets && c !in l.Cleaned(now).ips ensures IsFull(m.buckets[c], p, now) {
      if c in l.ips { OldIsFull(m.buckets[c], p, now); }
    }
  }

  lemma TakeAgrees(p: Params, l: Limiter, m: Memory, c: Client, now: real)
    requires p.Valid() && p.RefillsInTime() && Agrees(p, l, m, now)
    ensures l.Allows(p, c, now) == m.Allows(p, c, now)
    ensures Agrees(p, l.Take(p, c, now), m.Take(p, c, now), now)
  {
    CleanupAgrees(p, l, m, now);
    TakeOk(m.Of(p, c, now), p, now);
    if c in m.buckets && c !in l.Cleaned(now).ips { FullIsNew(m.buckets[c], p, now); }
  }

  lemma {:induction false} AgreesAfter(p: Params, trace: seq<Request>, k: nat, now: real)
    requires p.Valid() && p.RefillsInTime() && Ordered(trace) && k <= |trace|
    requires k > 0 ==> trace[k - 1].at <= now
    ensures Agrees(p, LimiterAfter(p, trace, k), MemoryAfter(p, trace, k), now)
  {
    if k > 0 {
      var c, at := trace[k - 1].client, trace[k - 1].at;
      AgreesAfter(p, trace, k - 1, at);
      TakeAgrees(p, LimiterAfter(p, trace, k - 1), MemoryAfter(p, trace, k - 1), c, at);
      AgreesLater(p, LimiterAfter(p, trace, k), MemoryAfter(p, trace, k), at, now);
    }
  }

  /** With buckets that refill within the entry lifetime, eviction changes no decision. */
  lemma EvictionUnobservable(p: Params, trace: seq<Request>, i: nat)
    requires p.Valid() && p.RefillsInTime() && Ordered(trace) && i < |trace|
    ensures Decides(p, trace, i) == ShouldDecide(p, trace, i)
  {
    AgreesAfter(p, trace, i, trace[i].at);
    TakeAgrees(p, LimiterAfter(p, trace, i), MemoryAfter(p, trace, i), trace[i].client, trace[i].at);
  }

  // ----- and only with those buckets -----

  const VISITOR := Client("192.0.2.1")

  /** One client spends the whole burst, stays away for just the entry lifetime, and spends a burst again. */
  function Comeback(p: Params): seq<Request> {
    seq(2 * p.burst, i => Request(VISITOR, if i < p.burst then 0.0 else LIMITER_ENTRY_TTL))
  }

  /** A map with the one client, last seen at the time of the last cleanup, with n tokens left. */
  function Left(n: nat, at: real): Limiter {
    Limiter(map[VISITOR := Entry(Bucket(n as real, at), at)], Some(at))
  }

  lemma SpendOne(p: Params, n: nat, at: real)
    requires p.Valid() && 0 < n <= p.burst
    ensures Left(n, at).Allows(p, VISITOR, at) && Left(n, at).Take(p, VISITOR, at) == Left(n - 1, at)
  {
    var l := Left(n, at);
    assert l.Cleaned(at) == l;
    assert p.rate * (at - at) == 0.0;
    assert l.Get(p, VISITOR, at) == l;
    assert l.ips[VISITOR].bucket.Level(p, at) == n as real;
  }

  lemma {:induction false} FirstBurst(p: Params, k: nat)
    requires p.Valid() && 0 < k <= p.burst
    ensures LimiterAfter(p, Comeback(p), k) == Left(p.burst - k, 0.0)
    ensures MemoryAfter(p, Comeback(p), k).buckets == map[VISITOR := Bucket((p.burst - k) as real, 0.0)]
  {
    if k > 1 {
      FirstBurst(p, k - 1);
      SpendOne(p, p.burst - (k - 1), 0.0);
    }
  }

  lemma ComesBack(p: Params)
    requires p.Valid() && p.burst > 0
    ensures Left(0, 0.0).Allows(p, VISITOR, LIMITER_ENTRY_TTL)
    ensures Left(0, 0.0).Take(p, VISITOR, LIMITER_ENTRY_TTL) == Left(p.burst - 1, LIMITER_ENTRY_TTL)
  {
    var l, now := Left(0, 0.0), LIMITER_ENTRY_TTL;
    assert l.Cleaned(now) == Limiter(map[], Some(now));
    assert l.Get(p, VISITOR, now) == Left(p.burst, now);
    assert Gain(p, now, now) == 0.0;
  }

  /** On coming back the forgotten client has the whole burst again. */
  lemma {:induction false} SecondBurst(p: Params, k: nat)
    requires p.Valid() && k < p.burst
    ensures Decides(p, Comeback(p), p.burst + k)
    ensures LimiterAfter(p, Comeback(p), p.burst + k + 1) == Left(p.burst - k - 1, LIMITER_ENTRY_TTL)
  {
    if k > 0 {
      SecondBurst(p, k - 1);
      SpendOne(p, p.burst - k, LIMITER_ENTRY_TTL);
    } else {
      FirstBurst(p, p.burst);
      ComesBack(p);
    }
  }

  /** While the one that is remembered has only what the bucket gained meanwhile. */
  lemma {:induction false} SecondBurstRemembered(p: Params, k: nat)
    requires p.Valid() && !p.RefillsInTime() && k < p.burst
    ensures var m := MemoryAfter(p, Comeback(p), p.burst + k);
            && m.buckets.Keys == {VISITOR} && m.buckets[VISITOR].last <= LIMITER_ENTRY_TTL
            && (var level := m.buckets[VISITOR].Level(p, LIMITER_ENTRY_TTL);
                level < 1.0 || level <= p.rate * LIMITER_ENTRY_TTL - k as real)
  {
    if k == 0 {
      FirstBurst(p, p.burst);
    } else {
      SecondBurstRemembered(p, k - 1);
    }
  }

  /** Eviction is unobservable exactly for buckets that refill within the entry lifetime. */
  lemma EvictionUnobservableIff(p: Params)
    requires p.Valid()
    ensures p.burst as real <= p.rate * 900.0 <==>
            forall trace, i: nat :: Ordered(trace) && i < |trace| ==> Decides(p, trace, i) == ShouldDecide(p, trace, i)
  {
    if p.RefillsInTime() {
      forall trace, i: nat | Ordered(trace) && i < |trace| ensures Decides(p, trace, i) == ShouldDecide(p, trace, i) {
        EvictionUnobservable(p, trace, i);
      }
    } else {
      var trace, last := Comeback(p), 2 * p.burst - 1;
      assert p.rate * LIMITER_ENTRY_TTL > 0.0;
      SecondBurstRemembered(p, p.burst - 1);
      assert !ShouldDecide(p, trace, last);
      SecondBurst(p, p.burst - 1);
      assert Decides(p, trace, last);
      assert Ordered(trace);
    }
  }

  // ----- the map stays small -----

  /** After every request each client still in the map was seen less than sixteen minutes ago. */
  lemma {:induction false} EntriesAreRecent(p: Params, trace: seq<Request>, k: nat)
    requires Ordered(trace) && 0 < k <= |trace|
    ensures var l, now := LimiterAfter(p, trace, k), trace[k - 1].at;
            && l.lastCleanup.Some? && l.lastCleanup.value <= now < l.lastCleanup.value + CLEANUP_EVERY
            && (forall c :: c in l.ips ==> l.lastCleanup.value - l.ips[c].lastSeen < LIMITER_ENTRY_TTL)
            && (forall c :: c in l.ips ==> now - l.ips[c].lastSeen < 960.0)
            && trace[k - 1].client in l.ips && l.ips[trace[k - 1].client].lastSeen == now
  {
    if k > 1 { EntriesAreRecent(p, trace, k - 1); }
  }
}
