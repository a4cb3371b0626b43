/** The limiter of internal/shared/ratelimit.go as an object whose map is changed in place. */
module RateHeap {
  import opened Options
  import RateLimit

  type Params = RateLimit.Params
  type Client = RateLimit.Client

  class TokenBucket {
    const params: Params
    var tokens: real
    var last: real
    /** The client whose bucket it is; the global bucket has none. */
    ghost const owner: Option<Client>

    constructor (params: Params, now: real, ghost owner: Option<Client>)
      ensures this.params == params && this.owner == owner && Value() == RateLimit.FullBucket(params, now)
    {
      this.params, this.owner := params, owner;
      tokens, last := params.burst as real, now;
    }

    ghost function Value(): RateLimit.Bucket
      reads this
    {
      RateLimit.Bucket(tokens, last)
    }

    method Allow(now: real) returns (ok: bool)
      modifies this
      ensures ok == old(Value()).Allows(params, now)
      ensures Value() == old(Value()).Take(params, now)
      ensures tokens == old(Value()).Level(params, now) - (if ok then 1.0 else 0.0) && last == now
    {
      tokens := tokens + RateLimit.Gain(params, last, now);
      if tokens > params.burst as real { tokens := params.burst as real; }
      last := now;
      ok := tokens >= 1.0;
      if ok { tokens := tokens - 1.0; }
    }
  }

  class IpLimiter {
    const limiter: TokenBucket
    var lastSeen: real

    constructor (limiter: TokenBucket, lastSeen: real)
      ensures this.limiter == limiter && this.lastSeen == lastSeen
    {
      this.limiter, this.lastSeen := limiter, lastSeen;
    }
  }

  class RateLimiter {
    var ips: map<Client, IpLimiter>
    const params: Params
    const shared: TokenBucket?
    var lastCleanup: Option<real>

    ghost function Buckets(): set<TokenBucket>
      reads this, ips.Values
    {
      set c | c in ips :: ips[c].limiter
    }

    /** Each client's bucket is its own, and none is the global bucket. */
    ghost predicate Valid()
      reads this, ips.Values
    {
      && (shared != null ==> shared.owner == None)
      && (forall c :: c in ips ==> ips[c].limiter.params == params && ips[c].limiter.owner == Some(c))
    }

    ghost function View(): RateLimit.Limiter
      reads this, ips.Values, Buckets()
    {
      RateLimit.Limiter(map c | c in ips :: RateLimit.Entry(ips[c].limiter.Value(), ips[c].lastSeen), lastCleanup)
    }

    constructor (params: Params, shared: TokenBucket?)
      requires shared != null ==> shared.owner == None
      ensures Valid() && View() == RateLimit.NEW_LIMITER && this.params == params && this.shared == shared
    {
      ips, lastCleanup := map[], None;
      this.params, this.shared := params, shared;
    }

    /** The deletion loop of get. */
    method Forget(now: real)
      modifies this`ips
      ensures forall c :: c in ips <==> c in old(ips) && now - old(ips)[c].lastSeen < RateLimit.LIMITER_ENTRY_TTL
      ensures forall c :: c in ips ==> ips[c] == old(ips)[c]
    {
      ghost var before := ips;
      var todo := ips.Keys;
      while todo != {}
        invariant todo <= before.Keys
        invariant forall c :: c in ips <==>
                    c in before && (c in todo || now - before[c].lastSeen < RateLimit.LIMITER_ENTRY_TTL)
        invariant forall c :: c in ips ==> ips[c] == before[c]
      {
        var c :| c in todo;
        todo := todo - {c};
        if now - ips[c].lastSeen >= RateLimit.LIMITER_ENTRY_TTL {
          ips := ips - {c};
        }
      }
    }

    method Clean(now: real)
      requires Valid()
      modifies this`ips, this`lastCleanup
      ensures Valid() && View() == old(View()).Cleaned(now)
      ensures forall c :: c in ips ==> c in old(ips) && ips[c] == old(ips)[c]
    {
      if lastCleanup == None || now - lastCleanup.value >= RateLimit.CLEANUP_EVERY {
        Forget(now);
        lastCleanup := Some(now);
      }
    }

    /** The second half of get. */
    method Find(ip: Client, now: real) returns (limiter: TokenBucket)
      requires Valid()
      modifies this`ips, ips.Values
      ensures Valid() && View() == old(View()).Seen(params, ip, now)
      ensures ip in ips && ips[ip].limiter == limiter
      ensures fresh(limiter) || limiter in old(Buckets())
    {
      if ip in ips {
        ips[ip].lastSeen := now;
        return ips[ip].limiter;
      }
      limiter := new TokenBucket(params, now, Some(ip));
      var entry := new IpLimiter(limiter, now);
      ips := ips[ip := entry];
    }

    method Get(ip: Client, now: real) returns (limiter: TokenBucket)
      requires Valid()
      modifies this`ips, this`lastCleanup, ips.Values
      ensures Valid() && View() == old(View()).Get(params, ip, now)
      ensures ip in ips && ips[ip].limiter == limiter
      ensures fresh(limiter) || limiter in old(Buckets())
    {
      Clean(now);
      limiter := Find(ip, now);
    }

    /** Allow on the bucket that get delivered for the client. */
    method Charge(ghost ip: Client, limiter: TokenBucket, now: real) returns (passed: bool)
      requires Valid() && ip in ips && ips[ip].limiter == limiter
      modifies limiter
      ensures Valid()
      ensures passed == old(View()).ips[ip].bucket.Allows(params, now)
      ensures View() == old(View()).Charged(params, ip, now)
    {
      passed := limiter.Allow(now);
      assert forall c :: c in ips && c != ip ==> ips[c].limiter.Value() == old(ips[c].limiter.Value());
    }

    method Admit(ip: Client, now: real) returns (passed: bool)
      requires Valid()
      modifies this`ips, this`lastCleanup, ips.Values, Buckets()
      ensures Valid()
      ensures passed == old(View()).Allows(params, ip, now) && View() == old(View()).Take(params, ip, now)
    {
      var limiter := Get(ip, now);
      passed := Charge(ip, limiter, now);
    }

    /** Whether a request reaches the handler behind the limiter; a nil global bucket is skipped. */
    method Middleware(ip: Client, now: real) returns (passed: bool)
      requires Valid()
      modifies this`ips, this`lastCleanup, ips.Values, Buckets()
      modifies if shared != null then {shared} else {}
      ensures Valid()
      ensures shared != null ==> shared.Value() == old(shared.Value()).Take(shared.params, now)
      ensures
        var open := shared == null || old(shared.Value()).Allows(shared.params, now);
        && passed == (open && old(View()).Allows(params, ip, now))
        && View() == if open then old(View()).Take(params, ip, now) else old(View())
    {
      if shared != null {
        var free := shared.Allow(now);
        assert View() == old(View());
        if !free {
          return false;
        }
      }
      passed := Admit(ip, now);
    }
  }
}
