/**
 Who is served: the exact law of a token bucket over a run, in terms of the answers given before, for one
 limiter and for the whole server.
*/
module RateService {
  import opened RateLimit
  import opened RateServer

  /** How many of the flags from number j up to but not including i are set. */
  function Spent(passed: seq<bool>, j: nat, i: nat): nat
    requires j <= i <= |passed|
  {
    if j == i then 0 else Spent(passed, j, i - 1) + if passed[i - 1] then 1 else 0
  }

  function Capped(p: Params, tokens: real): real {
    if tokens > p.burst as real then p.burst as real else tokens
  }

  /**
   One bucket over a run: at are the times of all requests, asked which of them ask this bucket, passed which
   of those it passed, and held what it holds when each arrives.
  */
  datatype Ledger = Ledger(at: seq<real>, asked: seq<bool>, passed: seq<bool>, held: seq<real>) {
    ghost predicate Valid(p: Params) {
      && p.Valid() && |at| == |asked| == |passed| == |held|
      && (forall i, j :: 0 <= i < j < |at| ==> at[i] <= at[j])
      && (|held| > 0 ==> held[0] == p.burst as real)
      && (forall k :: 0 <= k < |at| ==> Entry(p, k))
    }

    ghost predicate Entry(p: Params, k: nat)
      requires k < |at| == |asked| == |passed| == |held|
    {
      && (passed[k] <==> asked[k] && held[k] >= 1.0)
      && (k + 1 < |at| ==> held[k + 1] == Capped(p, held[k] - Price(passed[k]) + Gain(p, at[k], at[k + 1])))
    }

    /** From request j on the bucket can have given no more than burst and what came in since. */
    function Left(p: Params, j: nat, i: nat): real
      requires j <= i < |at| == |passed|
    {
      p.burst as real + Gain(p, at[j], at[i]) - Spent(passed, j, i) as real
    }
  }

  lemma LeftNext(l: Ledger, p: Params, j: nat, i: nat)
    requires j <= i && i + 1 < |l.at| == |l.passed|
    ensures l.Left(p, j, i + 1) == l.Left(p, j, i) - Price(l.passed[i]) + Gain(p, l.at[i], l.at[i + 1])
  {
    GainsAdd(p, l.at[j], l.at[i], l.at[i + 1]);
  }

  lemma LeftNow(l: Ledger, p: Params, i: nat)
    requires i < |l.at| == |l.passed|
    ensures l.Left(p, i, i) == p.burst as real
  {
    assert Gain(p, l.at[i], l.at[i]) == 0.0;
  }

  /** What a bucket holds is at most what every earlier request leaves it. */
  lemma {:induction false} HeldAtMost(l: Ledger, p: Params, j: nat, i: nat)
    requires l.Valid(p) && j <= i < |l.at|
    ensures l.held[i] <= l.Left(p, j, i)
  {
    LeftNow(l, p, i);
    if i > 0 { assert l.Entry(p, i - 1); }
    if j < i {
      HeldAtMost(l, p, j, i - 1);
      LeftNext(l, p, j, i - 1);
    }
  }

  /** And exactly what one of its own requests leaves it, or it is full. */
  lemma {:induction false} HeldIs(l: Ledger, p: Params, i: nat) returns (j: nat)
    requires l.Valid(p) && i < |l.at|
    ensures j <= i && (j == i || l.asked[j]) && l.held[i] == l.Left(p, j, i)
  {
    LeftNow(l, p, i);
    if l.held[i] == p.burst as real { return i; }
    assert l.Entry(p, i - 1);
    j := HeldIs(l, p, i - 1);
    LeftNow(l, p, i - 1);
    LeftNext(l, p, j, i - 1);
    Gains(p, l.at[i - 1], l.at[i]);
  }

  /** After request j one more fits at request i. */
  predicate HasRoom(p: Params, at: seq<real>, passed: seq<bool>, j: nat, i: nat)
    requires j <= i < |at| == |passed|
  {
    Spent(passed, j, i) as real + 1.0 <= p.burst as real + p.rate * (at[i] - at[j])
  }

  /**
   A request a bucket is asked for passes exactly if, counted from each earlier one it was asked for and from
   itself, one more fits into burst plus rate times the time since.
  */
  lemma PassesIff(l: Ledger, p: Params, i: nat)
    requires l.Valid(p) && i < |l.at| && l.asked[i]
    ensures l.passed[i] <==> forall j: nat :: j <= i && l.asked[j] ==> HasRoom(p, l.at, l.passed, j, i)
  {
    assert l.Entry(p, i);
    forall j: nat | j <= i && l.passed[i] ensures HasRoom(p, l.at, l.passed, j, i) { HeldAtMost(l, p, j, i); }
    var k := HeldIs(l, p, i);
    assert l.asked[k] && (HasRoom(p, l.at, l.passed, k, i) ==> l.held[i] >= 1.0);
  }

  // ----- buckets -----

  lemma LevelNext(b: Bucket, p: Params, now: real, later: real)
    requires p.Valid() && b.last <= now <= later
    ensures b.Level(p, later) == Capped(p, b.Level(p, now) + Gain(p, now, later))
    ensures b.Take(p, now).Level(p, later)
         == Capped(p, b.Level(p, now) - Price(b.Allows(p, now)) + Gain(p, now, later))
  {
    GainsAdd(p, b.last, now, later);
    Gains(p, now, later);
  }

  /** A denied request leaves no trace: the bucket gains as if it had not been asked. */
  lemma DeniedLeavesNoTrace(b: Bucket, p: Params, now: real, later: real)
    requires p.Valid() && b.last <= now <= later && !b.Allows(p, now)
    ensures b.Take(p, now).Level(p, later) == b.Level(p, later)
  {
    LevelNext(b, p, now, later);
  }

  lemma FullStays(p: Params, now: real, later: real)
    requires p.Valid() && now <= later
    ensures FullBucket(p, now).Level(p, now) == p.burst as real == FullBucket(p, later).Level(p, later)
    ensures Capped(p, p.burst as real - Price(false) + Gain(p, now, later)) == p.burst as real
  {
    Gains(p, now, later);
    assert Gain(p, now, now) == 0.0 == Gain(p, later, later);
  }

  // ----- one limiter -----

  /** Which requests of client c the limiter passed. */
  function PassedOf(p: Params, trace: seq<Request>, c: Client): (r: seq<bool>)
    ensures |r| == |trace| && forall k :: 0 <= k < |r| ==> r[k] == (trace[k].client == c && Decides(p, trace, k))
  {
    seq(|trace|, k requires 0 <= k < |trace| => trace[k].client == c && Decides(p, trace, k))
  }

  function TimesOf(trace: seq<Request>): (r: seq<real>)
    ensures |r| == |trace| && forall k :: 0 <= k < |r| ==> r[k] == trace[k].at
  {
    seq(|trace|, k requires 0 <= k < |trace| => trace[k].at)
  }

  function HeldBy(p: Params, trace: seq<Request>, c: Client, k: nat): real
    requires k < |trace|
  {
    MemoryAfter(p, trace, k).Of(p, c, trace[k].at).Level(p, trace[k].at)
  }

  function LedgerOf(p: Params, trace: seq<Request>, c: Client): Ledger {
    Ledger(TimesOf(trace), seq(|trace|, k requires 0 <= k < |trace| => trace[k].client == c), PassedOf(p, trace, c),
           seq(|trace|, k requires 0 <= k < |trace| => HeldBy(p, trace, c, k)))
  }

  lemma {:induction false} LastUse(p: Params, trace: seq<Request>, c: Client, k: nat, now: real)
    requires Ordered(trace) && k <= |trace| && (k > 0 ==> trace[k - 1].at <= now)
    ensures MemoryAfter(p, trace, k).Of(p, c, now).last <= now
  {
    if k > 0 { LastUse(p, trace, c, k - 1, trace[k - 1].at); }
    if k > 0 && trace[k - 1].client != c { LastUse(p, trace, c, k - 1, now); }
  }

  lemma MemoryNext(p: Params, m: Memory, r: Request, c: Client, later: real)
    requires p.Valid() && r.at <= later && m.Of(p, c, r.at).last <= r.at
    ensures m.Take(p, r.client, r.at).Of(p, c, later).Level(p, later)
         == Capped(p, m.Of(p, c, r.at).Level(p, r.at) - Price(r.client == c && m.Allows(p, c, r.at))
                      + Gain(p, r.at, later))
  {
    var b, next := m.Of(p, c, r.at), m.Take(p, r.client, r.at).Of(p, c, later);
    LevelNext(b, p, r.at, later);
    if r.client == c {
      assert next == b.Take(p, r.at);
    } else if c in m.buckets {
      assert next == b;
    } else {
      assert next == FullBucket(p, later) && b == FullBucket(p, r.at);
      FullStays(p, r.at, later);
    }
  }

  lemma HeldNext(p: Params, trace: seq<Request>, c: Client, k: nat)
    requires p.Valid() && Ordered(trace) && k + 1 < |trace|
    ensures HeldBy(p, trace, c, k + 1)
         == Capped(p, HeldBy(p, trace, c, k) - Price(trace[k].client == c && ShouldDecide(p, trace, k))
                      + Gain(p, trace[k].at, trace[k + 1].at))
  {
    LastUse(p, trace, c, k, trace[k].at);
    MemoryNext(p, MemoryAfter(p, trace, k), trace[k], c, trace[k + 1].at);
  }

  lemma LedgerOk(p: Params, trace: seq<Request>, c: Client)
    requires p.Valid() && p.RefillsInTime() && Ordered(trace)
    ensures LedgerOf(p, trace, c).Valid(p)
  {
    var l := LedgerOf(p, trace, c);
    forall k | 0 <= k < |trace| ensures l.Entry(p, k) {
      EvictionUnobservable(p, trace, k);
      if k + 1 < |trace| { HeldNext(p, trace, c, k); }
    }
    if trace != [] { assert Gain(p, trace[0].at, trace[0].at) == 0.0; }
  }

  /**
   The service law of the limiter: a request passes exactly if, for every request of that client up to this
   one, the number passed since then and this one make at most burst plus rate times the time between.
  */
  lemma ServedIff(p: Params, trace: seq<Request>, i: nat)
    requires p.Valid() && p.RefillsInTime() && Ordered(trace) && i < |trace|
    ensures Decides(p, trace, i) <==>
            forall j: nat :: j <= i && trace[j].client == trace[i].client ==>
              HasRoom(p, TimesOf(trace), PassedOf(p, trace, trace[i].client), j, i)
  {
    LedgerOk(p, trace, trace[i].client);
    PassesIff(LedgerOf(p, trace, trace[i].client), p, i);
  }

  // ----- the whole server -----

  /** Request k gets a token of the global bucket; otherwise the service is busy. */
  ghost predicate Admits(rules: Rules, start: real, hits: seq<Hit>, k: nat)
    requires Run(rules, start, hits) && k < |hits|
  {
    After(rules, start, hits, k).global.Allows(rules.global, hits[k].at)
  }

  ghost function Admitted(rules: Rules, start: real, hits: seq<Hit>): (r: seq<bool>)
    requires Run(rules, start, hits)
    ensures |r| == |hits| && forall k :: 0 <= k < |r| ==> r[k] == Admits(rules, start, hits, k)
  {
    seq(|hits|, k requires 0 <= k < |hits| => Admits(rules, start, hits, k))
  }

  function HitTimes(hits: seq<Hit>): (r: seq<real>)
    ensures |r| == |hits| && forall k :: 0 <= k < |r| ==> r[k] == hits[k].at
  {
    seq(|hits|, k requires 0 <= k < |hits| => hits[k].at)
  }

  ghost function GlobalLedger(rules: Rules, start: real, hits: seq<Hit>): Ledger
    requires Run(rules, start, hits)
  {
    Ledger(HitTimes(hits), seq(|hits|, k => true), Admitted(rules, start, hits),
           seq(|hits|, k requires 0 <= k < |hits| => Supply(rules, start, hits, k)))
  }

  lemma GlobalLedgerOk(rules: Rules, start: real, hits: seq<Hit>)
    requires rules.Valid() && Run(rules, start, hits)
    ensures GlobalLedger(rules, start, hits).Valid(rules.global)
  {
    var l, p := GlobalLedger(rules, start, hits), rules.global;
    forall k | 0 <= k < |hits| ensures l.Entry(p, k) {
      GlobalOk(rules, start, hits, k);
      if k + 1 < |hits| { LevelNext(After(rules, start, hits, k).global, p, hits[k].at, hits[k + 1].at); }
    }
    if hits != [] { Gains(p, start, hits[0].at); }
  }

  ghost predicate Asks(rules: Rules, start: real, hits: seq<Hit>, g: nat, c: Client, k: nat)
    requires Run(rules, start, hits) && k < |hits|
  {
    hits[k].group == g && hits[k].client == c && Admits(rules, start, hits, k)
  }

  /** Which requests of client c in group g passed. */
  ghost function ServedOf(rules: Rules, start: real, hits: seq<Hit>, g: nat, c: Client): (r: seq<bool>)
    requires Run(rules, start, hits)
    ensures |r| == |hits|
    ensures forall k :: 0 <= k < |r| ==>
              r[k] == (hits[k].group == g && hits[k].client == c && Passed(rules, start, hits, k))
  {
    seq(|hits|, k requires 0 <= k < |hits| =>
      hits[k].group == g && hits[k].client == c && Passed(rules, start, hits, k))
  }

  ghost function ClientLedger(rules: Rules, start: real, hits: seq<Hit>, g: nat, c: Client): Ledger
    requires Run(rules, start, hits) && g < |rules.groups|
  {
    Ledger(HitTimes(hits), seq(|hits|, k requires 0 <= k < |hits| => Asks(rules, start, hits, g, c, k)),
           ServedOf(rules, start, hits, g, c),
           seq(|hits|, k requires 0 <= k < |hits| => Share(rules, start, hits, g, c, k)))
  }

  lemma ShareNext(rules: Rules, m: Ideal, h: Hit, g: nat, c: Client, later: real)
    requires h.group < |m.groups| == |rules.groups| && g < |rules.groups| && h.at <= later
    requires rules.Valid() && m.groups[g].Of(rules.groups[g], c, h.at).last <= h.at
    ensures m.Serve(rules, h).groups[g].Of(rules.groups[g], c, later).Level(rules.groups[g], later)
         == Capped(rules.groups[g], m.groups[g].Of(rules.groups[g], c, h.at).Level(rules.groups[g], h.at)
                   - Price(h.group == g && h.client == c && m.Passes(rules, h)) + Gain(rules.groups[g], h.at, later))
  {
    var p, b := rules.groups[g], m.groups[g].Of(rules.groups[g], c, h.at);
    var next := m.Serve(rules, h).groups[g].Of(p, c, later);
    LevelNext(b, p, h.at, later);
    if h.group == g && h.client == c && m.global.Allows(rules.global, h.at) {
      assert next == b.Take(p, h.at);
    } else if c in m.groups[g].buckets {
      assert next == b;
    } else {
      assert next == FullBucket(p, later) && b == FullBucket(p, h.at);
      FullStays(p, h.at, later);
    }
  }

  lemma PassesWithShare(rules: Rules, start: real, hits: seq<Hit>, k: nat)
    requires rules.Valid() && rules.RefillInTime() && Run(rules, start, hits) && k < |hits|
    ensures Passed(rules, start, hits, k) == ShouldPass(rules, start, hits, k)
    ensures Passed(rules, start, hits, k) <==>
            Admits(rules, start, hits, k) && Share(rules, start, hits, hits[k].group, hits[k].client, k) >= 1.0
  {
    SimulatesAfter(rules, start, hits, k);
    ServerForgetsUnobservably(rules, start, hits, k);
  }

  lemma ShareStep(rules: Rules, start: real, hits: seq<Hit>, g: nat, c: Client, k: nat)
    requires rules.Valid() && Run(rules, start, hits) && g < |rules.groups| && k + 1 < |hits|
    ensures Share(rules, start, hits, g, c, k + 1)
         == Capped(rules.groups[g], Share(rules, start, hits, g, c, k) - Price(PassesFor(rules, start, hits, g, c, k))
                                    + Gain(rules.groups[g], hits[k].at, hits[k + 1].at))
  {
    MemoryOk(rules, start, hits, g, c, k, hits[k].at);
    ShareNext(rules, IdealAfter(rules, start, hits, k), hits[k], g, c, hits[k + 1].at);
  }

  lemma ClientEntry(rules: Rules, start: real, hits: seq<Hit>, g: nat, c: Client, k: nat)
    requires rules.Valid() && rules.RefillInTime() && Run(rules, start, hits) && g < |rules.groups| && k < |hits|
    ensures ClientLedger(rules, start, hits, g, c).Entry(rules.groups[g], k)
  {
    var l := ClientLedger(rules, start, hits, g, c);
    assert l.at[k] == hits[k].at && l.asked[k] == Asks(rules, start, hits, g, c, k);
    assert l.held[k] == Share(rules, start, hits, g, c, k);
    assert l.passed[k] == (l.asked[k] && l.held[k] >= 1.0) == PassesFor(rules, start, hits, g, c, k) by {
      PassesWithShare(rules, start, hits, k);
    }
    if k + 1 < |hits| {
      assert l.at[k + 1] == hits[k + 1].at && l.held[k + 1] == Share(rules, start, hits, g, c, k + 1);
      ShareStep(rules, start, hits, g, c, k);
    }
  }

  lemma ClientLedgerOk(rules: Rules, start: real, hits: seq<Hit>, g: nat, c: Client)
    requires rules.Valid() && rules.RefillInTime() && Run(rules, start, hits) && g < |rules.groups|
    ensures ClientLedger(rules, start, hits, g, c).Valid(rules.groups[g])
  {
    forall k | 0 <= k < |hits| ensures ClientLedger(rules, start, hits, g, c).Entry(rules.groups[g], k) {
      ClientEntry(rules, start, hits, g, c, k);
    }
    if hits != [] { assert Gain(rules.groups[g], hits[0].at, hits[0].at) == 0.0; }
  }

  /**
   The service law of the whole server. A request gets a global token exactly if all requests since each
   earlier one leave room for it; then it passes exactly if the requests of its client in its group that got
   one leave room for it. A request the global bucket refuses costs its client nothing, one its client's
   bucket refuses has used a global token.
  */
  lemma ServerServesIff(rules: Rules, start: real, hits: seq<Hit>, i: nat)
    requires rules.Valid() && rules.RefillInTime() && Run(rules, start, hits) && i < |hits|
    ensures Admits(rules, start, hits, i) <==>
            forall j: nat :: j <= i ==> HasRoom(rules.global, HitTimes(hits), Admitted(rules, start, hits), j, i)
    ensures var g, c := hits[i].group, hits[i].client;
            Passed(rules, start, hits, i) <==>
            && Admits(rules, start, hits, i)
            && forall j: nat :: j <= i && Asks(rules, start, hits, g, c, j) ==>
                 HasRoom(rules.groups[g], HitTimes(hits), ServedOf(rules, start, hits, g, c), j, i)
  {
    var g, c := hits[i].group, hits[i].client;
    GlobalLedgerOk(rules, start, hits);
    PassesIff(GlobalLedger(rules, start, hits), rules.global, i);
    if Admits(rules, start, hits, i) {
      ClientLedgerOk(rules, start, hits, g, c);
      PassesIff(ClientLedger(rules, start, hits, g, c), rules.groups[g], i);
    }
  }
}
