/**
 The rate-limited route groups of cmd/server/main.go together: every request first asks the one global
 bucket all groups share, and only then its group's own limiter.
*/
module RateServer {
  import opened RateLimit

  datatype Rules = Rules(global: Params, groups: seq<Params>) {
    ghost predicate Valid() {
      global.Valid() && forall g :: 0 <= g < |groups| ==> groups[g].Valid()
    }
    ghost predicate RefillInTime() {
      forall g :: 0 <= g < |groups| ==> groups[g].RefillsInTime()
    }
  }

  /** The limits cmd/server/main.go sets: standard, URL, hardware, PCAP and scanner routes. */
  const CONFIGURED := Rules(
    Params(10.0, 120),
    [Params(1.0 / 2.0, 30), Params(1.0 / 6.0, 10), Params(1.0 / 2.0, 30), Params(1.0 / 6.0, 10), Params(1.0 / 12.0, 5)])

  datatype Hit = Hit(group: nat, client: Client, at: real)

  datatype Server = Server(global: Bucket, groups: seq<Limiter>) {
    predicate Passes(rules: Rules, h: Hit)
      requires h.group < |groups| == |rules.groups|
    {
      && global.Allows(rules.global, h.at)
      && groups[h.group].Allows(rules.groups[h.group], h.client, h.at)
    }

    /** A busy server does not touch the group; a client over its limit has still used a global token. */
    function Serve(rules: Rules, h: Hit): Server
      requires h.group < |groups| == |rules.groups|
    {
      Server(
        global.Take(rules.global, h.at),
        if global.Allows(rules.global, h.at) then
          groups[h.group := groups[h.group].Take(rules.groups[h.group], h.client, h.at)]
        else groups)
    }
  }

  /** The same server with limiters that never forget a client. */
  datatype Ideal = Ideal(global: Bucket, groups: seq<Memory>) {
    predicate Passes(rules: Rules, h: Hit)
      requires h.group < |groups| == |rules.groups|
    {
      && global.Allows(rules.global, h.at)
      && groups[h.group].Allows(rules.groups[h.group], h.client, h.at)
    }

    function Serve(rules: Rules, h: Hit): Ideal
      requires h.group < |groups| == |rules.groups|
    {
      Ideal(
        global.Take(rules.global, h.at),
        if global.Allows(rules.global, h.at) then
          groups[h.group := groups[h.group].Take(rules.groups[h.group], h.client, h.at)]
        else groups)
    }
  }

  /** The run of a server started at time start: each hit names a group and comes no earlier than the one before. */
  ghost predicate Run(rules: Rules, start: real, hits: seq<Hit>) {
    && (forall i :: 0 <= i < |hits| ==> start <= hits[i].at && hits[i].group < |rules.groups|)
    && (forall i, j :: 0 <= i < j < |hits| ==> hits[i].at <= hits[j].at)
  }

  ghost function After(rules: Rules, start: real, hits: seq<Hit>, k: nat): (s: Server)
    requires Run(rules, start, hits) && k <= |hits|
    ensures |s.groups| == |rules.groups|
  {
    if k == 0 then Server(FullBucket(rules.global, start), seq(|rules.groups|, i => NEW_LIMITER))
    else After(rules, start, hits, k - 1).Serve(rules, hits[k - 1])
  }

  ghost function IdealAfter(rules: Rules, start: real, hits: seq<Hit>, k: nat): (s: Ideal)
    requires Run(rules, start, hits) && k <= |hits|
    ensures |s.groups| == |rules.groups|
  {
    if k == 0 then Ideal(FullBucket(rules.global, start), seq(|rules.groups|, i => NO_MEMORY))
    else IdealAfter(rules, start, hits, k - 1).Serve(rules, hits[k - 1])
  }

  ghost predicate Passed(rules: Rules, start: real, hits: seq<Hit>, i: nat)
    requires Run(rules, start, hits) && i < |hits|
  {
    After(rules, start, hits, i).Passes(rules, hits[i])
  }

  ghost predicate ShouldPass(rules: Rules, start: real, hits: seq<Hit>, i: nat)
    requires Run(rules, start, hits) && i < |hits|
  {
    IdealAfter(rules, start, hits, i).Passes(rules, hits[i])
  }

  // ----- eviction is unobservable on the whole server -----

  ghost predicate Simulates(rules: Rules, s: Server, m: Ideal, now: real) {
    && |s.groups| == |m.groups| == |rules.groups|
    && s.global == m.global
    && forall g :: 0 <= g < |rules.groups| ==> Agrees(rules.groups[g], s.groups[g], m.groups[g], now)
  }

  lemma ServeSimulates(rules: Rules, s: Server, m: Ideal, h: Hit, now: real)
    requires rules.Valid() && rules.RefillInTime() && Simulates(rules, s, m, now)
    requires h.group < |rules.groups| && now <= h.at
    ensures s.Passes(rules, h) == m.Passes(rules, h)
    ensures Simulates(rules, s.Serve(rules, h), m.Serve(rules, h), h.at)
  {
    forall g | 0 <= g < |rules.groups|
      ensures Agrees(rules.groups[g], s.groups[g], m.groups[g], h.at)
    {
      AgreesLater(rules.groups[g], s.groups[g], m.groups[g], now, h.at);
    }
    TakeAgrees(rules.groups[h.group], s.groups[h.group], m.groups[h.group], h.client, h.at);
  }

  function TimeOf(start: real, hits: seq<Hit>, k: nat): real
    requires k <= |hits|
  {
    if k == 0 then start else hits[k - 1].at
  }

  lemma {:induction false} SimulatesAfter(rules: Rules, start: real, hits: seq<Hit>, k: nat)
    requires rules.Valid() && rules.RefillInTime() && Run(rules, start, hits) && k <= |hits|
    ensures Simulates(rules, After(rules, start, hits, k), IdealAfter(rules, start, hits, k), TimeOf(start, hits, k))
  {
    if k > 0 {
      SimulatesAfter(rules, start, hits, k - 1);
      ServeSimulates(rules, After(rules, start, hits, k - 1), IdealAfter(rules, start, hits, k - 1), hits[k - 1],
                     TimeOf(start, hits, k - 1));
    }
  }

  /** No request of any run is answered differently because clients are forgotten. */
  lemma ServerForgetsUnobservably(rules: Rules, start: real, hits: seq<Hit>, i: nat)
    requires rules.Valid() && rules.RefillInTime() && Run(rules, start, hits) && i < |hits|
    ensures Passed(rules, start, hits, i) == ShouldPass(rules, start, hits, i)
  {
    SimulatesAfter(rules, start, hits, i);
    ServeSimulates(rules, After(rules, start, hits, i), IdealAfter(rules, start, hits, i), hits[i],
                   TimeOf(start, hits, i));
  }

  lemma ConfiguredRefills()
    ensures CONFIGURED.Valid() && CONFIGURED.RefillInTime()
    ensures forall g :: 0 <= g < |CONFIGURED.groups| ==>
              CONFIGURED.groups[g].burst as real == CONFIGURED.groups[g].rate * 60.0
  {
  }

  // ----- how much can pass in a window -----

  function Count(flags: seq<bool>): nat {
    if flags == [] then 0 else Count(flags[..|flags| - 1]) + if flags[|flags| - 1] then 1 else 0
  }

  /** Of the requests i up to but not including j, which passed. */
  ghost function PassedIn(rules: Rules, start: real, hits: seq<Hit>, i: nat, j: nat): seq<bool>
    requires Run(rules, start, hits) && i <= j <= |hits|
  {
    seq(j - i, k requires 0 <= k < j - i => Passed(rules, start, hits, i + k))
  }

  /** The same for one client of one group. */
  ghost function PassedFor(rules: Rules, start: real, hits: seq<Hit>, g: nat, c: Client, i: nat, j: nat): seq<bool>
    requires Run(rules, start, hits) && i <= j <= |hits|
  {
    seq(j - i, k requires 0 <= k < j - i =>
      hits[i + k].group == g && hits[i + k].client == c && Passed(rules, start, hits, i + k))
  }

  function Price(flag: bool): real {
    if flag then 1.0 else 0.0
  }

  /** What is taken, and what is then held, was held before or came in since; only what is there can be taken. */
  ghost predicate PaidAt(p: Params, at: seq<real>, flags: seq<bool>, held: seq<real>, k: nat)
    requires k < |at| == |flags| == |held|
  {
    && Price(flags[k]) <= held[k]
    && (k + 1 < |held| ==> Price(flags[k]) + held[k + 1] <= held[k] + Gain(p, at[k], at[k + 1]))
  }

  lemma {:induction false} Pays(p: Params, at: seq<real>, flags: seq<bool>, held: seq<real>, n: nat)
    requires |at| == |flags| == |held| && n < |held| && held[0] <= p.burst as real
    requires forall k :: 0 <= k < |held| ==> PaidAt(p, at, flags, held, k)
    ensures Count(flags[..n]) as real + held[n] <= p.burst as real + Gain(p, at[0], at[n])
  {
    if n == 0 {
      assert Gain(p, at[0], at[0]) == 0.0;
    } else {
      Pays(p, at, flags, held, n - 1);
      assert flags[..n][..n - 1] == flags[..n - 1];
      assert PaidAt(p, at, flags, held, n - 1);
      GainsAdd(p, at[0], at[n - 1], at[n]);
    }
  }

  /** Taking from a supply that starts at no more than burst and grows by rate. */
  lemma Bounded(p: Params, at: seq<real>, flags: seq<bool>, held: seq<real>)
    requires |at| == |flags| == |held| > 0 && held[0] <= p.burst as real
    requires forall k :: 0 <= k < |held| ==> PaidAt(p, at, flags, held, k)
    ensures Count(flags) as real <= p.burst as real + Gain(p, at[0], at[|at| - 1])
  {
    var n := |at| - 1;
    Pays(p, at, flags, held, n);
    assert PaidAt(p, at, flags, held, n);
    assert Count(flags) as real == Count(flags[..n]) as real + Price(flags[n]);
  }

  ghost function Times(hits: seq<Hit>, i: nat, j: nat): seq<real>
    requires i <= j <= |hits|
  {
    seq(j - i, k requires 0 <= k < j - i => hits[i + k].at)
  }

  lemma LevelOk(b: Bucket, p: Params, now: real)
    requires p.Valid() && BucketOk(b, p, now)
    ensures 0.0 <= b.Level(p, now) <= p.burst as real
  {
    Gains(p, b.last, now);
    assert b.tokens + Gain(p, b.last, now) >= 0.0;
  }

  /** What the global bucket holds when request k arrives. */
  ghost function Supply(rules: Rules, start: real, hits: seq<Hit>, k: nat): real
    requires Run(rules, start, hits) && k < |hits|
  {
    After(rules, start, hits, k).global.Level(rules.global, hits[k].at)
  }

  lemma {:induction false} GlobalOk(rules: Rules, start: real, hits: seq<Hit>, k: nat)
    requires rules.Valid() && Run(rules, start, hits) && k <= |hits|
    ensures BucketOk(After(rules, start, hits, k).global, rules.global, TimeOf(start, hits, k))
  {
    if k > 0 {
      GlobalOk(rules, start, hits, k - 1);
      TakeOk(After(rules, start, hits, k - 1).global, rules.global, hits[k - 1].at);
    }
  }

  lemma SupplyOk(rules: Rules, start: real, hits: seq<Hit>, k: nat)
    requires rules.Valid() && Run(rules, start, hits) && k < |hits|
    ensures 0.0 <= Supply(rules, start, hits, k) <= rules.global.burst as real
    ensures Passed(rules, start, hits, k) ==> Supply(rules, start, hits, k) >= 1.0
  {
    GlobalOk(rules, start, hits, k);
    LevelOk(After(rules, start, hits, k).global, rules.global, hits[k].at);
  }

  lemma SupplyDrains(rules: Rules, start: real, hits: seq<Hit>, k: nat)
    requires rules.Valid() && Run(rules, start, hits) && k + 1 < |hits|
    ensures Price(Passed(rules, start, hits, k)) + Supply(rules, start, hits, k + 1)
         <= Supply(rules, start, hits, k) + Gain(rules.global, hits[k].at, hits[k + 1].at)
  {
    GlobalOk(rules, start, hits, k);
    Drains(After(rules, start, hits, k).global, rules.global, hits[k].at, hits[k + 1].at);
  }

  ghost function Supplies(rules: Rules, start: real, hits: seq<Hit>, i: nat, j: nat): seq<real>
    requires Run(rules, start, hits) && i <= j <= |hits|
  {
    seq(j - i, k requires 0 <= k < j - i => Supply(rules, start, hits, i + k))
  }

  lemma SupplyPays(rules: Rules, start: real, hits: seq<Hit>, i: nat, j: nat, k: nat)
    requires rules.Valid() && Run(rules, start, hits) && i < j <= |hits| && k < j - i
    ensures PaidAt(rules.global, Times(hits, i, j), PassedIn(rules, start, hits, i, j),
                   Supplies(rules, start, hits, i, j), k)
  {
    SupplyOk(rules, start, hits, i + k);
    if k + 1 < j - i { SupplyDrains(rules, start, hits, i + k); }
  }

  /** In any stretch of a run all groups together pass at most the global burst plus what the bucket gains in it. */
  lemma TotalBounded(rules: Rules, start: real, hits: seq<Hit>, i: nat, j: nat)
    requires rules.Valid() && Run(rules, start, hits) && i < j <= |hits|
    ensures Count(PassedIn(rules, start, hits, i, j)) as real
         <= rules.global.burst as real + Gain(rules.global, hits[i].at, hits[j - 1].at)
  {
    SupplyOk(rules, start, hits, i);
    forall k | 0 <= k < j - i
      ensures PaidAt(rules.global, Times(hits, i, j), PassedIn(rules, start, hits, i, j),
                     Supplies(rules, start, hits, i, j), k)
    {
      SupplyPays(rules, start, hits, i, j, k);
    }
    Bounded(rules.global, Times(hits, i, j), PassedIn(rules, start, hits, i, j), Supplies(rules, start, hits, i, j));
  }

  /** What the never forgotten bucket of client c in group g holds when request k, of whichever client, arrives. */
  ghost function Share(rules: Rules, start: real, hits: seq<Hit>, g: nat, c: Client, k: nat): real
    requires Run(rules, start, hits) && k < |hits| && g < |rules.groups|
  {
    IdealAfter(rules, start, hits, k).groups[g].Of(rules.groups[g], c, hits[k].at).Level(rules.groups[g], hits[k].at)
  }

  lemma {:induction false} MemoryOk(rules: Rules, start: real, hits: seq<Hit>, g: nat, c: Client, k: nat, now: real)
    requires rules.Valid() && Run(rules, start, hits) && k <= |hits| && g < |rules.groups|
    requires TimeOf(start, hits, k) <= now
    ensures BucketOk(IdealAfter(rules, start, hits, k).groups[g].Of(rules.groups[g], c, now), rules.groups[g], now)
  {
    if k > 0 {
      var h := hits[k - 1];
      MemoryOk(rules, start, hits, g, c, k - 1, h.at);
      TakeOk(IdealAfter(rules, start, hits, k - 1).groups[g].Of(rules.groups[g], c, h.at), rules.groups[g], h.at);
      MemoryOk(rules, start, hits, g, c, k - 1, now);
    }
  }

  ghost predicate PassesFor(rules: Rules, start: real, hits: seq<Hit>, g: nat, c: Client, k: nat)
    requires Run(rules, start, hits) && k < |hits|
  {
    hits[k].group == g && hits[k].client == c && ShouldPass(rules, start, hits, k)
  }

  lemma ShareOk(rules: Rules, start: real, hits: seq<Hit>, g: nat, c: Client, k: nat)
    requires rules.Valid() && Run(rules, start, hits) && k < |hits| && g < |rules.groups|
    ensures 0.0 <= Share(rules, start, hits, g, c, k) <= rules.groups[g].burst as real
    ensures PassesFor(rules, start, hits, g, c, k) ==> Share(rules, start, hits, g, c, k) >= 1.0
  {
    MemoryOk(rules, start, hits, g, c, k, hits[k].at);
    var now := hits[k].at;
    LevelOk(IdealAfter(rules, start, hits, k).groups[g].Of(rules.groups[g], c, now), rules.groups[g], now);
  }

  /** A request changes at most its own client's bucket. */
  lemma ServeShare(rules: Rules, m: Ideal, h: Hit, g: nat, c: Client, later: real)
    requires h.group < |m.groups| == |rules.groups| && g < |rules.groups| && h.at <= later
    requires rules.Valid() && m.groups[g].Of(rules.groups[g], c, h.at).last <= h.at
    ensures Price(h.group == g && h.client == c && m.Passes(rules, h))
         + m.Serve(rules, h).groups[g].Of(rules.groups[g], c, later).Level(rules.groups[g], later)
         <= m.groups[g].Of(rules.groups[g], c, h.at).Level(rules.groups[g], h.at) + Gain(rules.groups[g], h.at, later)
  {
    var p, b := rules.groups[g], m.groups[g].Of(rules.groups[g], c, h.at);
    var next := m.Serve(rules, h).groups[g].Of(p, c, later);
    if h.group == g && h.client == c && m.global.Allows(rules.global, h.at) {
      assert next == b.Take(p, h.at);
      Drains(b, p, h.at, later);
    } else if c in m.groups[g].buckets {
      assert next == b;
      LevelGrows(b, p, h.at, later);
    } else {
      assert next == FullBucket(p, later) && b == FullBucket(p, h.at);
      Gains(p, h.at, later);
      assert Gain(p, h.at, h.at) == 0.0 == Gain(p, later, later);
    }
  }

  lemma ShareDrains(rules: Rules, start: real, hits: seq<Hit>, g: nat, c: Client, k: nat)
    requires rules.Valid() && Run(rules, start, hits) && k + 1 < |hits| && g < |rules.groups|
    ensures Price(PassesFor(rules, start, hits, g, c, k)) + Share(rules, start, hits, g, c, k + 1)
         <= Share(rules, start, hits, g, c, k) + Gain(rules.groups[g], hits[k].at, hits[k + 1].at)
  {
    MemoryOk(rules, start, hits, g, c, k, hits[k].at);
    ServeShare(rules, IdealAfter(rules, start, hits, k), hits[k], g, c, hits[k + 1].at);
  }

  ghost function Shares(rules: Rules, start: real, hits: seq<Hit>, g: nat, c: Client, i: nat, j: nat): seq<real>
    requires Run(rules, start, hits) && i <= j <= |hits| && g < |rules.groups|
  {
    seq(j - i, k requires 0 <= k < j - i => Share(rules, start, hits, g, c, i + k))
  }

  lemma SharePays(rules: Rules, start: real, hits: seq<Hit>, g: nat, c: Client, i: nat, j: nat, k: nat)
    requires rules.Valid() && rules.RefillInTime() && Run(rules, start, hits) && g < |rules.groups|
    requires i < j <= |hits| && k < j - i
    ensures PaidAt(rules.groups[g], Times(hits, i, j), PassedFor(rules, start, hits, g, c, i, j),
                   Shares(rules, start, hits, g, c, i, j), k)
  {
    ServerForgetsUnobservably(rules, start, hits, i + k);
    ShareOk(rules, start, hits, g, c, i + k);
    if k + 1 < j - i { ShareDrains(rules, start, hits, g, c, i + k); }
  }

  /** Even across evictions a client passes at most burst plus rate times the length of the stretch. */
  lemma ClientBounded(rules: Rules, start: real, hits: seq<Hit>, g: nat, c: Client, i: nat, j: nat)
    requires rules.Valid() && rules.RefillInTime() && Run(rules, start, hits) && g < |rules.groups| && i < j <= |hits|
    ensures Count(PassedFor(rules, start, hits, g, c, i, j)) as real
         <= rules.groups[g].burst as real + Gain(rules.groups[g], hits[i].at, hits[j - 1].at)
  {
    var flags, held := PassedFor(rules, start, hits, g, c, i, j), Shares(rules, start, hits, g, c, i, j);
    ShareOk(rules, start, hits, g, c, i);
    forall k | 0 <= k < j - i ensures PaidAt(rules.groups[g], Times(hits, i, j), flags, held, k) {
      SharePays(rules, start, hits, g, c, i, j, k);
    }
    Bounded(rules.groups[g], Times(hits, i, j), flags, held);
  }

  /** The server as configured: at most 120 + 10 T requests of all groups, and 30 + T / 2 of one standard client. */
  lemma ConfiguredServer(start: real, hits: seq<Hit>, c: Client, i: nat, j: nat)
    requires Run(CONFIGURED, start, hits) && i < j <= |hits|
    ensures Count(PassedIn(CONFIGURED, start, hits, i, j)) as real <= 120.0 + 10.0 * (hits[j - 1].at - hits[i].at)
    ensures Count(PassedFor(CONFIGURED, start, hits, 0, c, i, j)) as real <= 30.0 + (hits[j - 1].at - hits[i].at) / 2.0
    ensures forall k :: 0 <= k < |hits| ==> Passed(CONFIGURED, start, hits, k) == ShouldPass(CONFIGURED, start, hits, k)
  {
    ConfiguredRefills();
    TotalBounded(CONFIGURED, start, hits, i, j);
    ClientBounded(CONFIGURED, start, hits, 0, c, i, j);
    forall k | 0 <= k < |hits| ensures Passed(CONFIGURED, start, hits, k) == ShouldPass(CONFIGURED, start, hits, k) {
      ServerForgetsUnobservably(CONFIGURED, start, hits, k);
    }
  }
}
