/**
 The controlled scanner of internal/scanner/handlers/scan.go: what validateControlledTarget accepts, and
 whether the hosts then scanned lie in the owner's allowlist.
*/
module ScanLab {
  import opened Bits
  import opened Addresses
  import opened Classifiers
  import opened ScanTargets

  predicate WithinAllowed(ip: IP, allowed: seq<Cidr>) {
    AnyContains(allowed, ip)
  }

  function LastIP(c: Cidr): IP
    requires IsNetwork(c) && c.ip.V4?
  {
    LastIsBroadcast(c);
    V4(LastWord(c).Number())
  }

  predicate ValidateControlledTarget(input: Input, allowed: seq<Cidr>) {
    match input
    case Subnet(cidr) =>
      var network := Network(cidr);
      NetworkIsNetwork(cidr);
      && network.ip.V4? && network.ones >= 24 && IsPrivateLabIP(network.ip)
      && IsPrivateLabIP(LastIP(network))
      && WithinAllowed(network.ip, allowed) && WithinAllowed(LastIP(network), allowed)
    case Single(ip) => IsPrivateLabIP(ip) && WithinAllowed(ip, allowed)
    case Malformed => false
  }

  /** The addresses of a small network whose ends are private are private. */
  lemma PrivateNetwork(c: Cidr, a: Uint32)
    requires IsNetwork(c) && c.ip.V4? && c.ones >= 24 && c.ip.addr <= a <= Broadcast(c)
    requires IsPrivateLabIP(c.ip) && IsPrivateLabIP(LastIP(c))
    ensures IsPrivateLabIP(V4(a))
  {
    ScopeMeans(c.ip);
    ScopeMeans(LastIP(c));
    ScopeMeans(V4(a));
    PredicatesAreRanges(c.ip);
    PredicatesAreRanges(LastIP(c));
    PredicatesAreRanges(V4(a));
    LastIsBroadcast(c);
    BitsOfSize(c.HostBits());
  }

  /** Every target the lab accepts the scanner resolves, and then every host it scans is private. */
  lemma ControlledResolves(input: Input, allowed: seq<Cidr>)
    requires ValidateControlledTarget(input, allowed)
    ensures ResolveTargets(input).Accepted?
    ensures forall ip :: ip in ResolveTargets(input).ips ==> IsPrivateLabIP(ip)
  {
    if input.Subnet? {
      var n := Network(input.cidr);
      NetworkIsNetwork(input.cidr);
      PoliciesNest(n.ip);
      SubnetHosts(input.cidr);
      forall ip | ip in ResolveTargets(input).ips ensures IsPrivateLabIP(ip) { PrivateNetwork(n, ip.addr); }
    } else {
      PoliciesNest(input.ip);
    }
  }

  // ----- does the allowlist confine the scan? -----

  /** No accepted target leads to a scan of a host outside the allowlist. */
  ghost predicate Confines(allowed: seq<Cidr>) {
    forall input :: ValidateControlledTarget(input, allowed) ==> StaysInside(input, allowed)
  }

  ghost predicate StaysInside(input: Input, allowed: seq<Cidr>)
    requires ValidateControlledTarget(input, allowed)
  {
    ControlledResolves(input, allowed);
    forall ip :: ip in ResolveTargets(input).ips ==> WithinAllowed(ip, allowed)
  }

  /**
   Two different IPv4 blocks, both smaller than a /24 and one smaller than half of it, can hold the ends of an accepted
   subnet without its middle, unless some block is the whole address space.
  */
  predicate MayLeaveGap(allowed: seq<Cidr>) {
    && (forall k :: 0 <= k < |allowed| && allowed[k].ip.V4? ==> allowed[k].ones >= 1)
    && exists i, j :: 0 <= i < |allowed| && 0 <= j < |allowed| && i != j
         && allowed[i].ip.V4? && allowed[i].ones >= 25 && allowed[j].ip.V4? && allowed[j].ones >= 26
  }

  /** The same prefix lengths and families, elsewhere. */
  ghost predicate SameShape(allowed: seq<Cidr>, other: seq<Cidr>) {
    && |allowed| == |other|
    && forall k :: 0 <= k < |allowed| ==> allowed[k].ones == other[k].ones && allowed[k].ip.V4? == other[k].ip.V4?
  }

  lemma WholeSpace(b: Cidr, a: IP)
    requires b.ip.V4? && a.V4? && b.ones == 0
    ensures b.Contains(a)
  {
    Powers();
    HighFits(b.ip.addr, 0, 32);
    HighFits(a.addr, 0, 32);
  }

  lemma HalfOf(q: nat, r: nat)
    requires r < 0x100
    ensures High(Shift(q, 8) + r, 7) == 2 * q + if r < 0x80 then 0 else 1
  {
    assert Pow2(7) == 0x80 && Pow2(8) == 0x100;
    ShiftIsProduct(q, 8);
    if r < 0x80 {
      ShiftIsProduct(2 * q, 7);
      Joins(2 * q, r, 7);
    } else {
      ShiftIsProduct(2 * q + 1, 7);
      Joins(2 * q + 1, r - 0x80, 7);
    }
  }

  /** The halves of a /24. */
  lemma Halves(n: Cidr, a: Uint32)
    requires IsNetwork(n) && n.ip.V4? && n.ones == 24 && n.ip.addr <= a <= Broadcast(n)
    ensures High(a, 7) == High(n.ip.addr, 7) || High(a, 7) == High(Broadcast(n), 7)
  {
    Powers();
    var q := High(n.ip.addr, 8);
    HalfOf(q, 0);
    HalfOf(q, 0xff);
    HalfOf(q, a - n.ip.addr);
  }

  /** first and last hold the ends of the network; between them they hold each of its addresses. */
  lemma Covered(n: Cidr, first: Cidr, last: Cidr, a: Uint32)
    requires IsNetwork(n) && n.ip.V4? && n.ones >= 24 && n.ip.addr <= a <= Broadcast(n)
    requires first.Contains(n.ip) && last.Contains(V4(Broadcast(n)))
    requires first == last || first.ones <= 24 || last.ones <= 24 || first.ones == last.ones == 25
    ensures first.Contains(V4(a)) || last.Contains(V4(a))
  {
    NetworkRange(n, a);
    NetworkRange(n, n.ip.addr);
    NetworkRange(n, Broadcast(n));
    if first == last {
      NoHoles(first, n.ip, V4(a), V4(Broadcast(n)));
    } else if first.ones <= n.ones {
      Nested(n, first, n.ip, V4(a));
    } else if last.ones <= n.ones {
      Nested(n, last, V4(Broadcast(n)), V4(a));
    } else {
      Halves(n, a);
    }
  }

  lemma NoGapConfines(allowed: seq<Cidr>)
    requires !MayLeaveGap(allowed)
    ensures Confines(allowed)
  {
    forall input | ValidateControlledTarget(input, allowed) ensures StaysInside(input, allowed) {
      ControlledResolves(input, allowed);
      forall ip | ip in ResolveTargets(input).ips ensures WithinAllowed(ip, allowed) {
        if input.Subnet? { HostAllowed(input.cidr, allowed, ip); }
      }
    }
  }

  lemma HostAllowed(cidr: Cidr, allowed: seq<Cidr>, ip: IP)
    requires ValidateControlledTarget(Subnet(cidr), allowed) && !MayLeaveGap(allowed)
    requires ResolveTargets(Subnet(cidr)).Accepted? && ip in ResolveTargets(Subnet(cidr)).ips
    ensures WithinAllowed(ip, allowed)
  {
    var n := Network(cidr);
    NetworkIsNetwork(cidr);
    SubnetHosts(cidr);
    LastIsBroadcast(n);
    var i :| 0 <= i < |allowed| && allowed[i].Contains(n.ip);
    var j :| 0 <= j < |allowed| && allowed[j].Contains(LastIP(n));
    if k :| 0 <= k < |allowed| && allowed[k].ip.V4? && allowed[k].ones == 0 {
      WholeSpace(allowed[k], ip);
    } else {
      Covered(n, allowed[i], allowed[j], ip.addr);
    }
  }

  /** Blocks at least as wide as the target cannot leave a gap in it. */
  lemma WideBlocksCover(cidr: Cidr, allowed: seq<Cidr>, ip: IP)
    requires ValidateControlledTarget(Subnet(cidr), allowed)
    requires forall k :: 0 <= k < |allowed| && allowed[k].ip.V4? ==> allowed[k].ones <= cidr.ones
    requires ResolveTargets(Subnet(cidr)).Accepted? && ip in ResolveTargets(Subnet(cidr)).ips
    ensures WithinAllowed(ip, allowed)
  {
    var n := Network(cidr);
    NetworkIsNetwork(cidr);
    SubnetHosts(cidr);
    var i :| 0 <= i < |allowed| && allowed[i].Contains(n.ip);
    Nested(n, allowed[i], n.ip, ip);
  }

  const LAB := Block(V4(0x0a00_0000), 24)

  /** 10.0.0.0/24 passes when one block holds 10.0.0.0 and another 10.0.0.255; 10.0.0.128 is then scanned. */
  lemma LabTarget(allowed: seq<Cidr>)
    requires WithinAllowed(V4(0x0a00_0000), allowed) && WithinAllowed(V4(0x0a00_00ff), allowed)
    ensures ValidateControlledTarget(Subnet(LAB), allowed)
    ensures ResolveTargets(Subnet(LAB)).Accepted? && V4(0x0a00_0080) in ResolveTargets(Subnet(LAB)).ips
  {
    Powers();
    ShiftIsProduct(0xa_0000, 8);
    Joins(0xa_0000, 0, 8);
    var n := Network(LAB);
    assert n == LAB;
    LastIsBroadcast(n);
    assert LastIP(n) == V4(0x0a00_00ff);
    ScopeMeans(n.ip);
    ScopeMeans(LastIP(n));
    PredicatesAreRanges(n.ip);
    PredicatesAreRanges(LastIP(n));
    ControlledResolves(Subnet(LAB), allowed);
    SubnetHosts(LAB);
  }

  /** The blocks of the same shape that hold the ends of the lab network, the others far away. */
  function Apart(allowed: seq<Cidr>, i: nat, j: nat): seq<Cidr> {
    seq(|allowed|, k requires 0 <= k < |allowed| =>
      if !allowed[k].ip.V4? then allowed[k]
      else if k == i then Block(V4(0x0a00_0000), allowed[k].ones)
      else if k == j then Block(V4(0x0a00_00ff), allowed[k].ones)
      else Block(V4(0xc0a8_0000), allowed[k].ones))
  }

  lemma MissesMiddle(b: Cidr)
    requires (b.ip == V4(0x0a00_0000) && b.ones >= 25) || (b.ip == V4(0x0a00_00ff) && b.ones >= 26)
          || (b.ip == V4(0xc0a8_0000) && b.ones >= 1)
    ensures !b.Contains(V4(0x0a00_0080))
  {
    assert Pow2(7) == 0x80 && Pow2(6) == 0x40;
    if b.ip == V4(0x0a00_0000) && b.ones >= 25 {
      TooFar(b, V4(0x0a00_0080), 7);
    } else if b.ip == V4(0x0a00_00ff) && b.ones >= 26 {
      TooFar(b, V4(0x0a00_0080), 6);
    } else {
      Powers();
      assert Pow2(32) == 2 * Pow2(31);
      TooFar(b, V4(0x0a00_0080), 31);
    }
  }

  lemma LabNotConfined(allowed: seq<Cidr>)
    requires WithinAllowed(V4(0x0a00_0000), allowed) && WithinAllowed(V4(0x0a00_00ff), allowed)
    requires !WithinAllowed(V4(0x0a00_0080), allowed)
    ensures !Confines(allowed)
  {
    LabTarget(allowed);
    assert !StaysInside(Subnet(LAB), allowed);
  }

  lemma HoldsOwnAddress(b: Cidr, allowed: seq<Cidr>, k: nat)
    requires k < |allowed| && allowed[k] == b
    ensures WithinAllowed(b.ip, allowed)
  {
    assert allowed[k].Contains(b.ip);
  }

  lemma ApartMissesMiddle(allowed: seq<Cidr>, i: nat, j: nat)
    requires i < |allowed| && j < |allowed| && i != j
    requires forall k :: 0 <= k < |allowed| && allowed[k].ip.V4? ==> allowed[k].ones >= 1
    requires allowed[i].ip.V4? && allowed[i].ones >= 25 && allowed[j].ip.V4? && allowed[j].ones >= 26
    ensures !WithinAllowed(V4(0x0a00_0080), Apart(allowed, i, j))
  {
    var other := Apart(allowed, i, j);
    forall k | 0 <= k < |other| ensures !other[k].Contains(V4(0x0a00_0080)) {
      if other[k].ip.V4? { MissesMiddle(other[k]); }
    }
  }

  lemma GapNotConfined(allowed: seq<Cidr>, i: nat, j: nat)
    requires i < |allowed| && j < |allowed| && i != j
    requires forall k :: 0 <= k < |allowed| && allowed[k].ip.V4? ==> allowed[k].ones >= 1
    requires allowed[i].ip.V4? && allowed[i].ones >= 25 && allowed[j].ip.V4? && allowed[j].ones >= 26
    ensures SameShape(allowed, Apart(allowed, i, j)) && !Confines(Apart(allowed, i, j))
  {
    var other := Apart(allowed, i, j);
    HoldsOwnAddress(other[i], other, i);
    HoldsOwnAddress(other[j], other, j);
    ApartMissesMiddle(allowed, i, j);
    LabNotConfined(other);
  }

  /** Exactly the shapes without a possible gap confine every scan to the allowlist, wherever the blocks are. */
  lemma ConfinesByShape(allowed: seq<Cidr>)
    ensures (forall other :: SameShape(allowed, other) ==> Confines(other)) <==> !MayLeaveGap(allowed)
  {
    if MayLeaveGap(allowed) {
      var i, j :| 0 <= i < |allowed| && 0 <= j < |allowed| && i != j
        && allowed[i].ip.V4? && allowed[i].ones >= 25 && allowed[j].ip.V4? && allowed[j].ones >= 26;
      GapNotConfined(allowed, i, j);
    } else {
      forall other | SameShape(allowed, other) ensures Confines(other) { NoGapConfines(other); }
    }
  }

  // ----- the exact condition for one target, and for one allowlist -----

  function LowerHalf(n: Cidr): (half: Cidr)
    requires IsNetwork(n) && n.ip.V4? && n.ones < 32
    ensures IsNetwork(half) && half.ip == n.ip && half.ones == n.ones + 1
  {
    HalvesOfNetwork(n);
    Block(n.ip, n.ones + 1)
  }

  function UpperHalf(n: Cidr): (half: Cidr)
    requires IsNetwork(n) && n.ip.V4? && n.ones < 32
    ensures IsNetwork(half) && half.ip.V4? && half.ones == n.ones + 1
    ensures half.ip.addr == Broadcast(LowerHalf(n)) + 1 && Broadcast(half) == Broadcast(n)
  {
    HalvesOfNetwork(n);
    BroadcastFits(n);
    Block(V4(n.ip.addr + Pow2(n.HostBits() - 1)), n.ones + 1)
  }

  lemma HalvesOfNetwork(n: Cidr)
    requires IsNetwork(n) && n.ip.V4? && n.ones < 32
    ensures var h := n.HostBits() - 1; var p := Pow2(h);
            && Pow2(h + 1) == p + p && Masked(n.ip.addr, h) == n.ip.addr && Masked(n.ip.addr + p, h) == n.ip.addr + p
  {
    var h := n.HostBits() - 1;
    var q := High(n.ip.addr, h + 1);
    ShiftTwice(q, 1, h);
    ShiftNext(2 * q, h);
    Joins(2 * q, 0, h);
    Joins(2 * q + 1, 0, h);
  }

  lemma {:induction false} ShiftNext(q: nat, h: nat)
    ensures Shift(q + 1, h) == Shift(q, h) + Pow2(h)
  {
    if h > 0 { ShiftNext(q, h - 1); }
  }

  /** Some block at least as wide as n holds it, or both halves of n aggregate. */
  predicate Aggregates(allowed: seq<Cidr>, n: Cidr)
    requires IsNetwork(n) && n.ip.V4? && n.ones <= 32
    decreases 32 - n.ones
  {
    || (exists k :: 0 <= k < |allowed| && allowed[k].ones <= n.ones && allowed[k].Contains(n.ip))
    || (n.ones < 32 && Aggregates(allowed, LowerHalf(n)) && Aggregates(allowed, UpperHalf(n)))
  }

  ghost predicate AllWithin(allowed: seq<Cidr>, n: Cidr)
    requires IsNetwork(n) && n.ip.V4?
  {
    forall a: Uint32 :: n.ip.addr <= a <= Broadcast(n) ==> WithinAllowed(V4(a), allowed)
  }

  /** A list aggregates over a network exactly if it holds each of its addresses. */
  lemma {:induction false} AggregatesIff(allowed: seq<Cidr>, n: Cidr)
    requires IsNetwork(n) && n.ip.V4? && n.ones <= 32
    ensures Aggregates(allowed, n) <==> AllWithin(allowed, n)
    decreases 32 - n.ones
  {
    if k :| 0 <= k < |allowed| && allowed[k].ones <= n.ones && allowed[k].Contains(n.ip) {
      forall a: Uint32 | n.ip.addr <= a <= Broadcast(n) ensures WithinAllowed(V4(a), allowed) {
        NetworkRange(n, a);
        Nested(n, allowed[k], n.ip, V4(a));
      }
    } else if n.ones < 32 {
      AggregatesIff(allowed, LowerHalf(n));
      AggregatesIff(allowed, UpperHalf(n));
    } else if AllWithin(allowed, n) {
      assert WithinAllowed(n.ip, allowed);
    }
  }

  /** With both ends allowed, the hosts strictly between them decide. */
  lemma HostsDecide(n: Cidr, hosts: seq<IP>, allowed: seq<Cidr>)
    requires IsNetwork(n) && n.ip.V4? && hosts == HostsOf(n) && StrictlyBetween(n)
    requires WithinAllowed(n.ip, allowed) && WithinAllowed(V4(Broadcast(n)), allowed)
    ensures (forall ip :: ip in hosts ==> WithinAllowed(ip, allowed)) <==> AllWithin(allowed, n)
  {
    if forall ip :: ip in hosts ==> WithinAllowed(ip, allowed) {
      forall a: Uint32 | n.ip.addr <= a <= Broadcast(n) ensures WithinAllowed(V4(a), allowed) {
        if n.ip.addr < a < Broadcast(n) { assert V4(a) in hosts; }
      }
    }
    if AllWithin(allowed, n) {
      forall ip | ip in hosts ensures WithinAllowed(ip, allowed) {
        assert ip.V4? && n.ip.addr < ip.addr < Broadcast(n);
      }
    }
  }

  /** An accepted subnet is scanned inside the allowlist exactly if the allowlist aggregates over it. */
  lemma StaysInsideIff(cidr: Cidr, allowed: seq<Cidr>)
    requires ValidateControlledTarget(Subnet(cidr), allowed)
    ensures IsNetwork(Network(cidr)) && Network(cidr).ip.V4?
    ensures StaysInside(Subnet(cidr), allowed) <==> Aggregates(allowed, Network(cidr))
  {
    var n := Network(cidr);
    NetworkIsNetwork(cidr);
    ControlledResolves(Subnet(cidr), allowed);
    SubnetHosts(cidr);
    LastIsBroadcast(n);
    AggregatesIff(allowed, n);
    HostsDecide(n, ResolveTargets(Subnet(cidr)).ips, allowed);
  }

  /** One block of the list starts where n starts, and one ends where n ends: each pair spans at most one network. */
  predicate Spanned(allowed: seq<Cidr>, n: Cidr)
    requires IsNetwork(n) && n.ip.V4?
  {
    exists i, j :: 0 <= i < |allowed| && 0 <= j < |allowed| && Starts(allowed[i], n) && Ends(allowed[j], n)
  }

  predicate Starts(b: Cidr, n: Cidr) {
    Network(b).ip == n.ip
  }

  predicate Ends(b: Cidr, n: Cidr)
    requires IsNetwork(n) && n.ip.V4?
  {
    NetworkIsNetwork(b);
    b.ip.V4? && Broadcast(Network(b)) == Broadcast(n)
  }

  /** A block inside n that holds the first or the last address of n starts or ends with it. */
  lemma NarrowBlock(b: Cidr, n: Cidr)
    requires IsNetwork(n) && n.ip.V4? && b.ip.V4? && n.ones <= b.ones
    ensures b.Contains(n.ip) ==> Starts(b, n)
    ensures b.Contains(V4(Broadcast(n))) ==> Ends(b, n)
  {
    var m := Network(b);
    NetworkIsNetwork(b);
    var first, last := m.ip.addr, Broadcast(m);
    NetworkRange(m, first);
    NetworkRange(m, last);
    NetworkRange(n, first);
    NetworkRange(n, last);
    NetworkRange(n, n.ip.addr);
    NetworkRange(n, Broadcast(n));
    NetworkRange(m, n.ip.addr);
    NetworkRange(m, Broadcast(n));
    if b.Contains(n.ip) { Nested(m, n, n.ip, m.ip); }
    if b.Contains(V4(Broadcast(n))) { Nested(m, n, V4(Broadcast(n)), V4(last)); }
  }

  /** The networks an accepted target can be that two blocks of the list span. */
  ghost predicate SpannedTargetsAggregate(allowed: seq<Cidr>) {
    forall n: Cidr :: IsNetwork(n) && n.ip.V4? && Spanned(allowed, n) && ValidateControlledTarget(Subnet(n), allowed)
      ==> Aggregates(allowed, n)
  }

  lemma NetworkOfNetwork(n: Cidr)
    requires IsNetwork(n)
    ensures Network(n) == n
  {
  }

  lemma UnspannedIsWide(n: Cidr, allowed: seq<Cidr>)
    requires IsNetwork(n) && n.ip.V4? && !Spanned(allowed, n)
    requires WithinAllowed(n.ip, allowed) && WithinAllowed(V4(Broadcast(n)), allowed)
    ensures AllWithin(allowed, n)
  {
    var i :| 0 <= i < |allowed| && allowed[i].Contains(n.ip);
    var j :| 0 <= j < |allowed| && allowed[j].Contains(V4(Broadcast(n)));
    if n.ones <= allowed[i].ones { NarrowBlock(allowed[i], n); }
    if n.ones <= allowed[j].ones { NarrowBlock(allowed[j], n); }
    NetworkRange(n, n.ip.addr);
    NetworkRange(n, Broadcast(n));
    forall a: Uint32 | n.ip.addr <= a <= Broadcast(n) ensures WithinAllowed(V4(a), allowed) {
      NetworkRange(n, a);
      if allowed[i].ones <= n.ones {
        Nested(n, allowed[i], n.ip, V4(a));
      } else {
        Nested(n, allowed[j], V4(Broadcast(n)), V4(a));
      }
    }
  }

  /** An allowlist confines every scan exactly if it aggregates over each accepted network two of its blocks span. */
  lemma ConfinesIff(allowed: seq<Cidr>)
    ensures Confines(allowed) <==> SpannedTargetsAggregate(allowed)
  {
    if Confines(allowed) {
      forall n: Cidr | IsNetwork(n) && n.ip.V4? && Spanned(allowed, n) && ValidateControlledTarget(Subnet(n), allowed)
        ensures Aggregates(allowed, n)
      {
        NetworkOfNetwork(n);
        StaysInsideIff(n, allowed);
      }
    }
    if SpannedTargetsAggregate(allowed) {
      forall input | ValidateControlledTarget(input, allowed) ensures StaysInside(input, allowed) {
        ControlledResolves(input, allowed);
        if input.Subnet? { SpannedCovers(input.cidr, allowed); }
      }
    }
  }

  lemma SpannedCovers(cidr: Cidr, allowed: seq<Cidr>)
    requires SpannedTargetsAggregate(allowed) && ValidateControlledTarget(Subnet(cidr), allowed)
    ensures StaysInside(Subnet(cidr), allowed)
  {
    var n := Network(cidr);
    NetworkIsNetwork(cidr);
    NetworkOfNetwork(n);
    LastIsBroadcast(n);
    StaysInsideIff(cidr, allowed);
    AggregatesIff(allowed, n);
    if !Spanned(allowed, n) { UnspannedIsWide(n, allowed); }
  }
}
