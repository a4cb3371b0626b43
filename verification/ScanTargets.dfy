/**
 What a scan request may address: resolveTargets and enumerateHosts of internal/scanner/scanner.go, and
 the two validations of internal/scanner/handlers/scan.go.
*/
module ScanTargets {
  import opened Options
  import opened Bits
  import opened Addresses
  import opened Classifiers

  const MAX_SUBNET_BITS: nat := 24

  type Cidr = b: Block | b.Valid() witness Block(V4(0), 0)

  /** What net.ParseCIDR and then net.ParseIP make of the text of a request. */
  datatype Input = Subnet(cidr: Cidr) | Single(ip: IP) | Malformed

  datatype ScanError = SubnetTooLarge | OutOfScope | InvalidInput

  datatype Targets = Accepted(ips: seq<IP>) | Refused(error: ScanError)

  /** The h low bits cleared. */
  function Masked(a: nat, h: nat): (m: nat)
    ensures m <= a
  {
    Splits(a, h);
    Shift(High(a, h), h)
  }

  lemma {:induction false} ShiftTwice(q: nat, h: nat, k: nat)
    ensures Shift(q, h + k) == Shift(Shift(q, h), k)
  {
    if k > 0 { ShiftTwice(q, h, k - 1); }
  }

  /** Clearing low bits does not move an address into ::ffff:0:0/96. */
  lemma MaskedPlain(a: Plain6, h: nat)
    ensures Masked(a, h) / 0x1_0000_0000 != 0xffff
  {
    var m := Masked(a, h);
    Powers();
    Splits(m, 32);
    ShiftIsProduct(High(m, 32), 32);
    assert High(m, 32) == m / 0x1_0000_0000;
    if h <= 32 {
      Splits(a, 32);
      ShiftIsProduct(High(a, 32), 32);
      assert High(a, 32) == a / 0x1_0000_0000;
      HighTwice(m, h, 32 - h);
      HighTwice(a, h, 32 - h);
      Joins(High(a, h), 0, h);
    } else {
      ShiftTwice(High(a, h), h - 32, 32);
      Joins(Shift(High(a, h), h - 32), 0, 32);
    }
  }

  /** The network net.ParseCIDR delivers: the bits after the prefix cleared. */
  function Network(c: Cidr): (n: Cidr)
    ensures n.ones == c.ones && n.ip.V4? == c.ip.V4?
  {
    match c.ip
    case V4(addr) => Block(V4(Masked(addr, c.HostBits())), c.ones)
    case V6(wide) =>
      MaskedPlain(wide, c.HostBits());
      Block(V6(Masked(wide, c.HostBits())), c.ones)
  }

  predicate IsNetwork(c: Cidr) {
    c.ip.Number() == Masked(c.ip.Number(), c.HostBits())
  }

  lemma NetworkIsNetwork(c: Cidr)
    ensures IsNetwork(Network(c)) && forall ip :: Network(c).Contains(ip) <==> c.Contains(ip)
  {
    Joins(High(c.ip.Number(), c.HostBits()), 0, c.HostBits());
  }

  // ----- the addresses of a network -----

  /** The last address of an IPv4 network. */
  function Broadcast(c: Cidr): Uint32
    requires IsNetwork(c) && c.ip.V4?
  {
    BroadcastFits(c);
    c.ip.addr + Pow2(c.HostBits()) - 1
  }

  lemma BroadcastFits(c: Cidr)
    requires IsNetwork(c) && c.ip.V4?
    ensures c.ip.addr + Pow2(c.HostBits()) <= 0x1_0000_0000
  {
    Powers();
    HighFits(c.ip.addr, c.ones, c.HostBits());
    ShiftFits(High(c.ip.addr, c.HostBits()), c.ones, c.HostBits());
  }

  /** A network is the range from its address to its broadcast address. */
  lemma NetworkRange(c: Cidr, a: Uint32)
    requires IsNetwork(c) && c.ip.V4?
    ensures c.Contains(V4(a)) <==> c.ip.addr <= a <= Broadcast(c)
  {
    AlignedRange(c, High(c.ip.addr, c.HostBits()), V4(a));
  }

  function Wrap(x: nat): Uint32 {
    x % 0x1_0000_0000
  }

  /** The addresses lo, lo + 1, ... below hi. */
  function Run(lo: nat, hi: Uint32): (ips: seq<IP>)
    ensures |ips| == if lo <= hi then hi - lo else 0
    ensures forall i :: 0 <= i < |ips| ==> ips[i] == V4(lo + i)
  {
    if lo <= hi then seq(hi - lo, i requires 0 <= i < hi - lo => V4(lo + i)) else []
  }

  /** The result of enumerateHosts. */
  function HostsOf(c: Cidr): seq<IP>
    requires IsNetwork(c)
  {
    if c.ip.V6? then [c.ip] else Run(Wrap(c.ip.addr + 1), Broadcast(c))
  }

  /** start | ^mask on 32-bit words. */
  function OrNotMask(c: Cidr): nat
    requires c.ip.V4?
  {
    Powers();
    Or(c.ip.addr, Not(Mask(c.ones, 32), 32))
  }

  lemma OrIsBroadcast(c: Cidr)
    requires IsNetwork(c) && c.ip.V4?
    ensures OrNotMask(c) == Broadcast(c)
  {
    OrLow(High(c.ip.addr, c.HostBits()), c.HostBits());
  }

  method EnumerateHosts(network: Cidr) returns (hosts: seq<IP>)
    requires IsNetwork(network)
    ensures hosts == HostsOf(network)
  {
    if network.ip.V6? {
      return [network.ip];
    }
    OrIsBroadcast(network);
    var broadcast: Uint32 := OrNotMask(network);
    hosts := EnumerateRange(Wrap(network.ip.addr + 1), broadcast);
  }

  /** The loop of enumerateHosts. */
  method EnumerateRange(first: Uint32, broadcast: Uint32) returns (hosts: seq<IP>)
    ensures hosts == Run(first, broadcast)
  {
    hosts := [];
    var addr := first;
    while addr < broadcast
      invariant first <= addr && (addr <= broadcast || addr == first)
      invariant hosts == Run(first, addr)
      decreases broadcast - addr
    {
      hosts := hosts + [V4(addr)];
      addr := Wrap(addr + 1);
    }
  }

  predicate Ascending(ips: seq<IP>) {
    && (forall i :: 0 <= i < |ips| ==> ips[i].V4?)
    && (forall i, j :: 0 <= i < j < |ips| ==> ips[i].Number() < ips[j].Number())
  }

  lemma InRun(lo: nat, hi: Uint32, a: Uint32)
    ensures V4(a) in Run(lo, hi) <==> lo <= a < hi
    ensures Ascending(Run(lo, hi))
  {
    if lo <= a < hi { assert Run(lo, hi)[a - lo] == V4(a); }
  }

  lemma LastAddress(c: Cidr)
    requires IsNetwork(c) && c.ip.V4? && c.ip.addr == 0xffff_ffff
    ensures c.ones == 32 && Broadcast(c) == 0xffff_ffff
  {
    if c.ones < 32 { Pow2Grows(1, c.HostBits()); }
    BroadcastFits(c);
  }

  /** The one network for which start + 1 wraps around to 0. */
  predicate IsLastAddress(c: Cidr) {
    c.ip == V4(0xffff_ffff) && c.ones == 32
  }

  /** The hosts of a network are exactly the addresses strictly between network and broadcast. */
  ghost predicate StrictlyBetween(c: Cidr)
    requires IsNetwork(c) && c.ip.V4?
  {
    forall a: Uint32 :: V4(a) in HostsOf(c) <==> c.ip.addr < a < Broadcast(c)
  }

  lemma HostsInside(c: Cidr)
    requires IsNetwork(c) && c.ip.V4? && !IsLastAddress(c)
    ensures StrictlyBetween(c) && c.ip.addr + 1 < 0x1_0000_0000
  {
    if c.ip.addr == 0xffff_ffff { LastAddress(c); }
    var lo, hi := c.ip.addr + 1, Broadcast(c);
    assert HostsOf(c) == Run(lo, hi);
    forall a: Uint32 ensures V4(a) in Run(lo, hi) <==> lo <= a < hi { InRun(lo, hi, a); }
  }

  lemma HostsWrapped(c: Cidr)
    requires IsNetwork(c) && IsLastAddress(c)
    ensures V4(0) in HostsOf(c) && |HostsOf(c)| == 0xffff_ffff
  {
    LastAddress(c);
    InRun(0, 0xffff_ffff, 0);
  }

  /** enumerateHosts is right for every IPv4 network but 255.255.255.255/32. */
  lemma HostsExact(c: Cidr)
    requires IsNetwork(c) && c.ip.V4?
    ensures StrictlyBetween(c) <==> !IsLastAddress(c)
    ensures Ascending(HostsOf(c))
  {
    InRun(Wrap(c.ip.addr + 1), Broadcast(c), 0);
    if IsLastAddress(c) { HostsWrapped(c); } else { HostsInside(c); }
  }

  lemma HostsLength(c: Cidr)
    requires IsNetwork(c) && c.ip.V4? && !IsLastAddress(c)
    ensures |HostsOf(c)| == if Pow2(c.HostBits()) >= 2 then Pow2(c.HostBits()) - 2 else 0
  {
    if c.ip.addr == 0xffff_ffff { LastAddress(c); }
  }

  /** There are 2^(32 - n) - 2 of them, or none; at most 254 in a /24 or smaller. */
  lemma HostsCount(c: Cidr)
    requires IsNetwork(c) && c.ip.V4? && !IsLastAddress(c)
    ensures |HostsOf(c)| == if c.ones <= 30 then Pow2(32 - c.ones) - 2 else 0
    ensures c.ones >= MAX_SUBNET_BITS ==> |HostsOf(c)| <= 254
  {
    HostsLength(c);
    BitsOfSize(c.HostBits());
  }

  lemma BitsOfSize(h: nat)
    ensures h >= 2 ==> Pow2(h) >= 4
    ensures h <= 1 ==> Pow2(h) <= 2
    ensures h <= 8 ==> Pow2(h) <= 0x100
  {
    if h >= 2 { Pow2Grows(2, h); }
    if h <= 8 {
      Powers();
      Pow2Grows(h, 8);
    }
  }

  // ----- what a request resolves to -----

  function ResolveTargets(input: Input): Targets {
    match input
    case Subnet(cidr) =>
      var network := Network(cidr);
      NetworkIsNetwork(cidr);
      if network.ones < MAX_SUBNET_BITS then Refused(SubnetTooLarge)
      else if !InScope(network.ip) then Refused(OutOfScope)
      else Accepted(HostsOf(network))
    case Single(ip) => if InScope(ip) then Accepted([ip]) else Refused(OutOfScope)
    case Malformed => Refused(InvalidInput)
  }

  lemma ScopeBlocksAreWide(ip: IP)
    ensures forall i :: 0 <= i < |IN_SCOPE_BLOCKS| ==> IN_SCOPE_BLOCKS[i].Valid() && IN_SCOPE_BLOCKS[i].ones <= 16
  {
  }

  /** The test of the network address alone covers every address of the network. */
  lemma NetworkInScope(c: Cidr, a: IP)
    requires c.ones >= MAX_SUBNET_BITS && InScope(c.ip) && c.Contains(a)
    ensures InScope(a)
  {
    ScopeBlocksAreWide(a);
    var i :| 0 <= i < |IN_SCOPE_BLOCKS| && IN_SCOPE_BLOCKS[i].Contains(c.ip);
    Nested(c, IN_SCOPE_BLOCKS[i], c.ip, a);
  }

  /** An accepted subnet is scanned as its addresses strictly between network and broadcast, all in scope. */
  lemma SubnetHosts(cidr: Cidr)
    requires ResolveTargets(Subnet(cidr)).Accepted?
    ensures var n, ips := Network(cidr), ResolveTargets(Subnet(cidr)).ips;
            && cidr.ip.V4? && n.ones >= MAX_SUBNET_BITS && IsNetwork(n) && !IsLastAddress(n)
            && ips == HostsOf(n) && StrictlyBetween(n) && Ascending(ips)
            && |ips| == (if n.ones <= 30 then Pow2(32 - n.ones) - 2 else 0) && |ips| <= 254
            && forall ip :: ip in ips ==> InScope(ip) && n.Contains(ip)
  {
    var n := Network(cidr);
    NetworkIsNetwork(cidr);
    InScopeIs(n.ip);
    HostsExact(n);
    HostsCount(n);
    forall ip | ip in HostsOf(n) ensures InScope(ip) && n.Contains(ip) {
      NetworkRange(n, ip.addr);
      NetworkInScope(n, ip);
    }
  }

  /** Whatever is accepted, the scanner is handed distinct addresses in scope, at most 254. */
  lemma AcceptedInScope(input: Input)
    requires ResolveTargets(input).Accepted?
    ensures var ips := ResolveTargets(input).ips;
            && Ascending(ips) && |ips| <= 254 && forall ip :: ip in ips ==> InScope(ip)
  {
    if input.Subnet? { SubnetHosts(input.cidr); } else { InScopeIs(input.ip); }
  }

  /** validateInput: None is acceptance. */
  function ValidateInput(input: Input): Option<ScanError> {
    match input
    case Subnet(cidr) =>
      if Network(cidr).ones < 24 then Some(SubnetTooLarge)
      else if !InScope(Network(cidr).ip) then Some(OutOfScope)
      else None
    case Single(ip) => if InScope(ip) then None else Some(OutOfScope)
    case Malformed => Some(InvalidInput)
  }

  /** The handler's check and the scanner's own refuse the same inputs for the same reasons. */
  lemma ValidationAgrees(input: Input)
    ensures ValidateInput(input) == match ResolveTargets(input) case Accepted(_) => None case Refused(e) => Some(e)
  {
  }

  // ----- the controlled lab -----

  /** Four bytes, the most significant first. */
  datatype Word = Word(b0: Byte, b1: Byte, b2: Byte, b3: Byte) {
    function Number(): nat {
      Join(b0, b1, b2, b3)
    }
  }

  function Join(b0: nat, b1: nat, b2: nat, b3: nat): nat {
    ((b0 * 0x100 + b1) * 0x100 + b2) * 0x100 + b3
  }

  function WordOf(x: Uint32): Word {
    Word(x / 0x100_0000, x / 0x1_0000 % 0x100, x / 0x100 % 0x100, x % 0x100)
  }

  lemma WordRoundTrip(x: Uint32)
    ensures WordOf(x).Number() == x
  {
    assert x / 0x1_0000 == x / 0x100_0000 * 0x100 + x / 0x1_0000 % 0x100;
    assert x / 0x100 == x / 0x1_0000 * 0x100 + x / 0x100 % 0x100;
  }

  lemma OrByte(a: nat, b: nat, c: nat, d: nat)
    requires b < 0x100 && d < 0x100
    ensures Or(b, d) < 0x100 && Or(a * 0x100 + b, c * 0x100 + d) == Or(a, c) * 0x100 + Or(b, d)
  {
    Powers();
    OrSplits(8, a, b, c, d);
    ShiftIsProduct(a, 8);
    ShiftIsProduct(c, 8);
    ShiftIsProduct(Or(a, c), 8);
  }

  lemma OrBytesBelow(x0: nat, x1: nat, x2: nat, x3: nat, y0: nat, y1: nat, y2: nat, y3: nat)
    requires x0 < 0x100 && x1 < 0x100 && x2 < 0x100 && x3 < 0x100
    requires y0 < 0x100 && y1 < 0x100 && y2 < 0x100 && y3 < 0x100
    ensures Or(x0, y0) < 0x100 && Or(x1, y1) < 0x100 && Or(x2, y2) < 0x100 && Or(x3, y3) < 0x100
  {
    OrByte(0, x0, 0, y0);
    OrByte(0, x1, 0, y1);
    OrByte(0, x2, 0, y2);
    OrByte(0, x3, 0, y3);
  }

  /** Or on 32-bit words is Or on their bytes. */
  lemma OrBytes(x0: nat, x1: nat, x2: nat, x3: nat, y0: nat, y1: nat, y2: nat, y3: nat)
    requires x1 < 0x100 && x2 < 0x100 && x3 < 0x100 && y1 < 0x100 && y2 < 0x100 && y3 < 0x100
    ensures Join(Or(x0, y0), Or(x1, y1), Or(x2, y2), Or(x3, y3)) == Or(Join(x0, x1, x2, x3), Join(y0, y1, y2, y3))
  {
    var x01, y01 := x0 * 0x100 + x1, y0 * 0x100 + y1;
    var x02, y02 := x01 * 0x100 + x2, y01 * 0x100 + y2;
    var o01 := Or(x01, y01);
    assert o01 == Or(x0, y0) * 0x100 + Or(x1, y1) by { OrByte(x0, x1, y0, y1); }
    var o02 := Or(x02, y02);
    assert o02 == o01 * 0x100 + Or(x2, y2) by { OrByte(x01, x2, y01, y2); }
    assert Or(x02 * 0x100 + x3, y02 * 0x100 + y3) == o02 * 0x100 + Or(x3, y3) by { OrByte(x02, x3, y02, y3); }
  }

  function OrNot(x: Byte, m: Byte): Byte {
    OrByte(0, x, 0, 0xff - m);
    Or(x, 0xff - m)
  }

  /** A word byte by byte: first[i] | ^mask[i]. */
  function OrNotBytes(x: Word, m: Word): (r: Word)
    ensures r.Number() == Or(x.Number(), 0xffff_ffff - m.Number())
  {
    OrBytesBelow(x.b0, x.b1, x.b2, x.b3, 0xff - m.b0, 0xff - m.b1, 0xff - m.b2, 0xff - m.b3);
    OrBytes(x.b0, x.b1, x.b2, x.b3, 0xff - m.b0, 0xff - m.b1, 0xff - m.b2, 0xff - m.b3);
    Word(OrNot(x.b0, m.b0), OrNot(x.b1, m.b1), OrNot(x.b2, m.b2), OrNot(x.b3, m.b3))
  }

  function Octet(w: Word, i: nat): Byte
    requires i < 4
  {
    if i == 0 then w.b0 else if i == 1 then w.b1 else if i == 2 then w.b2 else w.b3
  }

  function MaskWord(c: Cidr): Word
    requires c.ip.V4?
  {
    Powers();
    WordOf(Mask(c.ones, 32))
  }

  /** The address whose four bytes lastIPv4 fills one by one. */
  function LastWord(c: Cidr): Word
    requires c.ip.V4?
  {
    OrNotBytes(WordOf(c.ip.addr), MaskWord(c))
  }

  lemma OctetOfOr(x: Word, m: Word, i: nat)
    requires i < 4
    ensures Octet(OrNotBytes(x, m), i) == OrNot(Octet(x, i), Octet(m, i))
  {
  }

  /** The loop of lastIPv4. */
  method FillLast(first: Word, mask: Word) returns (last: array<Byte>)
    ensures last.Length == 4 && forall i :: 0 <= i < 4 ==> last[i] == Octet(OrNotBytes(first, mask), i)
  {
    last := new Byte[4];
    for i := 0 to 4
      invariant forall k :: 0 <= k < i ==> last[k] == Octet(OrNotBytes(first, mask), k)
    {
      OctetOfOr(first, mask, i);
      last[i] := OrNot(Octet(first, i), Octet(mask, i));
    }
  }

  method LastIPv4(network: Cidr) returns (last: array<Byte>)
    requires network.ip.V4?
    ensures last.Length == 4 && forall i :: 0 <= i < 4 ==> last[i] == Octet(LastWord(network), i)
  {
    last := FillLast(WordOf(network.ip.addr), MaskWord(network));
  }

  lemma OrNotRoundTrip(x: Uint32, m: Uint32)
    ensures OrNotBytes(WordOf(x), WordOf(m)).Number() == Or(x, 0xffff_ffff - m)
  {
    WordRoundTrip(x);
    WordRoundTrip(m);
  }

  /** Computed byte by byte or on the whole word, the last address of a network is its broadcast address. */
  lemma LastIsBroadcast(c: Cidr)
    requires IsNetwork(c) && c.ip.V4?
    ensures LastWord(c).Number() == OrNotMask(c) == Broadcast(c)
  {
    Powers();
    OrNotRoundTrip(c.ip.addr, Mask(c.ones, 32));
    OrIsBroadcast(c);
  }
}
