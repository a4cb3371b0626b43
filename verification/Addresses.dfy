/** IP addresses and CIDR blocks: RFC 4632 section 3.1. */
module Addresses {
  import opened Bits

  type Byte = x: nat | x < 0x100
  type Uint32 = x: nat | x < 0x1_0000_0000

  /** An IPv6 address; one that embeds an IPv4 address in ::ffff:0:0/96 is that IPv4 address. */
  type Plain6 = x: nat | x < 0x1_00000000_00000000_00000000_00000000 && x / 0x1_0000_0000 != 0xffff

  datatype IP = V4(addr: Uint32) | V6(wide: Plain6) {
    function Width(): nat {
      if V4? then 32 else 128
    }
    function Number(): nat {
      if V4? then addr else wide
    }
  }

  function Dotted(a: Byte, b: Byte, c: Byte, d: Byte): IP {
    V4(((a * 0x100 + b) * 0x100 + c) * 0x100 + d)
  }

  /** A block as written: an address, which may have bits after the prefix, and a prefix length. */
  datatype Block = Block(ip: IP, ones: nat) {
    predicate Valid() {
      ones <= ip.Width()
    }
    function HostBits(): nat
      requires Valid()
    {
      ip.Width() - ones
    }
    /** The same family, and the same prefix. */
    predicate Contains(a: IP)
      requires Valid()
    {
      a.V4? == ip.V4? && High(a.Number(), HostBits()) == High(ip.Number(), HostBits())
    }
  }

  predicate AnyContains(blocks: seq<Block>, ip: IP)
    requires forall i :: 0 <= i < |blocks| ==> blocks[i].Valid()
  {
    exists i :: 0 <= i < |blocks| && blocks[i].Contains(ip)
  }

  lemma {:induction false} HighMonotone(a: nat, b: nat, h: nat)
    requires a <= b
    ensures High(a, h) <= High(b, h)
  {
    if h > 0 { HighMonotone(a / 2, b / 2, h - 1); }
  }

  /** A block that holds one address of a block no wider than itself holds them all. */
  lemma Nested(inner: Block, outer: Block, x: IP, a: IP)
    requires inner.Valid() && outer.Valid() && outer.ones <= inner.ones
    requires inner.Contains(x) && inner.Contains(a) && outer.Contains(x)
    ensures outer.Contains(a)
  {
    var k := inner.ones - outer.ones;
    HighTwice(a.Number(), inner.HostBits(), k);
    HighTwice(x.Number(), inner.HostBits(), k);
  }

  /** An address at least the size of the block away is not in it. */
  lemma TooFar(b: Block, x: IP, h: nat)
    requires b.Valid() && b.HostBits() <= h
    requires b.ip.Number() + Pow2(h) <= x.Number() || x.Number() + Pow2(h) <= b.ip.Number()
    ensures !b.Contains(x)
  {
    Pow2Grows(b.HostBits(), h);
    Splits(b.ip.Number(), b.HostBits());
    Splits(x.Number(), b.HostBits());
  }

  /** A block is a range: what lies between two of its addresses lies in it. */
  lemma NoHoles(b: Block, lo: IP, a: IP, hi: IP)
    requires b.Valid() && b.Contains(lo) && b.Contains(hi)
    requires lo.V4? == a.V4? && lo.Number() <= a.Number() <= hi.Number()
    ensures b.Contains(a)
  {
    HighMonotone(lo.Number(), a.Number(), b.HostBits());
    HighMonotone(a.Number(), hi.Number(), b.HostBits());
  }

  /** A block whose address has no bits after the prefix holds the range that starts there. */
  lemma AlignedRange(b: Block, prefix: nat, a: IP)
    requires b.Valid() && b.ip.Number() == Shift(prefix, b.HostBits())
    ensures b.Contains(a) <==>
            b.ip.V4? == a.V4? && b.ip.Number() <= a.Number() < b.ip.Number() + Pow2(b.HostBits())
  {
    var h := b.HostBits();
    Joins(prefix, 0, h);
    Splits(a.Number(), h);
    if b.ip.Number() <= a.Number() < b.ip.Number() + Pow2(h) {
      Joins(prefix, a.Number() - b.ip.Number(), h);
    }
  }

  /** Size addresses of one family, starting at lo. */
  datatype Range = Range(v4: bool, lo: nat, size: nat) {
    predicate Has(a: IP) {
      a.V4? == v4 && lo <= a.Number() < lo + size
    }
    /** A block that is written with no bits after its prefix, as a range. */
    predicate Is(b: Block) {
      b.Valid() && b.ip.V4? == v4 && b.ip.Number() == lo && Pow2(b.HostBits()) == size && lo % size == 0
    }
  }

  lemma RangeIs(r: Range, b: Block, a: IP)
    requires r.Is(b)
    ensures b.Contains(a) <==> r.Has(a)
  {
    var prefix := r.lo / r.size;
    ShiftIsProduct(prefix, b.HostBits());
    AlignedRange(b, prefix, a);
  }

  predicate AnyHas(ranges: seq<Range>, a: IP) {
    exists i :: 0 <= i < |ranges| && ranges[i].Has(a)
  }

  predicate AnyIn(ranges: seq<Range>, lo: nat, hi: nat, a: IP)
    requires hi <= |ranges|
  {
    exists i :: lo <= i < hi && ranges[i].Has(a)
  }

  predicate AllAre(ranges: seq<Range>, blocks: seq<Block>) {
    |ranges| == |blocks| && forall i :: 0 <= i < |blocks| ==> ranges[i].Is(blocks[i])
  }

  lemma RangesAre(ranges: seq<Range>, blocks: seq<Block>, a: IP)
    requires AllAre(ranges, blocks)
    ensures forall i :: 0 <= i < |blocks| ==> blocks[i].Valid()
    ensures AnyContains(blocks, a) <==> AnyHas(ranges, a)
  {
    assert forall i :: 0 <= i < |blocks| ==> ranges[i].Is(blocks[i]);
    forall i | 0 <= i < |blocks| ensures blocks[i].Contains(a) <==> ranges[i].Has(a) {
      RangeIs(ranges[i], blocks[i], a);
    }
  }
}
