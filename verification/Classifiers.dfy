/**
 The three address policies of the repository: what the scanner may touch (internal/scanner/scanner.go and
 internal/scanner/handlers/scan.go), what a server-side request may connect to
 (internal/enrichment/services/outbound_target.go), and what is not worth looking up
 (internal/enrichment/validators/validators.go).
*/
module Classifiers {
  import opened Options
  import opened Bits
  import opened Addresses

  // ----- the predicates of net.IP, on the leading bytes: b / 2^k are the top bits of a byte -----

  function Byte0(ip: IP): Byte {
    if ip.V4? then ip.addr / 0x100_0000 else ip.wide / 0x100_0000_00000000_00000000_00000000
  }

  function Byte1(ip: IP): Byte {
    if ip.V4? then ip.addr / 0x1_0000 % 0x100 else ip.wide / 0x1_0000_00000000_00000000_00000000 % 0x100
  }

  function Byte2(ip: IP): Byte {
    if ip.V4? then ip.addr / 0x100 % 0x100 else ip.wide / 0x100_00000000_00000000_00000000 % 0x100
  }

  predicate IsUnspecified(ip: IP) {
    ip.Number() == 0
  }

  predicate IsLoopback(ip: IP) {
    if ip.V4? then Byte0(ip) == 127 else ip.wide == 1
  }

  predicate IsPrivate(ip: IP) {
    if ip.V4? then
      || Byte0(ip) == 10
      || (Byte0(ip) == 172 && Byte1(ip) / 0x10 == 1)
      || (Byte0(ip) == 192 && Byte1(ip) == 168)
    else Byte0(ip) / 2 == 0x7e
  }

  predicate IsLinkLocalUnicast(ip: IP) {
    if ip.V4? then Byte0(ip) == 169 && Byte1(ip) == 254
    else Byte0(ip) == 0xfe && Byte1(ip) / 0x40 == 2
  }

  predicate IsLinkLocalMulticast(ip: IP) {
    if ip.V4? then Byte0(ip) == 224 && Byte1(ip) == 0 && Byte2(ip) == 0
    else Byte0(ip) == 0xff && Byte1(ip) % 0x10 == 2
  }

  predicate IsMulticast(ip: IP) {
    if ip.V4? then Byte0(ip) / 0x10 == 0xe else Byte0(ip) == 0xff
  }

  // ----- the policies -----

  const IN_SCOPE_BLOCKS: seq<Block> := [
    Block(Dotted(10, 0, 0, 0), 8),
    Block(Dotted(172, 16, 0, 0), 12),
    Block(Dotted(192, 168, 0, 0), 16),
    Block(Dotted(127, 0, 0, 0), 8),
    Block(Dotted(169, 254, 0, 0), 16)
  ]

  predicate InScope(ip: IP) {
    AnyContains(IN_SCOPE_BLOCKS, ip)
  }

  predicate IsPrivateLabIP(ip: IP) {
    && ip.V4? && IsPrivate(ip)
    && !IsLoopback(ip) && !IsLinkLocalUnicast(ip) && !IsUnspecified(ip) && !IsMulticast(ip)
  }

  const SPECIAL_USE_CIDRS: seq<Block> := [
    Block(Dotted(0, 0, 0, 0), 8),
    Block(Dotted(100, 64, 0, 0), 10),
    Block(Dotted(192, 0, 0, 0), 24),
    Block(Dotted(192, 0, 2, 0), 24),
    Block(Dotted(198, 18, 0, 0), 15),
    Block(Dotted(198, 51, 100, 0), 24),
    Block(Dotted(203, 0, 113, 0), 24),
    Block(Dotted(224, 0, 0, 0), 4),
    Block(Dotted(240, 0, 0, 0), 4),
    Block(Dotted(255, 255, 255, 255), 32),
    Block(V6(0), 128),
    Block(V6(0x0100_0000_00000000_00000000_00000000), 64),
    Block(V6(0x2001_0db8_00000000_00000000_00000000), 32),
    Block(V6(0xfc00_0000_00000000_00000000_00000000), 7),
    Block(V6(0xfe80_0000_00000000_00000000_00000000), 10),
    Block(V6(0xff00_0000_00000000_00000000_00000000), 8)
  ]

  predicate IsPublicInternetIP(ip: IP) {
    && !IsUnspecified(ip) && !IsLoopback(ip) && !IsPrivate(ip)
    && !IsLinkLocalUnicast(ip) && !IsLinkLocalMulticast(ip) && !IsMulticast(ip)
    && !AnyContains(SPECIAL_USE_CIDRS, ip)
  }

  const BOGON_CIDRS: seq<Block> := [
    Block(Dotted(0, 0, 0, 0), 8),
    Block(Dotted(10, 0, 0, 0), 8),
    Block(Dotted(100, 64, 0, 0), 10),
    Block(Dotted(127, 0, 0, 0), 8),
    Block(Dotted(169, 254, 0, 0), 16),
    Block(Dotted(172, 16, 0, 0), 12),
    Block(Dotted(192, 0, 0, 0), 24),
    Block(Dotted(192, 0, 2, 0), 24),
    Block(Dotted(192, 168, 0, 0), 16),
    Block(Dotted(198, 18, 0, 0), 15),
    Block(Dotted(198, 51, 100, 0), 24),
    Block(Dotted(203, 0, 113, 0), 24),
    Block(Dotted(224, 0, 0, 0), 4),
    Block(Dotted(240, 0, 0, 0), 4),
    Block(Dotted(255, 255, 255, 255), 32),
    Block(V6(1), 128),
    Block(V6(0xfc00_0000_00000000_00000000_00000000), 7),
    Block(V6(0xfe80_0000_00000000_00000000_00000000), 10),
    Block(V6(0xff00_0000_00000000_00000000_00000000), 8),
    Block(V6(0x0100_0000_00000000_00000000_00000000), 64),
    Block(V6(0x2001_0db8_00000000_00000000_00000000), 32),
    Block(V6(0), 128)
  ]

  predicate IsBogonIP(ip: IP) {
    AnyContains(BOGON_CIDRS, ip)
  }

  // ----- the CIDR lists as ranges -----

  function ScopeRanges(): seq<Range> {
    [ Range(true, 0x0a00_0000, 0x100_0000),
      Range(true, 0xac10_0000, 0x10_0000),
      Range(true, 0xc0a8_0000, 0x1_0000),
      Range(true, 0x7f00_0000, 0x100_0000),
      Range(true, 0xa9fe_0000, 0x1_0000)]
  }

  function SpecialRanges(): seq<Range> {
    [ Range(true, 0x0000_0000, 0x100_0000),
      Range(true, 0x6440_0000, 0x40_0000),
      Range(true, 0xc000_0000, 0x100),
      Range(true, 0xc000_0200, 0x100),
      Range(true, 0xc612_0000, 0x2_0000),
      Range(true, 0xc633_6400, 0x100),
      Range(true, 0xcb00_7100, 0x100),
      Range(true, 0xe000_0000, 0x1000_0000),
      Range(true, 0xf000_0000, 0x1000_0000),
      Range(true, 0xffff_ffff, 1),
      Range(false, 0, 1),
      Range(false, 0x0100_0000_00000000_00000000_00000000, 0x1_00000000_00000000),
      Range(false, 0x2001_0db8_00000000_00000000_00000000, 0x1_00000000_00000000_00000000),
      Range(false, 0xfc00_0000_00000000_00000000_00000000, 0x200_0000_00000000_00000000_00000000),
      Range(false, 0xfe80_0000_00000000_00000000_00000000, 0x40_0000_00000000_00000000_00000000),
      Range(false, 0xff00_0000_00000000_00000000_00000000, 0x100_0000_00000000_00000000_00000000)]
  }

  function BogonRanges(): seq<Range> {
    [ Range(true, 0x0000_0000, 0x100_0000),
      Range(true, 0x0a00_0000, 0x100_0000),
      Range(true, 0x6440_0000, 0x40_0000),
      Range(true, 0x7f00_0000, 0x100_0000),
      Range(true, 0xa9fe_0000, 0x1_0000),
      Range(true, 0xac10_0000, 0x10_0000),
      Range(true, 0xc000_0000, 0x100),
      Range(true, 0xc000_0200, 0x100),
      Range(true, 0xc0a8_0000, 0x1_0000),
      Range(true, 0xc612_0000, 0x2_0000),
      Range(true, 0xc633_6400, 0x100),
      Range(true, 0xcb00_7100, 0x100),
      Range(true, 0xe000_0000, 0x1000_0000),
      Range(true, 0xf000_0000, 0x1000_0000),
      Range(true, 0xffff_ffff, 1),
      Range(false, 1, 1),
      Range(false, 0xfc00_0000_00000000_00000000_00000000, 0x200_0000_00000000_00000000_00000000),
      Range(false, 0xfe80_0000_00000000_00000000_00000000, 0x40_0000_00000000_00000000_00000000),
      Range(false, 0xff00_0000_00000000_00000000_00000000, 0x100_0000_00000000_00000000_00000000),
      Range(false, 0x0100_0000_00000000_00000000_00000000, 0x1_00000000_00000000),
      Range(false, 0x2001_0db8_00000000_00000000_00000000, 0x1_00000000_00000000_00000000),
      Range(false, 0, 1)]
  }

  lemma ScopeRangesAre()
    ensures AllAre(ScopeRanges(), IN_SCOPE_BLOCKS)
  {
    Powers();
    assert forall i :: 0 <= i < 3 ==> ScopeRanges()[i].Is(IN_SCOPE_BLOCKS[i]);
    assert forall i :: 3 <= i < 5 ==> ScopeRanges()[i].Is(IN_SCOPE_BLOCKS[i]);
  }

  lemma SpecialA()
    ensures forall i :: 0 <= i < 5 ==> SpecialRanges()[i].Is(SPECIAL_USE_CIDRS[i])
  {
    Powers();
  }

  lemma SpecialB()
    ensures forall i :: 5 <= i < 10 ==> SpecialRanges()[i].Is(SPECIAL_USE_CIDRS[i])
  {
    Powers();
  }

  lemma BogonA()
    ensures forall i :: 0 <= i < 5 ==> BogonRanges()[i].Is(BOGON_CIDRS[i])
  {
    Powers();
  }

  lemma BogonB()
    ensures forall i :: 5 <= i < 10 ==> BogonRanges()[i].Is(BOGON_CIDRS[i])
  {
    Powers();
  }

  lemma BogonC()
    ensures forall i :: 10 <= i < 15 ==> BogonRanges()[i].Is(BOGON_CIDRS[i])
  {
    Powers();
  }

  lemma SpecialC()
    ensures forall i :: 10 <= i < 12 ==> SpecialRanges()[i].Is(SPECIAL_USE_CIDRS[i])
  {
    Wide64();
  }

  lemma SpecialD()
    ensures forall i :: 12 <= i < 13 ==> SpecialRanges()[i].Is(SPECIAL_USE_CIDRS[i])
  {
    Wide96();
  }

  lemma SpecialE()
    ensures forall i :: 13 <= i < 14 ==> SpecialRanges()[i].Is(SPECIAL_USE_CIDRS[i])
  {
    Wide121();
  }

  lemma SpecialF()
    ensures forall i :: 14 <= i < 15 ==> SpecialRanges()[i].Is(SPECIAL_USE_CIDRS[i])
  {
    Wide118();
  }

  lemma SpecialG()
    ensures forall i :: 15 <= i < 16 ==> SpecialRanges()[i].Is(SPECIAL_USE_CIDRS[i])
  {
    Wide120();
  }

  lemma SpecialRangesAre()
    ensures AllAre(SpecialRanges(), SPECIAL_USE_CIDRS)
  {
    SpecialA();
    SpecialB();
    SpecialC();
    SpecialD();
    SpecialE();
    SpecialF();
    SpecialG();
  }

  lemma BogonD()
    ensures forall i :: 15 <= i < 17 ==> BogonRanges()[i].Is(BOGON_CIDRS[i])
  {
    Wide121();
  }

  lemma BogonE()
    ensures forall i :: 17 <= i < 18 ==> BogonRanges()[i].Is(BOGON_CIDRS[i])
  {
    Wide118();
  }

  lemma BogonF()
    ensures forall i :: 18 <= i < 19 ==> BogonRanges()[i].Is(BOGON_CIDRS[i])
  {
    Wide120();
  }

  lemma BogonG()
    ensures forall i :: 19 <= i < 20 ==> BogonRanges()[i].Is(BOGON_CIDRS[i])
  {
    Wide64();
  }

  lemma BogonH()
    ensures forall i :: 20 <= i < 22 ==> BogonRanges()[i].Is(BOGON_CIDRS[i])
  {
    Wide96();
  }

  lemma BogonRangesAre()
    ensures AllAre(BogonRanges(), BOGON_CIDRS)
  {
    BogonA();
    BogonB();
    BogonC();
    BogonD();
    BogonE();
    BogonF();
    BogonG();
    BogonH();
  }

  predicate ScopeRangeA(ip: IP) {
    ip.V4? &&
    (|| 0x0a00_0000 <= ip.addr < 0x0b00_0000
     || 0xac10_0000 <= ip.addr < 0xac20_0000
     || 0xc0a8_0000 <= ip.addr < 0xc0a9_0000
     || 0x7f00_0000 <= ip.addr < 0x8000_0000
     || 0xa9fe_0000 <= ip.addr < 0xa9ff_0000)
  }

  lemma ScopeHasA(ip: IP)
    ensures AnyIn(ScopeRanges(), 0, 5, ip) <==> ScopeRangeA(ip)
  {
    var r := ScopeRanges();
    assert AnyIn(r, 0, 5, ip) <== r[0].Has(ip) || r[1].Has(ip) || r[2].Has(ip) || r[3].Has(ip) || r[4].Has(ip);
  }

  predicate ScopeRange(ip: IP) {
    ScopeRangeA(ip)
  }

  lemma InScopeIs(ip: IP)
    ensures InScope(ip) <==> ScopeRange(ip)
  {
    ScopeRangesAre();
    RangesAre(ScopeRanges(), IN_SCOPE_BLOCKS, ip);
    ScopeHasA(ip);
  }

  predicate SpecialRangeA(ip: IP) {
    ip.V4? &&
    (|| 0x0000_0000 <= ip.addr < 0x0100_0000
     || 0x6440_0000 <= ip.addr < 0x6480_0000
     || 0xc000_0000 <= ip.addr < 0xc000_0100
     || 0xc000_0200 <= ip.addr < 0xc000_0300
     || 0xc612_0000 <= ip.addr < 0xc614_0000)
  }

  lemma SpecialHasA(ip: IP)
    ensures AnyIn(SpecialRanges(), 0, 5, ip) <==> SpecialRangeA(ip)
  {
    var r := SpecialRanges();
    assert AnyIn(r, 0, 5, ip) <== r[0].Has(ip) || r[1].Has(ip) || r[2].Has(ip) || r[3].Has(ip) || r[4].Has(ip);
  }

  predicate SpecialRangeB(ip: IP) {
    ip.V4? &&
    (|| 0xc633_6400 <= ip.addr < 0xc633_6500
     || 0xcb00_7100 <= ip.addr < 0xcb00_7200
     || 0xe000_0000 <= ip.addr < 0xf000_0000
     || 0xf000_0000 <= ip.addr
     || ip.addr == 0xffff_ffff)
  }

  lemma SpecialHasB(ip: IP)
    ensures AnyIn(SpecialRanges(), 5, 10, ip) <==> SpecialRangeB(ip)
  {
    var r := SpecialRanges();
    assert AnyIn(r, 5, 10, ip) <== r[5].Has(ip) || r[6].Has(ip) || r[7].Has(ip) || r[8].Has(ip) || r[9].Has(ip);
  }

  predicate SpecialRangeC(ip: IP) {
    ip.V6? &&
    (|| ip.wide == 0
     || 0x0100_0000_00000000_00000000_00000000 <= ip.wide < 0x0100_0000_00000001_00000000_00000000
     || 0x2001_0db8_00000000_00000000_00000000 <= ip.wide < 0x2001_0db9_00000000_00000000_00000000
     || 0xfc00_0000_00000000_00000000_00000000 <= ip.wide < 0xfe00_0000_00000000_00000000_00000000
     || 0xfe80_0000_00000000_00000000_00000000 <= ip.wide < 0xfec0_0000_00000000_00000000_00000000
     || 0xff00_0000_00000000_00000000_00000000 <= ip.wide)
  }

  lemma SpecialHasC(ip: IP)
    ensures AnyIn(SpecialRanges(), 10, 16, ip) <==> SpecialRangeC(ip)
  {
    var r := SpecialRanges();
    assert AnyIn(r, 10, 16, ip) <== r[10].Has(ip) || r[11].Has(ip) || r[12].Has(ip);
    assert AnyIn(r, 10, 16, ip) <== r[13].Has(ip) || r[14].Has(ip) || r[15].Has(ip);
  }

  predicate SpecialRange(ip: IP) {
    SpecialRangeA(ip) || SpecialRangeB(ip) || SpecialRangeC(ip)
  }

  lemma SpecialIs(ip: IP)
    ensures AnyContains(SPECIAL_USE_CIDRS, ip) <==> SpecialRange(ip)
  {
    SpecialRangesAre();
    RangesAre(SpecialRanges(), SPECIAL_USE_CIDRS, ip);
    SpecialHasA(ip);
    SpecialHasB(ip);
    SpecialHasC(ip);
  }

  predicate BogonRangeA(ip: IP) {
    ip.V4? &&
    (|| 0x0000_0000 <= ip.addr < 0x0100_0000
     || 0x0a00_0000 <= ip.addr < 0x0b00_0000
     || 0x6440_0000 <= ip.addr < 0x6480_0000
     || 0x7f00_0000 <= ip.addr < 0x8000_0000
     || 0xa9fe_0000 <= ip.addr < 0xa9ff_0000)
  }

  lemma BogonHasA(ip: IP)
    ensures AnyIn(BogonRanges(), 0, 5, ip) <==> BogonRangeA(ip)
  {
    var r := BogonRanges();
    assert AnyIn(r, 0, 5, ip) <== r[0].Has(ip) || r[1].Has(ip) || r[2].Has(ip) || r[3].Has(ip) || r[4].Has(ip);
  }

  predicate BogonRangeB(ip: IP) {
    ip.V4? &&
    (|| 0xac10_0000 <= ip.addr < 0xac20_0000
     || 0xc000_0000 <= ip.addr < 0xc000_0100
     || 0xc000_0200 <= ip.addr < 0xc000_0300
     || 0xc0a8_0000 <= ip.addr < 0xc0a9_0000
     || 0xc612_0000 <= ip.addr < 0xc614_0000)
  }

  lemma BogonHasB(ip: IP)
    ensures AnyIn(BogonRanges(), 5, 10, ip) <==> BogonRangeB(ip)
  {
    var r := BogonRanges();
    assert AnyIn(r, 5, 10, ip) <== r[5].Has(ip) || r[6].Has(ip) || r[7].Has(ip) || r[8].Has(ip) || r[9].Has(ip);
  }

  predicate BogonRangeC(ip: IP) {
    ip.V4? &&
    (|| 0xc633_6400 <= ip.addr < 0xc633_6500
     || 0xcb00_7100 <= ip.addr < 0xcb00_7200
     || 0xe000_0000 <= ip.addr < 0xf000_0000
     || 0xf000_0000 <= ip.addr
     || ip.addr == 0xffff_ffff)
  }

  lemma BogonHasC(ip: IP)
    ensures AnyIn(BogonRanges(), 10, 15, ip) <==> BogonRangeC(ip)
  {
    var r := BogonRanges();
    assert AnyIn(r, 10, 15, ip) <== r[10].Has(ip) || r[11].Has(ip) || r[12].Has(ip) || r[13].Has(ip) || r[14].Has(ip);
  }

  predicate BogonRangeD(ip: IP) {
    ip.V6? &&
    (|| ip.wide == 1
     || 0xfc00_0000_00000000_00000000_00000000 <= ip.wide < 0xfe00_0000_00000000_00000000_00000000
     || 0xfe80_0000_00000000_00000000_00000000 <= ip.wide < 0xfec0_0000_00000000_00000000_00000000
     || 0xff00_0000_00000000_00000000_00000000 <= ip.wide
     || 0x0100_0000_00000000_00000000_00000000 <= ip.wide < 0x0100_0000_00000001_00000000_00000000
     || 0x2001_0db8_00000000_00000000_00000000 <= ip.wide < 0x2001_0db9_00000000_00000000_00000000
     || ip.wide == 0)
  }

  lemma BogonHasD(ip: IP)
    ensures AnyIn(BogonRanges(), 15, 22, ip) <==> BogonRangeD(ip)
  {
    var r := BogonRanges();
    assert AnyIn(r, 15, 22, ip) <== r[15].Has(ip) || r[16].Has(ip) || r[17].Has(ip) || r[18].Has(ip);
    assert AnyIn(r, 15, 22, ip) <== r[19].Has(ip) || r[20].Has(ip) || r[21].Has(ip);
  }

  predicate BogonRange(ip: IP) {
    BogonRangeA(ip) || BogonRangeB(ip) || BogonRangeC(ip) || BogonRangeD(ip)
  }

  lemma BogonIs(ip: IP)
    ensures IsBogonIP(ip) <==> BogonRange(ip)
  {
    BogonRangesAre();
    RangesAre(BogonRanges(), BOGON_CIDRS, ip);
    BogonHasA(ip);
    BogonHasB(ip);
    BogonHasC(ip);
    BogonHasD(ip);
  }

  // ----- the byte predicates as ranges -----

  lemma Bytes4(ip: IP) returns (rest: nat)
    requires ip.V4?
    ensures ip.addr == Byte0(ip) * 0x100_0000 + Byte1(ip) * 0x1_0000 + rest && rest < 0x1_0000
  {
    rest := ip.addr % 0x1_0000;
  }

  lemma Bytes6(ip: IP) returns (rest: nat)
    requires ip.V6?
    ensures ip.wide == Byte0(ip) * 0x100_0000_00000000_00000000_00000000
                     + Byte1(ip) * 0x1_0000_00000000_00000000_00000000 + rest
    ensures rest < 0x1_0000_00000000_00000000_00000000
  {
    var q := ip.wide / 0x1_0000_00000000_00000000_00000000;
    rest := ip.wide % 0x1_0000_00000000_00000000_00000000;
    assert q / 0x100 == Byte0(ip);
  }

  predicate PrivateRange(ip: IP) {
    if ip.V4? then
      || 0x0a00_0000 <= ip.addr < 0x0b00_0000
      || 0xac10_0000 <= ip.addr < 0xac20_0000
      || 0xc0a8_0000 <= ip.addr < 0xc0a9_0000
    else
      0xfc00_0000_00000000_00000000_00000000 <= ip.wide < 0xfe00_0000_00000000_00000000_00000000
  }

  predicate MulticastRange(ip: IP) {
    if ip.V4? then 0xe000_0000 <= ip.addr < 0xf000_0000 else 0xff00_0000_00000000_00000000_00000000 <= ip.wide
  }

  predicate LoopbackRange(ip: IP) {
    if ip.V4? then 0x7f00_0000 <= ip.addr < 0x8000_0000 else ip.wide == 1
  }

  predicate LinkLocalRange(ip: IP) {
    if ip.V4? then 0xa9fe_0000 <= ip.addr < 0xa9ff_0000
    else 0xfe80_0000_00000000_00000000_00000000 <= ip.wide < 0xfec0_0000_00000000_00000000_00000000
  }

  lemma Ranges4(ip: IP, b0: Byte, b1: Byte, rest: nat)
    requires ip.V4? && ip.addr == b0 * 0x100_0000 + b1 * 0x1_0000 + rest && rest < 0x1_0000
    ensures PrivateRange(ip) <==> b0 == 10 || (b0 == 172 && 0x10 <= b1 < 0x20) || (b0 == 192 && b1 == 168)
    ensures MulticastRange(ip) <==> 0xe0 <= b0 < 0xf0
    ensures LoopbackRange(ip) <==> b0 == 127
    ensures LinkLocalRange(ip) <==> b0 == 169 && b1 == 254
  {
  }

  lemma Ranges6(ip: IP, b0: Byte, b1: Byte, rest: nat)
    requires ip.V6?
    requires ip.wide == b0 * 0x100_0000_00000000_00000000_00000000 + b1 * 0x1_0000_00000000_00000000_00000000 + rest
    requires rest < 0x1_0000_00000000_00000000_00000000
    ensures PrivateRange(ip) <==> 0xfc <= b0 < 0xfe
    ensures MulticastRange(ip) <==> b0 == 0xff
    ensures LinkLocalRange(ip) <==> b0 == 0xfe && 0x80 <= b1 < 0xc0
  {
  }

  /** Each predicate of net.IP is the ranges its standard names: RFC 1918 section 3 for IsPrivate. */
  lemma PredicatesAreRanges(ip: IP)
    ensures IsPrivate(ip) <==> PrivateRange(ip)
    ensures IsMulticast(ip) <==> MulticastRange(ip)
    ensures IsLoopback(ip) <==> LoopbackRange(ip)
    ensures IsLinkLocalUnicast(ip) <==> LinkLocalRange(ip)
  {
    if ip.V4? {
      var rest := Bytes4(ip);
      Ranges4(ip, Byte0(ip), Byte1(ip), rest);
    } else {
      var rest := Bytes6(ip);
      Ranges6(ip, Byte0(ip), Byte1(ip), rest);
    }
  }

  // ----- how the policies relate -----

  /** The two separately written lists agree: a public address is one that is not bogus, and the other way round. */
  lemma PublicIsNotBogon(ip: IP)
    ensures IsPublicInternetIP(ip) <==> !IsBogonIP(ip)
  {
    SpecialIs(ip);
    BogonIs(ip);
    PredicatesAreRanges(ip);
  }

  /** What the lab may scan, any scan may; and nothing a scan may touch is public. */
  lemma PoliciesNest(ip: IP)
    ensures IsPrivateLabIP(ip) ==> InScope(ip)
    ensures InScope(ip) ==> IsBogonIP(ip) && !IsPublicInternetIP(ip)
  {
    InScopeIs(ip);
    BogonIs(ip);
    PredicatesAreRanges(ip);
    PublicIsNotBogon(ip);
  }

  /** The scanner's scope is the IPv4 private, loopback and link-local addresses. */
  lemma ScopeMeans(ip: IP)
    ensures InScope(ip) <==> ip.V4? && (IsPrivate(ip) || IsLoopback(ip) || IsLinkLocalUnicast(ip))
    ensures IsPrivateLabIP(ip) <==> ip.V4? && IsPrivate(ip)
  {
    InScopeIs(ip);
    PredicatesAreRanges(ip);
  }

  /** answer is None when the resolver fails. */
  function ResolvePublicTarget(answer: Option<seq<IP>>): Option<seq<IP>> {
    if answer == None || |answer.value| == 0 then None
    else if exists i :: 0 <= i < |answer.value| && !IsPublicInternetIP(answer.value[i]) then None
    else answer
  }

  /** A host is usable exactly when it resolves, to something, and to nothing bogus; then all answers are delivered. */
  lemma ResolvesIffNoBogon(answer: Option<seq<IP>>)
    ensures ResolvePublicTarget(answer).Some? <==>
            answer.Some? && answer.value != [] && forall ip :: ip in answer.value ==> !IsBogonIP(ip)
    ensures ResolvePublicTarget(answer).Some? ==> ResolvePublicTarget(answer) == answer
  {
    if answer.Some? {
      forall ip | ip in answer.value ensures IsPublicInternetIP(ip) <==> !IsBogonIP(ip) { PublicIsNotBogon(ip); }
    }
  }
}
