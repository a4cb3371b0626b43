/** What the scanner and its lab must accept, in terms of the addresses alone. */
module ScanAccepts {
  import opened Addresses
  import opened Classifiers
  import opened ScanTargets
  import opened ScanLab

  /** 10.0.0.0 to 10.255.255.255, 172.16.0.0 to 172.31.255.255 and 192.168.0.0 to 192.168.255.255. */
  predicate IsLan(ip: IP) {
    && ip.V4?
    && (0x0a00_0000 <= ip.addr <= 0x0aff_ffff || 0xac10_0000 <= ip.addr <= 0xac1f_ffff
        || 0xc0a8_0000 <= ip.addr <= 0xc0a8_ffff)
  }

  /** A LAN address, or 127.0.0.0 to 127.255.255.255, or 169.254.0.0 to 169.254.255.255. */
  predicate IsLocal(ip: IP) {
    IsLan(ip) || (ip.V4? && (0x7f00_0000 <= ip.addr <= 0x7fff_ffff || 0xa9fe_0000 <= ip.addr <= 0xa9fe_ffff))
  }

  lemma LocalIsScope(ip: IP)
    ensures InScope(ip) <==> IsLocal(ip)
    ensures IsPrivateLabIP(ip) <==> IsLan(ip)
  {
    ScopeMeans(ip);
    PredicatesAreRanges(ip);
  }

  /** Every address of the block has the property. */
  ghost predicate AllLocal(c: Cidr) {
    forall ip :: c.Contains(ip) ==> IsLocal(ip)
  }

  ghost predicate AllLan(c: Cidr) {
    forall ip :: c.Contains(ip) ==> IsLan(ip)
  }

  lemma OwnAddress(c: Cidr)
    ensures Network(c).Contains(Network(c).ip)
  {
    NetworkIsNetwork(c);
  }

  lemma NetworkLocalIff(c: Cidr)
    requires c.ones >= 24
    ensures InScope(Network(c).ip) <==> AllLocal(c)
  {
    var n := Network(c);
    NetworkIsNetwork(c);
    OwnAddress(c);
    LocalIsScope(n.ip);
    if InScope(n.ip) {
      forall ip | c.Contains(ip) ensures IsLocal(ip) {
        NetworkInScope(n, ip);
        LocalIsScope(ip);
      }
    } else {
      assert c.Contains(n.ip);
    }
  }

  /**
   A subnet is accepted exactly if it is a /24 or smaller and all its addresses are local, a single address
   exactly if it is local; and each refusal has its own reason, the size before the scope.
  */
  lemma ResolvesIff(input: Input)
    ensures ResolveTargets(input).Accepted? <==>
            match input
            case Subnet(c) => c.ones >= 24 && AllLocal(c)
            case Single(ip) => IsLocal(ip)
            case Malformed => false
    ensures ResolveTargets(input) == Refused(InvalidInput) <==> input.Malformed?
    ensures ResolveTargets(input) == Refused(SubnetTooLarge) <==> input.Subnet? && input.cidr.ones < 24
    ensures input.Single? && IsLocal(input.ip) ==> ResolveTargets(input).ips == [input.ip]
  {
    match input {
      case Subnet(c) =>
        NetworkIsNetwork(c);
        if c.ones >= 24 { NetworkLocalIff(c); }
      case Single(ip) => LocalIsScope(ip);
      case Malformed =>
    }
  }

  /** Some block of the list holds the address. */
  predicate Allowed(ip: IP, allowed: seq<Cidr>) {
    exists k :: 0 <= k < |allowed| && allowed[k].Contains(ip)
  }

  lemma AllLanIff(c: Cidr)
    requires c.ip.V4? && c.ones >= 24
    ensures IsNetwork(Network(c))
    ensures AllLan(c) <==> IsPrivateLabIP(Network(c).ip) && IsPrivateLabIP(LastIP(Network(c)))
  {
    var n := Network(c);
    NetworkIsNetwork(c);
    LastIsBroadcast(n);
    NetworkRange(n, n.ip.addr);
    NetworkRange(n, Broadcast(n));
    LocalIsScope(n.ip);
    LocalIsScope(LastIP(n));
    if AllLan(c) {
      assert c.Contains(n.ip) && c.Contains(LastIP(n));
    }
    if IsPrivateLabIP(n.ip) && IsPrivateLabIP(LastIP(n)) {
      forall ip | c.Contains(ip) ensures IsLan(ip) {
        assert n.Contains(ip);
        NetworkRange(n, ip.addr);
        PrivateNetwork(n, ip.addr);
        LocalIsScope(ip);
      }
    }
  }

  /**
   The lab accepts a subnet exactly if it is an IPv4 /24 or smaller, all its addresses are LAN addresses, and its
   first and its last address are in the allowlist; a single address exactly if it is a LAN address in it.
  */
  lemma LabAcceptsIff(input: Input, allowed: seq<Cidr>)
    ensures ValidateControlledTarget(input, allowed) <==>
            match input
            case Subnet(c) =>
              c.ip.V4? && c.ones >= 24 && AllLan(c)
              && (forall ip :: c.Contains(ip) && IsEnd(c, ip) ==> Allowed(ip, allowed))
            case Single(ip) => IsLan(ip) && Allowed(ip, allowed)
            case Malformed => false
  {
    match input {
      case Subnet(c) =>
        NetworkIsNetwork(c);
        if c.ip.V4? && c.ones >= 24 {
          AllLanIff(c);
          EndsAre(c);
        }
      case Single(ip) => LocalIsScope(ip);
      case Malformed =>
    }
  }

  /** No address of the block is lower, or none is higher. */
  ghost predicate IsEnd(c: Cidr, ip: IP)
    requires ip.V4?
  {
    || (forall other :: c.Contains(other) && other.V4? ==> ip.addr <= other.addr)
    || (forall other :: c.Contains(other) && other.V4? ==> other.addr <= ip.addr)
  }

  lemma EndsAre(c: Cidr)
    requires c.ip.V4?
    ensures IsNetwork(Network(c))
    ensures forall ip :: c.Contains(ip) ==>
              ip.V4? && (IsEnd(c, ip) <==> ip == Network(c).ip || ip == LastIP(Network(c)))
    ensures c.Contains(Network(c).ip) && c.Contains(LastIP(Network(c)))
  {
    var n := Network(c);
    NetworkIsNetwork(c);
    LastIsBroadcast(n);
    NetworkRange(n, n.ip.addr);
    NetworkRange(n, Broadcast(n));
    forall ip | c.Contains(ip)
      ensures ip.V4? && (IsEnd(c, ip) <==> ip == n.ip || ip == LastIP(n))
    {
      assert n.Contains(ip);
      NetworkRange(n, ip.addr);
      forall other | c.Contains(other) && other.V4? ensures n.ip.addr <= other.addr <= Broadcast(n) {
        assert n.Contains(other);
        NetworkRange(n, other.addr);
      }
      assert c.Contains(n.ip) && c.Contains(V4(Broadcast(n)));
    }
  }
}
