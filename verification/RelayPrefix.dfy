/**
 When the viewer receives a prefix of what the agent sent. Forward drops a frame that does not fit and goes
 on, so a smaller frame after it can still be kept.
*/
module RelayPrefix {
  import opened RelaySpec
  import opened RelayProtocol
  import opened RelayInvariant
  import opened RelayTheorems

  /** The first n frames fit both caps, and none of the later ones fits after them. */
  predicate StopsAt(p: seq<Frame>, n: nat) {
    && n <= |p| && n <= MAX_BUFFER_ITEMS && Bytes(p[..n]) <= MAX_BUFFER_BYTES
    && forall j :: n <= j < |p| ==> !Admits(n, Bytes(p[..n]), |p[j].data|)
  }

  predicate Stops(p: seq<Frame>) {
    exists n :: 0 <= n <= |p| && StopsAt(p, n)
  }

  lemma {:induction false} StopKeeps(p: seq<Frame>, n: nat)
    requires StopsAt(p, n)
    ensures Keep(p) == p[..n]
  {
    if |p| == n {
      KeepsAllIffFits(p);
      assert p[..n] == p;
    } else {
      var q := p[..|p| - 1];
      assert q[..n] == p[..n];
      StopKeeps(q, n);
    }
  }

  /** One more frame that does not fit. */
  lemma StopsOn(q: seq<Frame>, n: nat, f: Frame)
    requires StopsAt(q, n) && !Admits(n, Bytes(q[..n]), |f.data|)
    ensures StopsAt(q + [f], n)
  {
    assert (q + [f])[..n] == q[..n];
  }

  /** One more frame that fits: the kept frames stay a prefix only if nothing was dropped before. */
  lemma StopsNotBefore(q: seq<Frame>, n: nat, f: Frame)
    requires StopsAt(q, n) && Admits(n, Bytes(q[..n]), |f.data|) && (q + [f])[n] == f
    ensures n == |q|
  {
  }

  lemma KeepNext(q: seq<Frame>, f: Frame)
    ensures Keep(q + [f]) == if Admits(|Keep(q)|, Bytes(Keep(q)), |f.data|) then Keep(q) + [f] else Keep(q)
    ensures |Keep(q)| <= |q|
  {
    assert (q + [f])[..|q|] == q;
    KeepsAllIffFits(q);
  }

  lemma AllStops(p: seq<Frame>)
    requires Keep(p) == p
    ensures StopsAt(p, |p|)
  {
    assert p[..|p|] == p;
    KeepsAllIffFits(p);
  }

  lemma PrefixOfLonger(k: seq<Frame>, q: seq<Frame>, f: Frame)
    requires |k| <= |q| && k == (q + [f])[..|k|]
    ensures k == q[..|k|]
  {
  }

  lemma PrefixBefore(q: seq<Frame>, f: Frame, n: nat)
    requires n <= |q| + 1 && Keep(q + [f]) == (q + [f])[..n]
    ensures |Keep(q)| <= |q| && Keep(q) == q[..|Keep(q)|]
  {
    KeepNext(q, f);
    assert Keep(q) == Keep(q + [f])[..|Keep(q)|];
    PrefixOfLonger(Keep(q), q, f);
  }

  lemma PrefixAfter(q: seq<Frame>, f: Frame, n: nat)
    requires n <= |q| + 1 && Keep(q + [f]) == (q + [f])[..n]
    requires StopsAt(q, |Keep(q)|) && Keep(q) == q[..|Keep(q)|]
    ensures StopsAt(q + [f], n)
  {
    var k := Keep(q);
    KeepNext(q, f);
    if !Admits(|k|, Bytes(k), |f.data|) {
      StopsOn(q, |k|, f);
    } else {
      assert (q + [f])[|k|] == (k + [f])[|k|];
      StopsNotBefore(q, |k|, f);
      assert (q + [f])[..n] == q + [f];
      AllStops(q + [f]);
    }
  }

  lemma {:induction false} PrefixStops(p: seq<Frame>, n: nat)
    requires n <= |p| && Keep(p) == p[..n]
    ensures StopsAt(p, n)
  {
    if p != [] {
      var q, f := p[..|p| - 1], p[|p| - 1];
      assert p == q + [f];
      PrefixBefore(q, f, n);
      PrefixStops(q, |Keep(q)|);
      PrefixAfter(q, f, n);
    }
  }

  /** The kept frames are a prefix exactly if from the first frame that does not fit on no frame fits. */
  lemma KeepsPrefixIff(p: seq<Frame>)
    ensures Keep(p) <= p <==> Stops(p)
  {
    if Keep(p) <= p { PrefixStops(p, |Keep(p)|); }
    if n :| 0 <= n <= |p| && StopsAt(p, n) { StopKeeps(p, n); }
  }

  lemma KeptAfterDrop(q: seq<Frame>, f: Frame)
    requires |Keep(q)| < |q| && Admits(|Keep(q)|, Bytes(Keep(q)), |f.data|)
    ensures Keep(q + [f]) != (q + [f])[..|Keep(q)| + 1]
  {
    var k, r := Keep(q), q + [f];
    KeepNext(q, f);
    if k + [f] == r[..|k| + 1] {
      assert (k + [f])[|k|] == r[|k|];
      assert k == (k + [f])[..|k|] == r[..|k|];
      PrefixOfLonger(k, q, f);
      PrefixStops(q, |k|);
      StopsNotBefore(q, |k|, f);
    }
  }

  /** After a frame that is dropped, one that still fits is kept, and then the kept frames are no prefix. */
  lemma DropsLargeKeepsSmall(p: seq<Frame>, large: Frame, small: Frame)
    requires !Admits(|Keep(p)|, Bytes(Keep(p)), |large.data|) && Admits(|Keep(p)|, Bytes(Keep(p)), |small.data|)
    ensures Keep(p + [large] + [small]) == Keep(p) + [small]
    ensures !(Keep(p + [large] + [small]) <= p + [large] + [small])
  {
    KeepNext(p, large);
    KeepNext(p + [large], small);
    KeptAfterDrop(p + [large], small);
  }

  /** A frame of zeros. */
  function Blank(pos: nat, size: nat): (f: Frame)
    ensures |f.data| == size && f.pos == pos
  {
    Frame(pos, seq(size, i => 0))
  }

  lemma {:induction false} BytesOfEqual(p: seq<Frame>, size: nat)
    requires forall i :: 0 <= i < |p| ==> |p[i].data| == size
    ensures Bytes(p) == |p| * size
  {
    if p != [] { BytesOfEqual(p[..|p| - 1], size); }
  }

  /** Frames that arrive in this order while no viewer is connected, all within the message limit. */
  predicate IsTraffic(p: seq<Frame>) {
    forall i :: 0 <= i < |p| ==> p[i].pos == i && |p[i].data| <= 65_536
  }

  /** Sixteen frames of 65000 bytes fit, a seventeenth does not, one byte after it does. */
  lemma SkipsSeventeenth() returns (p: seq<Frame>)
    ensures IsTraffic(p) && |p| == 18
    ensures Keep(p) == p[..16] + [p[17]]
    ensures !(Keep(p) <= p) && !Stops(p)
  {
    var first, large, small := seq(16, i requires 0 <= i < 16 => Blank(i, 65_000)), Blank(16, 65_000), Blank(17, 1);
    BytesOfEqual(first, 65_000);
    KeepsAllIffFits(first);
    DropsLargeKeepsSmall(first, large, small);
    p := first + [large] + [small];
    KeepsPrefixIff(p);
  }

  lemma PrefixOfParts(k: seq<Frame>, early: seq<Frame>, late: seq<Frame>)
    requires |k| <= |early|
    requires forall i, j :: 0 <= i < j < |early + late| ==> (early + late)[i] != (early + late)[j]
    ensures k + late <= early + late <==> k == early || (late == [] && k <= early)
  {
    var sent := early + late;
    if k + late <= sent {
      assert k == sent[..|k|] == early[..|k|];
      if late != [] {
        assert sent[|k|] == (k + late)[|k|] == late[0] == sent[|early|];
        assert |k| == |early|;
      }
      if |k| == |early| { assert early[..|k|] == early; }
    }
    if late == [] && k <= early { assert k + late == k && sent == early; }
  }

  /**
   With the agent between frames and the flush over, on a session that is not closed and a socket that has
   not failed: what the viewer has received is a prefix of what the agent sent if and only if the traffic
   before the viewer attached fits the buffer or, with none after, stops at its first frame that does not fit.
  */
  lemma DeliversPrefixIff(now: int, es: seq<Event>, s: State, x: Sid, a: Tid, v: Tid)
    requires Runs(Init(now), es, s)
    requires IsHandler(s, a, Agent, x) && IsHandler(s, v, Viewer, x)
    requires s.threads[a].phase.Connected? && s.threads[v].phase.Connected?
    requires x < |s.sess| && !s.sess[x].closed && !s.threads[v].broken
    requires s.threads[a].pc.Reading? && s.threads[v].pc.Reading?
    ensures s.sess[x].attachedAt.Some? && s.sess[x].attachedAt.value <= |Sent(s, a)|
    ensures var early, late := Sent(s, a)[..s.sess[x].attachedAt.value], Sent(s, a)[s.sess[x].attachedAt.value..];
            Written(s, v) <= Sent(s, a) <==>
            (|early| <= MAX_BUFFER_ITEMS && Bytes(early) <= MAX_BUFFER_BYTES) || (late == [] && Stops(early))
  {
    ExactDelivery(now, es, s, x, a, v);
    var sent, k := Sent(s, a), s.sess[x].attachedAt.value;
    var early, late := sent[..k], sent[k..];
    assert sent == early + late && sent[k..Offered(s.threads[a])] == late;
    assert Written(s, v) == Keep(early) + late;
    KeepsAllIffFits(early);
    KeepsPrefixIff(early);
    Reachable(now, es, s);
    assert ThreadOk(s, a);
    PrefixOfParts(Keep(early), early, late);
  }
}
