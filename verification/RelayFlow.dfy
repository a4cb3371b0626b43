/** How each step of the relay protocol treats the frames of one session. */
module RelayFlow {
  import opened Options
  import opened RelaySpec
  import opened RelayProtocol
  import opened RelayInvariant

  /** FlowLink looks at a's place in the program only through Offered and InFlight, at v's only through Rest. */
  lemma FlowMoves(c: Cell, a: Thread, v: Thread, c': Cell, a': Thread, v': Thread)
    requires FlowLink(c, a, v)
    requires (c'.s.buffer, c'.s.bufBytes, c'.attachedAt) == (c.s.buffer, c.s.bufBytes, c.attachedAt)
    requires (c'.s.browser.Some? ==> c.s.browser.Some?) && (c.closed ==> c'.closed)
    requires a'.sent == a.sent && Offered(a') == Offered(a) && InFlight(a') == InFlight(a)
    requires v'.out == v.out && Rest(v') == Rest(v) && (v.broken ==> v'.broken)
    requires v'.pc.Flushing? ==> v.pc.Flushing?
    ensures FlowLink(c', a', v')
  {
  }

  /** A frame that has been read but not offered is not in the pipe yet. */
  lemma FlowReads(c: Cell, a: Thread, v: Thread, a': Thread, f: Frame)
    requires FlowLink(c, a, v)
    requires a.pc.Reading? && a'.sent == a.sent + [f] && a'.pc == WaitMu(OfferOp(f))
    ensures FlowLink(c, a', v)
  {
    assert a'.sent[..Offered(a')] == a.sent[..Offered(a)];
  }

  lemma ExpectedGrows(p: seq<Frame>, f: Frame, at: Option<nat>)
    requires at.Some? ==> at.value <= |p|
    ensures Expected(p + [f], at) ==
            match at
            case Some(_) => Expected(p, at) + [f]
            case None => if Admits(|Keep(p)|, Bytes(Keep(p)), |f.data|) then Keep(p) + [f] else Keep(p)
  {
    assert (p + [f])[..|p|] == p;
    if at.Some? {
      var k := at.value;
      assert (p + [f])[..k] == p[..k] && (p + [f])[k..] == p[k..] + [f];
    }
  }

  /** a offers its latest frame f to Forward: what FlowLink sees of a before and after. */
  predicate Offers(a: Thread, a': Thread, f: Frame) {
    && a.sent == a'.sent && |a.sent| > 0 && f == a.sent[|a.sent| - 1] && f.pos == |a.sent| - 1
    && Offered(a) == |a.sent| - 1 && Offered(a') == |a.sent| && InFlight(a) == []
  }

  lemma FlowOffersLive(c: Cell, a: Thread, v: Thread, c': Cell, a': Thread, f: Frame)
    requires FlowLink(c, a, v) && c.attachedAt.Some? && c.s.browser.Some?
    requires (c'.s.buffer, c'.s.bufBytes) == (c.s.buffer, c.s.bufBytes)
    requires (c'.attachedAt, c'.closed) == (c.attachedAt, c.closed)
    requires Offers(a, a', f) && InFlight(a') == [f]
    ensures FlowLink(c', a', v)
  {
    var p := a.sent[..Offered(a)];
    assert a.sent[..Offered(a')] == p + [f];
    ExpectedGrows(p, f, c.attachedAt);
    DrawnGrows(Pipe(c, a, v), a, a', f);
    assert Pipe(c', a', v) == Pipe(c, a, v) + [f];
  }

  lemma PipeKeeps(c: Cell, a: Thread, v: Thread, c': Cell, a': Thread, f: Frame)
    requires c'.s.buffer == c.s.buffer + [f] && InFlight(a) == [] && InFlight(a') == []
    ensures Pipe(c', a', v) == Pipe(c, a, v) + [f]
  {
  }

  lemma BytesGrow(buffer: seq<Frame>, f: Frame)
    ensures Bytes(buffer + [f]) == Bytes(buffer) + |f.data|
  {
    assert (buffer + [f])[..|buffer|] == buffer;
  }

  lemma DrawnGrows(p: seq<Frame>, a: Thread, a': Thread, f: Frame)
    requires DrawnFrom(p, a) && Offers(a, a', f)
    ensures DrawnFrom(p + [f], a')
  {
  }

  /** While nobody is attached the buffer is what Keep keeps, and grows as it does. */
  lemma ExpectedKept(kept: seq<Frame>, bytes: nat, a: Thread, a': Thread, f: Frame)
    requires kept == Expected(a.sent[..Offered(a)], None) && bytes == Bytes(kept)
    requires Admits(|kept|, bytes, |f.data|) && Offers(a, a', f)
    ensures kept + [f] == Expected(a'.sent[..Offered(a')], None)
  {
    var p := a.sent[..Offered(a)];
    assert a.sent[..Offered(a')] == p + [f];
    ExpectedGrows(p, f, None);
  }

  lemma FlowOffersKept(c: Cell, a: Thread, v: Thread, c': Cell, a': Thread, f: Frame)
    requires FlowLink(c, a, v) && (!c.closed ==> c.attachedAt.None?)
    requires Admits(|c.s.buffer|, c.s.bufBytes, |f.data|) && c'.s.browser.None?
    requires c'.s.buffer == c.s.buffer + [f] && c'.s.bufBytes == c.s.bufBytes + |f.data|
    requires (c'.attachedAt, c'.closed) == (c.attachedAt, c.closed)
    requires Offers(a, a', f) && InFlight(a') == []
    ensures FlowLink(c', a', v)
  {
    BytesGrow(c.s.buffer, f);
    PipeKeeps(c, a, v, c', a', f);
    DrawnGrows(Pipe(c, a, v), a, a', f);
    if !c.closed && !v.broken {
      assert Pipe(c, a, v) == c.s.buffer;
      ExpectedKept(c.s.buffer, c.s.bufBytes, a, a', f);
    }
  }

  lemma DrawnStays(p: seq<Frame>, a: Thread, a': Thread, f: Frame)
    requires DrawnFrom(p, a) && Offers(a, a', f)
    ensures DrawnFrom(p, a')
  {
  }

  lemma ExpectedDropped(kept: seq<Frame>, bytes: nat, a: Thread, a': Thread, f: Frame)
    requires kept == Expected(a.sent[..Offered(a)], None) && bytes == Bytes(kept)
    requires !Admits(|kept|, bytes, |f.data|) && Offers(a, a', f)
    ensures kept == Expected(a'.sent[..Offered(a')], None)
  {
    var p := a.sent[..Offered(a)];
    assert a.sent[..Offered(a')] == p + [f];
    ExpectedGrows(p, f, None);
  }

  lemma FlowOffersDropped(c: Cell, a: Thread, v: Thread, c': Cell, a': Thread, f: Frame)
    requires FlowLink(c, a, v) && (!c.closed ==> c.attachedAt.None?)
    requires !Admits(|c.s.buffer|, c.s.bufBytes, |f.data|) && c'.s.browser.None?
    requires (c'.s.buffer, c'.s.bufBytes) == (c.s.buffer, c.s.bufBytes)
    requires (c'.attachedAt, c'.closed) == (c.attachedAt, c.closed)
    requires Offers(a, a', f) && InFlight(a') == []
    ensures FlowLink(c', a', v)
  {
    assert Pipe(c', a', v) == Pipe(c, a, v);
    DrawnStays(Pipe(c, a, v), a, a', f);
    if !c.closed && !v.broken {
      assert Pipe(c, a, v) == c.s.buffer;
      ExpectedDropped(c.s.buffer, c.s.bufBytes, a, a', f);
    }
  }

  lemma ExpectedAtAttach(p: seq<Frame>)
    ensures Expected(p, Some(|p|)) == Expected(p, None)
  {
    assert p[..|p|] == p && p[|p|..] == [];
  }

  /** The buffer moves into the flush as it is. */
  lemma PipeAtAttach(c: Cell, a: Thread, v: Thread, c': Cell, v': Thread)
    requires Rest(v) == [] && v.out == [] && InFlight(a) == []
    requires c'.s.buffer == [] && v'.out == v.out && v'.pc == Flushing(c.s.buffer)
    ensures Pipe(c', a, v') == Pipe(c, a, v)
  {
  }

  lemma FlowAttaches(c: Cell, a: Thread, v: Thread, c': Cell, v': Thread)
    requires FlowLink(c, a, v) && c.attachedAt.None?
    requires c'.s.buffer == [] && c'.s.bufBytes == 0 && c'.attachedAt == Some(Offered(a)) && c'.closed == c.closed
    requires v'.out == v.out && v'.pc == Flushing(c.s.buffer) && (v.broken ==> v'.broken)
    ensures FlowLink(c', a, v')
  {
    PipeAtAttach(c, a, v, c', v');
    ExpectedAtAttach(a.sent[..Offered(a)]);
  }

  lemma FlowCloses(c: Cell, a: Thread, v: Thread, c': Cell, a': Thread, v': Thread)
    requires FlowLink(c, a, v)
    requires c' == c.(s := c.s.Close(), closed := true, mu := None)
    requires a'.sent == a.sent && Offered(a') == Offered(a) && InFlight(a') == InFlight(a)
    requires v'.out == v.out && Rest(v') == Rest(v) && (v'.pc.Flushing? ==> v.pc.Flushing?)
    ensures FlowLink(c', a', v')
  {
    assert Pipe(c', a', v') == Frames(v.out) + Rest(v) + InFlight(a);
    Skips(Frames(v.out) + Rest(v), c.s.buffer, InFlight(a), a);
  }

  /** Losing a middle part of the pipe leaves the rest in order. */
  lemma Skips(p: seq<Frame>, lost: seq<Frame>, q: seq<Frame>, a: Thread)
    requires DrawnFrom(p + lost + q, a)
    ensures DrawnFrom(p + q, a)
  {
    var whole := p + lost + q;
    forall i | 0 <= i < |p + q|
      ensures (p + q)[i] == whole[if i < |p| then i else i + |lost|]
    {
    }
  }

  lemma FlowSends(c: Cell, a: Thread, v: Thread, a': Thread, v': Thread, ok: bool)
    requires FlowLink(c, a, v)
    requires a.pc.InSend? && !v.pc.Flushing?
    requires a'.sent == a.sent && a'.pc == WaitMu(TouchOp) && Offered(a') == Offered(a)
    requires v' == Write(v, Wire(a.pc.frame, true), ok)
    ensures FlowLink(c, a', v')
  {
    var f := a.pc.frame;
    var before, after := Pipe(c, a, v), Pipe(c, a', v');
    if ok && !v.broken {
      assert Frames(v'.out) == Frames(v.out) + [f];
      assert after == before;
    } else {
      assert before == after + [f];
      assert after + [f] + [] == before && after + [] == after;
      Skips(after, [f], [], a);
      assert DrawnFrom(after, a');
    }
  }

  lemma FrameFlushed(out: seq<Wire>, rest: seq<Frame>)
    requires rest != []
    ensures Frames(out + [Wire(rest[0], false)]) + rest[1..] == Frames(out) + rest
  {
    assert Frames(out + [Wire(rest[0], false)]) == Frames(out) + [rest[0]];
  }

  lemma FlowFlushes(c: Cell, a: Thread, v: Thread, v': Thread, ok: bool)
    requires FlowLink(c, a, v)
    requires v.pc.Flushing? && v.pc.rest != []
    requires var w := Write(v, Wire(v.pc.rest[0], false), ok);
             v' == w.(pc := Flushing(if w.broken then [] else v.pc.rest[1..]))
    ensures FlowLink(c, a, v')
  {
    var rest := v.pc.rest;
    var tail := c.s.buffer + InFlight(a);
    if ok && !v.broken {
      FrameFlushed(v.out, rest);
      assert Pipe(c, a, v') == Pipe(c, a, v);
    } else {
      assert Pipe(c, a, v) == Frames(v.out) + rest + tail;
      assert Pipe(c, a, v') == Frames(v.out) + tail;
      Skips(Frames(v.out), rest, tail, a);
    }
  }
}
