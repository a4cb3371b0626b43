/** The invariant of the relay protocol holds in every reachable state. */
module RelaySafety {
  import opened Options
  import opened RelaySpec
  import opened RelayProtocol
  import opened RelayInvariant
  import opened RelayPreservation
  import opened RelayFlow

  /** Nothing FlowLink sees of a goroutine changes, except that its socket may break. */
  predicate FlowSame(th: Thread, th': Thread) {
    && th'.sent == th.sent && th'.out == th.out && (th.broken ==> th'.broken)
    && Offered(th') == Offered(th) && InFlight(th') == InFlight(th) && Rest(th') == Rest(th)
    && (th'.pc.Flushing? ==> th.pc.Flushing?)
  }

  /** Everyone but t keeps its phase and, unless it works for session x, its frames. */
  ghost predicate OthersSame(s: State, s': State, t: Tid, x: Option<Sid>) {
    && t < |s.threads| <= |s'.threads| && s.now <= s'.now
    && forall u :: 0 <= u < |s.threads| && u != t ==>
         && s'.threads[u].phase == s.threads[u].phase
         && (x == Some(s.threads[u].id) || FlowSame(s.threads[u], s'.threads[u]))
  }

  predicate SameCell(s: State, s': State, y: Sid) {
    && y < |s.sess| && y < |s'.sess|
    && s'.sess[y] == s.sess[y].(mu := s'.sess[y].mu, sendMu := s'.sess[y].sendMu)
  }

  lemma RoleKept(s: State, s': State, t: Tid, x: Option<Sid>, y: Sid)
    requires OthersSame(s, s', t, x) && SameCell(s, s', y)
    requires CellOk(s, y) && RoleLinkOk(s, y)
    requires s.threads[t].id == y ==> s'.threads[t].phase == s.threads[t].phase
    ensures RoleLinkOk(s', y)
  {
  }

  lemma FlowKept(s: State, s': State, t: Tid, x: Option<Sid>, y: Sid)
    requires OthersSame(s, s', t, x) && SameCell(s, s', y) && x != Some(y)
    requires CellOk(s, y) && FlowLinkOk(s, y)
    requires s.threads[t].id == y ==> FlowSame(s.threads[t], s'.threads[t])
    ensures FlowLinkOk(s', y)
  {
    var c := s.sess[y];
    FlowMoves(c, Holder(s, c.agentHolder), Holder(s, c.viewerHolder),
              s'.sess[y], Holder(s', c.agentHolder), Holder(s', c.viewerHolder));
  }

  /** All sessions but x satisfy their links. */
  ghost predicate LinkedBut(s: State, x: Option<Sid>) {
    forall y :: 0 <= y < |s.sess| && x != Some(y) ==> RoleLinkOk(s, y) && FlowLinkOk(s, y)
  }

  /** A step of t that changes the data or the frames of no session but x. */
  lemma OthersLinked(s: State, s': State, t: Tid, x: Option<Sid>)
    requires Inv(s)
    requires OthersSame(s, s', t, x) && |s'.sess| >= |s.sess|
    requires forall y :: 0 <= y < |s.sess| && x != Some(y) ==> SameCell(s, s', y)
    requires x != Some(s.threads[t].id) ==>
               s'.threads[t].phase == s.threads[t].phase && FlowSame(s.threads[t], s'.threads[t])
    requires forall y :: |s.sess| <= y < |s'.sess| ==> x == Some(y)
    ensures LinkedBut(s', x)
  {
    forall y | 0 <= y < |s'.sess| && x != Some(y) ensures RoleLinkOk(s', y) && FlowLinkOk(s', y) {
      assert CellOk(s, y) && RoleLinkOk(s, y) && FlowLinkOk(s, y);
      RoleKept(s, s', t, x, y);
      FlowKept(s, s', t, x, y);
    }
  }

  // ----- the session a step works on -----

  function AgentOf(s: State, x: Sid): Thread
    requires x < |s.sess|
  {
    Holder(s, s.sess[x].agentHolder)
  }

  function ViewerOf(s: State, x: Sid): Thread
    requires x < |s.sess|
  {
    Holder(s, s.sess[x].viewerHolder)
  }

  lemma CarryFlow(s: State, s': State, x: Sid)
    requires FlowInv(s) && x < |s.sess| == |s'.sess|
    requires var c, c' := s.sess[x], s'.sess[x];
             && (c'.s.buffer, c'.s.bufBytes, c'.attachedAt) == (c.s.buffer, c.s.bufBytes, c.attachedAt)
             && (c'.s.browser.Some? ==> c.s.browser.Some?) && (c.closed ==> c'.closed)
    requires FlowSame(AgentOf(s, x), AgentOf(s', x)) && FlowSame(ViewerOf(s, x), ViewerOf(s', x))
    ensures FlowLinkOk(s', x)
  {
    assert FlowLinkOk(s, x);
    FlowMoves(s.sess[x], AgentOf(s, x), ViewerOf(s, x), s'.sess[x], AgentOf(s', x), ViewerOf(s', x));
  }

  lemma CarryRole(s: State, s': State, x: Sid)
    requires RoleInv(s) && x < |s.sess| == |s'.sess| && s'.now == s.now
    requires var c, c' := s.sess[x], s'.sess[x];
             && c'.s == c.s.(buffer := c'.s.buffer, bufBytes := c'.s.bufBytes, lastUsed := c'.s.lastUsed)
             && c' == c.(s := c'.s, mu := c'.mu, sendMu := c'.sendMu)
             && (c'.s.lastUsed == c.s.lastUsed || c'.s.lastUsed == s.now)
    requires AgentOf(s', x).phase == AgentOf(s, x).phase && ViewerOf(s', x).phase == ViewerOf(s, x).phase
    ensures RoleLinkOk(s', x)
  {
    assert RoleLinkOk(s, x);
  }

  lemma ReadFlow(s: State, s': State, x: Sid, f: Frame)
    requires FlowInv(s) && x < |s.sess| && s'.sess == s.sess
    requires ViewerOf(s', x) == ViewerOf(s, x)
    requires var a, a' := AgentOf(s, x), AgentOf(s', x);
             a.pc.Reading? && a'.sent == a.sent + [f] && a'.pc == WaitMu(OfferOp(f))
    ensures FlowLinkOk(s', x)
  {
    assert FlowLinkOk(s, x);
    FlowReads(s.sess[x], AgentOf(s, x), ViewerOf(s, x), AgentOf(s', x), f);
  }

  lemma AttachFlow(s: State, s': State, x: Sid)
    requires FlowInv(s) && x < |s.sess| == |s'.sess| && s.sess[x].attachedAt.None?
    requires AgentOf(s', x) == AgentOf(s, x)
    requires var c, c' := s.sess[x], s'.sess[x];
             && c'.s.buffer == [] && c'.s.bufBytes == 0
             && c'.attachedAt == Some(Offered(AgentOf(s, x))) && c'.closed == c.closed
    requires var v, v' := ViewerOf(s, x), ViewerOf(s', x);
             v'.out == v.out && v'.pc == Flushing(s.sess[x].s.buffer) && (v.broken ==> v'.broken)
    ensures FlowLinkOk(s', x)
  {
    assert FlowLinkOk(s, x);
    FlowAttaches(s.sess[x], AgentOf(s, x), ViewerOf(s, x), s'.sess[x], ViewerOf(s', x));
  }

  lemma OfferFlow(s: State, s': State, x: Sid, f: Frame)
    requires RoleInv(s) && FlowInv(s) && x < |s.sess| == |s'.sess|
    requires ViewerOf(s', x) == ViewerOf(s, x) && Offers(AgentOf(s, x), AgentOf(s', x), f)
    requires var c, c' := s.sess[x], s'.sess[x];
             c'.s == c.s.Offer(f, |f.data|, s.now) && c' == c.(s := c'.s, mu := None)
    requires InFlight(AgentOf(s', x)) == if s.sess[x].s.browser.Some? then [f] else []
    ensures FlowLinkOk(s', x)
  {
    assert FlowLinkOk(s, x) && RoleLinkOk(s, x);
    var c, c', a, a', v := s.sess[x], s'.sess[x], AgentOf(s, x), AgentOf(s', x), ViewerOf(s, x);
    if c.s.browser.Some? {
      FlowOffersLive(c, a, v, c', a', f);
    } else if Admits(|c.s.buffer|, c.s.bufBytes, |f.data|) {
      FlowOffersKept(c, a, v, c', a', f);
    } else {
      FlowOffersDropped(c, a, v, c', a', f);
    }
  }

  lemma CloseFlow(s: State, s': State, x: Sid)
    requires FlowInv(s) && x < |s.sess| == |s'.sess|
    requires var c, c' := s.sess[x], s'.sess[x]; c' == c.(s := c.s.Close(), closed := true, mu := None)
    requires FlowSame(AgentOf(s, x), AgentOf(s', x)) && FlowSame(ViewerOf(s, x), ViewerOf(s', x))
    ensures FlowLinkOk(s', x)
  {
    assert FlowLinkOk(s, x);
    FlowCloses(s.sess[x], AgentOf(s, x), ViewerOf(s, x), s'.sess[x], AgentOf(s', x), ViewerOf(s', x));
  }

  lemma SendFlow(s: State, s': State, x: Sid, ok: bool)
    requires FlowInv(s) && x < |s.sess| == |s'.sess|
    requires s'.sess[x] == s.sess[x].(sendMu := None)
    requires var a, a', v, v' := AgentOf(s, x), AgentOf(s', x), ViewerOf(s, x), ViewerOf(s', x);
             && a.pc.InSend? && !v.pc.Flushing?
             && a' == a.(pc := WaitMu(TouchOp)) && v' == Write(v, Wire(a.pc.frame, true), ok)
    ensures FlowLinkOk(s', x)
  {
    assert FlowLinkOk(s, x);
    var c, c', a', v' := s.sess[x], s'.sess[x], AgentOf(s', x), ViewerOf(s', x);
    FlowSends(c, AgentOf(s, x), ViewerOf(s, x), a', v', ok);
    FlowMoves(c, a', v', c', a', v');
  }

  lemma FlushFlow(s: State, s': State, x: Sid, ok: bool)
    requires FlowInv(s) && x < |s.sess| && s'.sess == s.sess && AgentOf(s', x) == AgentOf(s, x)
    requires var v, v' := ViewerOf(s, x), ViewerOf(s', x);
             && v.pc.Flushing? && v.pc.rest != []
             && var w := Write(v, Wire(v.pc.rest[0], false), ok);
                v' == w.(pc := Flushing(if w.broken then [] else v.pc.rest[1..]))
    ensures FlowLinkOk(s', x)
  {
    assert FlowLinkOk(s, x);
    FlowFlushes(s.sess[x], AgentOf(s, x), ViewerOf(s, x), ViewerOf(s', x), ok);
  }

  // ----- steps that touch no data -----

  lemma RequestLinks(s: State, t: Tid, ch: Choice)
    requires Inv(s) && Enabled(s, t)
    requires var pc := s.threads[t].pc; pc.Lookup? || pc.Looking? || pc.Upgrading? || pc.WaitStore?
    ensures var s' := Do(s, t, ch); RoleInv(s') && FlowInv(s')
  {
    assert ThreadOk(s, t);
    OthersLinked(s, Do(s, t, ch), t, None);
  }

  /** t moves without touching sessions or frames. */
  lemma MoveLinks(s: State, s': State, t: Tid)
    requires Inv(s) && t < |s.threads| == |s'.threads|
    requires var th' := s.threads[t].(pc := s'.threads[t].pc);
             && s' == State(s.now, s'.writer, s'.readers, s'.table, s.sess, s.threads[t := th'])
             && FlowSame(s.threads[t], th')
    ensures RoleInv(s') && FlowInv(s')
  {
    OthersLinked(s, s', t, None);
  }

  lemma StoreLinks(s: State, t: Tid, ch: Choice)
    requires Inv(s) && Enabled(s, t)
    requires var pc := s.threads[t].pc; pc.Sweeping? || (pc.InStore? && !pc.act.Create?)
    ensures var s' := Do(s, t, ch); RoleInv(s') && FlowInv(s')
  {
    MoveLinks(s, Do(s, t, ch), t);
  }

  lemma LockLinks(s: State, t: Tid, ch: Choice)
    requires Inv(s) && Enabled(s, t)
    requires var pc := s.threads[t].pc; pc.WaitMu? || pc.WaitSend?
    ensures var s' := Do(s, t, ch); RoleInv(s') && FlowInv(s')
  {
    assert ThreadOk(s, t);
    OthersLinked(s, Do(s, t, ch), t, None);
  }

  lemma ClosesSame(s: State, t: Tid, h: Option<Tid>, pc': Pc, s': State, u: Tid)
    requires Closes(s, t, h, pc', s') && s.threads[t].pc.Dropping? && u < |s.threads|
    requires pc'.Dropping? || pc'.Done? || (pc'.WaitMu? && pc'.op.CloseOp?)
    ensures s'.threads[u].phase == s.threads[u].phase && FlowSame(s.threads[u], s'.threads[u])
  {
  }

  lemma ClosesLinks(s: State, t: Tid, h: Option<Tid>, pc': Pc, s': State)
    requires Inv(s) && Closes(s, t, h, pc', s') && s.threads[t].pc.Dropping?
    requires pc'.Dropping? || pc'.Done? || (pc'.WaitMu? && pc'.op.CloseOp?)
    ensures RoleInv(s') && FlowInv(s')
  {
    forall u | 0 <= u < |s.threads|
      ensures s'.threads[u].phase == s.threads[u].phase && FlowSame(s.threads[u], s'.threads[u])
    {
      ClosesSame(s, t, h, pc', s', u);
    }
    OthersLinked(s, s', t, None);
  }

  lemma DropLinks(s: State, t: Tid, s': State)
    requires Inv(s) && t < |s.threads| && s.threads[t].pc.Dropping?
    requires var pc := s.threads[t].pc;
             IsThread(s, pc.agent) && IsThread(s, pc.browser) && s' == DoDrop(s, t, pc.agent, pc.browser, pc.next)
    ensures RoleInv(s') && FlowInv(s')
  {
    DropCloses(s, t, s');
    var pc := s.threads[t].pc;
    if pc.agent.Some? {
      ClosesLinks(s, t, pc.agent, Dropping(None, pc.browser, pc.next), s');
    } else {
      ClosesLinks(s, t, pc.browser, CloseAll(pc.next), s');
    }
  }

  // ----- steps that move frames -----

  lemma FrameLinks(s: State, t: Tid, f: Frame, s': State)
    requires Inv(s) && t < |s.threads| && s.threads[t].pc.Reading? && s.threads[t].role == Agent
    requires var th := s.threads[t];
             s' == s.(threads := s.threads[t := th.(sent := th.sent + [f], pc := WaitMu(OfferOp(f)))])
    ensures RoleInv(s') && FlowInv(s')
  {
    var x := s.threads[t].id;
    OthersLinked(s, s', t, Some(x));
    assert ThreadOk(s, t) && CellOk(s, x);
    assert RoleLinkOk(s', x) by { assert RoleLinkOk(s, x); RoleKept(s, s', t, Some(x), x); }
    ReadFlow(s, s', x, f);
  }

  lemma ReadingLinks(s: State, t: Tid, ch: Choice)
    requires Inv(s) && Enabled(s, t) && s.threads[t].pc.Reading?
    ensures var s' := Do(s, t, ch); RoleInv(s') && FlowInv(s')
  {
    var th := s.threads[t];
    var th' := AfterRead(th, ch);
    if th'.pc.WaitMu? && th'.pc.op.OfferOp? {
      FrameLinks(s, t, th'.pc.op.frame, Do(s, t, ch));
    } else {
      OthersLinked(s, Do(s, t, ch), t, None);
    }
  }

  lemma SendLinks(s: State, t: Tid, ok: bool, s': State)
    requires Inv(s) && t < |s.threads| && s.threads[t].pc.InSend?
    requires var th := s.threads[t];
             th.pc.viewer < |s.threads| && th.id < |s.sess| && s' == DoSend(s, t, th.pc.viewer, th.pc.frame, ok)
    ensures RoleInv(s') && FlowInv(s')
  {
    var x := s.threads[t].id;
    assert ThreadOk(s, t) && ThreadOk(s, s.threads[t].pc.viewer) && CellOk(s, x);
    OthersLinked(s, s', t, Some(x));
    assert RoleLinkOk(s', x) by { assert RoleLinkOk(s, x); RoleKept(s, s', t, Some(x), x); }
    SendFlow(s, s', x, ok);
  }

  lemma FlushEnds(s: State, t: Tid, s': State)
    requires Inv(s) && t < |s.threads| && s.threads[t].pc == Flushing([]) && s.threads[t].id < |s.sess|
    requires s' == DoFlush(s, t, [], true)
    ensures RoleInv(s') && FlowInv(s')
  {
    OthersLinked(s, s', t, None);
  }

  lemma FlushWrites(s: State, t: Tid, rest: seq<Frame>, ok: bool, s': State)
    requires Inv(s) && t < |s.threads| && s.threads[t].pc == Flushing(rest) && rest != []
    requires s.threads[t].id < |s.sess| && s' == DoFlush(s, t, rest, ok)
    ensures RoleInv(s') && FlowInv(s')
  {
    var x := s.threads[t].id;
    assert ThreadOk(s, t) && CellOk(s, x);
    OthersLinked(s, s', t, Some(x));
    assert RoleLinkOk(s', x) by { assert RoleLinkOk(s, x); RoleKept(s, s', t, Some(x), x); }
    FlushFlow(s, s', x, ok);
  }

  lemma FlushLinks(s: State, t: Tid, ch: Choice)
    requires Inv(s) && Enabled(s, t) && s.threads[t].pc.Flushing?
    ensures var s' := Do(s, t, ch); RoleInv(s') && FlowInv(s')
  {
    var rest := s.threads[t].pc.rest;
    if rest == [] {
      FlushEnds(s, t, DoFlush(s, t, rest, ch.ok));
    } else {
      FlushWrites(s, t, rest, ch.ok, DoFlush(s, t, rest, ch.ok));
    }
  }

  // ----- critical sections -----

  /** The end of a critical section of session x leaves the other sessions alone. */
  lemma CriticalOthers(s: State, s': State, t: Tid, x: Sid)
    requires Inv(s) && t < |s.threads| && x < |s.sess| == |s'.sess|
    requires |s'.threads| == |s.threads| && s'.threads == s.threads[t := s'.threads[t]]
    requires s'.sess == s.sess[x := s'.sess[x]] && s'.now == s.now
    requires x != s.threads[t].id ==>
               s'.threads[t].phase == s.threads[t].phase && FlowSame(s.threads[t], s'.threads[t])
    ensures LinkedBut(s', Some(x))
  {
    OthersLinked(s, s', t, Some(x));
  }

  predicate Critical(s: State, t: Tid) {
    t < |s.threads| && s.threads[t].pc.InMu? && Target(s.threads[t], s.threads[t].pc.op) < |s.sess|
  }

  /** Who holds the roles of session x after t reserves role. */
  lemma Reservation(s: State, s': State, t: Tid)
    requires t < |s.threads| && s.threads[t].id < |s.sess| && CellOk(s, s.threads[t].id) && RoleInv(s)
    requires var op, x := s.threads[t].pc, s.threads[t].id;
             op == InMu(ReserveOp) && s.sess[x].s.CanReserve(s.threads[t].role, s.threads[t].token, s.now)
    requires s' == DoMu(s, t, ReserveOp)
    requires s.threads[t].phase.New?
    ensures var th, c, c' := s.threads[t], s.sess[s.threads[t].id], s'.sess[s.threads[t].id];
            if th.role == Agent then
              && Holder(s, c.agentHolder) == NOBODY && Holder(s', c'.agentHolder) == s'.threads[t]
              && Holder(s', c'.viewerHolder) == Holder(s, c.viewerHolder)
            else
              && Holder(s, c.viewerHolder) == NOBODY && Holder(s', c'.viewerHolder) == s'.threads[t]
              && Holder(s', c'.agentHolder) == Holder(s, c.agentHolder)
  {
    assert RoleLinkOk(s, s.threads[t].id);
  }

  lemma ReserveLinks(s: State, t: Tid, s': State)
    requires Inv(s) && Critical(s, t) && s.threads[t].pc.op.ReserveOp? && s' == DoMu(s, t, s.threads[t].pc.op)
    ensures RoleInv(s') && FlowInv(s')
  {
    var th, x := s.threads[t], s.threads[t].id;
    assert ThreadOk(s, t) && CellOk(s, x);
    if !s.sess[x].s.CanReserve(th.role, th.token, s.now) {
      OthersLinked(s, s', t, None);
    } else {
      CriticalOthers(s, s', t, x);
      assert RoleLinkOk(s', x) by { assert RoleLinkOk(s, x); }
      Reservation(s, s', t);
      CarryFlow(s, s', x);
    }
  }

  /** A critical section of t's own session that moves no frame of it. */
  predicate CarryEffect(s: State, s': State, t: Tid, x: Sid) {
    && t < |s.threads| == |s'.threads| && x < |s.sess| == |s'.sess| && x == s.threads[t].id
    && s'.threads == s.threads[t := s'.threads[t]] && s'.sess == s.sess[x := s'.sess[x]] && s'.now == s.now
    && (var c, c' := s.sess[x], s'.sess[x];
        && (c'.s.buffer, c'.s.bufBytes, c'.attachedAt, c'.closed) == (c.s.buffer, c.s.bufBytes, c.attachedAt, c.closed)
        && (c'.s.browser.Some? ==> c.s.browser.Some?))
    && FlowSame(AgentOf(s, x), AgentOf(s', x)) && FlowSame(ViewerOf(s, x), ViewerOf(s', x))
  }

  lemma CarryEffectLinks(s: State, s': State, t: Tid, x: Sid)
    requires Inv(s) && CarryEffect(s, s', t, x) && RoleLinkOk(s', x)
    ensures RoleInv(s') && FlowInv(s')
  {
    CriticalOthers(s, s', t, x);
    CarryFlow(s, s', x);
  }

  lemma ReleaseRole(s: State, t: Tid, s': State)
    requires RoleInv(s) && Critical(s, t) && s.threads[t].pc.op.ReleaseOp? && s' == DoMu(s, t, s.threads[t].pc.op)
    requires ThreadOk(s, t) && CellOk(s, s.threads[t].id)
    ensures RoleLinkOk(s', s.threads[t].id)
    ensures CarryEffect(s, s', t, s.threads[t].id)
  {
    assert RoleLinkOk(s, s.threads[t].id);
  }

  lemma ReleaseLinks(s: State, t: Tid, s': State)
    requires Inv(s) && Critical(s, t) && s.threads[t].pc.op.ReleaseOp? && s' == DoMu(s, t, s.threads[t].pc.op)
    ensures RoleInv(s') && FlowInv(s')
  {
    ReleaseRole(s, t, s');
    CarryEffectLinks(s, s', t, s.threads[t].id);
  }

  lemma SetAgentLinks(s: State, t: Tid, s': State)
    requires Inv(s) && Critical(s, t) && s.threads[t].pc.op.SetAgentOp? && s' == DoMu(s, t, s.threads[t].pc.op)
    ensures RoleInv(s') && FlowInv(s')
  {
    var x := s.threads[t].id;
    assert ThreadOk(s, t) && CellOk(s, x);
    assert RoleLinkOk(s', x) by { assert RoleLinkOk(s, x); }
    CarryEffectLinks(s, s', t, x);
  }

  lemma AttachLinks(s: State, t: Tid, s': State)
    requires Inv(s) && Critical(s, t) && s.threads[t].pc.op.AttachOp? && s' == DoMu(s, t, s.threads[t].pc.op)
    ensures RoleInv(s') && FlowInv(s')
  {
    var x := s.threads[t].id;
    CriticalOthers(s, s', t, x);
    assert ThreadOk(s, t) && CellOk(s, x);
    assert RoleLinkOk(s', x) by { assert RoleLinkOk(s, x); }
    assert s.sess[x].attachedAt.None? by { assert RoleLinkOk(s, x); }
    AttachFlow(s, s', x);
  }

  /** What the locked part of Forward changes, with t the agent of session x and f the frame. */
  predicate OfferEffect(s: State, s': State, t: Tid, x: Sid, f: Frame) {
    && t < |s.threads| == |s'.threads| && x < |s.sess| == |s'.sess|
    && s'.threads == s.threads[t := s'.threads[t]] && s'.sess == s.sess[x := s'.sess[x]] && s'.now == s.now
    && s'.sess[x] == s.sess[x].(s := s.sess[x].s.Offer(f, |f.data|, s.now), mu := None)
    && s.sess[x].agentHolder == Some(t) && s.sess[x].viewerHolder != Some(t) && s.threads[t].id == x
    && s'.threads[t].phase == s.threads[t].phase && Offers(s.threads[t], s'.threads[t], f)
    && InFlight(s'.threads[t]) == if s.sess[x].s.browser.Some? then [f] else []
  }

  lemma OfferEffectLinks(s: State, s': State, t: Tid, x: Sid, f: Frame)
    requires Inv(s) && OfferEffect(s, s', t, x, f)
    ensures RoleInv(s') && FlowInv(s')
  {
    CriticalOthers(s, s', t, x);
    assert ViewerOf(s', x) == ViewerOf(s, x);
    CarryRole(s, s', x);
    OfferFlow(s, s', x, f);
  }

  lemma OfferLinks(s: State, t: Tid, s': State)
    requires Inv(s) && Critical(s, t) && s.threads[t].pc.op.OfferOp? && s' == DoMu(s, t, s.threads[t].pc.op)
    ensures RoleInv(s') && FlowInv(s')
  {
    assert ThreadOk(s, t) && CellOk(s, s.threads[t].id);
    OfferEffectLinks(s, s', t, s.threads[t].id, s.threads[t].pc.op.frame);
  }

  /** What the locked part of CloseBoth changes, run by t on session x. */
  predicate CloseEffect(s: State, s': State, t: Tid, x: Sid) {
    && t < |s.threads| == |s'.threads| && x < |s.sess| == |s'.sess|
    && s'.threads == s.threads[t := s'.threads[t]] && s'.sess == s.sess[x := s'.sess[x]] && s'.now == s.now
    && s'.sess[x] == s.sess[x].(s := s.sess[x].s.Close(), closed := true, mu := None)
    && s'.threads[t].phase == s.threads[t].phase && FlowSame(s.threads[t], s'.threads[t])
  }

  lemma CloseRole(s: State, s': State, t: Tid, x: Sid)
    requires RoleInv(s) && CloseEffect(s, s', t, x)
    ensures RoleLinkOk(s', x)
  {
    assert RoleLinkOk(s, x);
  }

  lemma CloseEffectLinks(s: State, s': State, t: Tid, x: Sid)
    requires Inv(s) && CloseEffect(s, s', t, x)
    ensures RoleInv(s') && FlowInv(s')
  {
    CriticalOthers(s, s', t, x);
    CloseRole(s, s', t, x);
    assert FlowSame(AgentOf(s, x), AgentOf(s', x)) && FlowSame(ViewerOf(s, x), ViewerOf(s', x));
    CloseFlow(s, s', x);
  }

  lemma CloseLinks(s: State, t: Tid, s': State)
    requires Inv(s) && Critical(s, t) && s.threads[t].pc.op.CloseOp? && s' == DoMu(s, t, s.threads[t].pc.op)
    ensures RoleInv(s') && FlowInv(s')
  {
    CloseEffectLinks(s, s', t, s.threads[t].pc.op.sid);
  }

  lemma TouchLinks(s: State, t: Tid, s': State)
    requires Inv(s) && Critical(s, t) && s.threads[t].pc.op.TouchOp? && s' == DoMu(s, t, s.threads[t].pc.op)
    ensures RoleInv(s') && FlowInv(s')
  {
    var x := s.threads[t].id;
    assert ThreadOk(s, t) && CellOk(s, x);
    assert RoleLinkOk(s', x) by { assert RoleLinkOk(s, x); }
    CarryEffectLinks(s, s', t, x);
  }

  lemma ExpiredLinks(s: State, t: Tid, s': State)
    requires Inv(s) && Critical(s, t) && s.threads[t].pc.op.ExpiredOp? && s' == DoMu(s, t, s.threads[t].pc.op)
    ensures RoleInv(s') && FlowInv(s')
  {
    OthersLinked(s, s', t, None);
  }

  // ----- creation, new goroutines, time -----

  lemma CreateKeepsLocks(s: State, t: Tid, ch: Choice)
    requires LockInv(s) && Enabled(s, t) && s.threads[t].pc.InStore? && s.threads[t].pc.act.Create?
    ensures LockInv(Do(s, t, ch))
  {
    var s' := Do(s, t, ch);
    assert ThreadOk(s, t) && t !in s.readers;
    forall u | 0 <= u < |s'.threads| ensures ThreadOk(s', u) {
      if u != t { OtherKept(s, s', t, u); }
    }
    forall y | 0 <= y < |s'.sess| ensures CellOk(s', y) {
      if y < |s.sess| {
        Mine(s, t, y);
        CellKept(s, s', t, y);
      }
    }
  }

  lemma NewCellFlow(agentToken: Token, viewerToken: Token, now: int)
    ensures FlowLink(NewCell(agentToken, viewerToken, now), NOBODY, NOBODY)
  {
  }

  lemma NewCellLinks(s: State, x: Sid, agentToken: Token, viewerToken: Token)
    requires x < |s.sess|
    requires s.sess[x] == NewCell(agentToken, viewerToken, s.now)
    ensures RoleLinkOk(s, x) && FlowLinkOk(s, x)
  {
    assert Holder(s, None) == NOBODY;
    NewCellFlow(agentToken, viewerToken, s.now);
  }

  lemma CreateKeepsLinks(s: State, t: Tid, ch: Choice)
    requires Inv(s) && Enabled(s, t) && s.threads[t].pc.InStore? && s.threads[t].pc.act.Create?
    ensures var s' := Do(s, t, ch); RoleInv(s') && FlowInv(s')
  {
    var s' := Do(s, t, ch);
    OthersLinked(s, s', t, Some(|s.sess|));
    NewCellLinks(s', |s.sess|, s.threads[t].pc.act.agentToken, s.threads[t].pc.act.viewerToken);
  }

  lemma SpawnKeepsLocks(s: State, th: Thread)
    requires LockInv(s) && Starts(s, th)
    ensures LockInv(Apply(s, Spawn(th)))
  {
    var s' := Apply(s, Spawn(th));
    assert OwnOk(th) && ListsOk(th, |s.sess|) && !HoldsSend(th.pc) && !HoldsStore(th.pc);
    forall u | 0 <= u < |s'.threads| ensures ThreadOk(s', u) {
      if u < |s.threads| { assert ThreadOk(s, u); }
    }
    forall y | 0 <= y < |s'.sess| ensures CellOk(s', y) { assert CellOk(s, y); }
  }

  lemma SpawnKeepsLinks(s: State, th: Thread)
    requires Inv(s) && Starts(s, th)
    ensures var s' := Apply(s, Spawn(th)); RoleInv(s') && FlowInv(s')
  {
    var s' := Apply(s, Spawn(th));
    forall y | 0 <= y < |s'.sess| ensures RoleLinkOk(s', y) && FlowLinkOk(s', y) {
      assert CellOk(s, y);
      assert RoleLinkOk(s', y) by { assert RoleLinkOk(s, y); }
      CarryFlow(s, s', y);
    }
  }

  lemma TickKeepsLocks(s: State, d: nat)
    requires LockInv(s)
    ensures LockInv(s.(now := s.now + d))
  {
    var s' := s.(now := s.now + d);
    forall u | 0 <= u < |s'.threads| ensures ThreadOk(s', u) { assert ThreadOk(s, u); }
    forall y | 0 <= y < |s'.sess| ensures CellOk(s', y) { assert CellOk(s, y); }
  }

  lemma TickKeepsLinks(s: State, d: nat)
    requires RoleInv(s) && FlowInv(s)
    ensures var s' := s.(now := s.now + d); RoleInv(s') && FlowInv(s')
  {
    var s' := s.(now := s.now + d);
    forall y | 0 <= y < |s'.sess| ensures RoleLinkOk(s', y) && FlowLinkOk(s', y) {
      assert RoleLinkOk(s', y) by { assert RoleLinkOk(s, y); }
      CarryFlow(s, s', y);
    }
  }

  // ----- all steps -----

  lemma CriticalKeeps(s: State, t: Tid, ch: Choice)
    requires Inv(s) && Enabled(s, t) && s.threads[t].pc.InMu?
    ensures Inv(Do(s, t, ch))
  {
    assert RoleLinkOk(s, Target(s.threads[t], s.threads[t].pc.op));
    var s' := Do(s, t, ch);
    match s.threads[t].pc.op
    case ReserveOp => ReserveStep(s, t, ch); ReserveLinks(s, t, s');
    case ReleaseOp => RoleStep(s, t, ch); ReleaseLinks(s, t, s');
    case SetAgentOp => RoleStep(s, t, ch); SetAgentLinks(s, t, s');
    case AttachOp => RoleStep(s, t, ch); AttachLinks(s, t, s');
    case OfferOp(_) => OfferStep(s, t, ch); OfferLinks(s, t, s');
    case TouchOp => CloseStep(s, t, ch); TouchLinks(s, t, s');
    case ExpiredOp(_, _, _, _) => CloseStep(s, t, ch); ExpiredLinks(s, t, s');
    case CloseOp(_, _) => CloseStep(s, t, ch); CloseLinks(s, t, s');
  }

  lemma StepKeeps(s: State, t: Tid, ch: Choice)
    requires Inv(s) && Enabled(s, t)
    ensures Inv(Do(s, t, ch))
  {
    match s.threads[t].pc
    case Lookup => RequestSteps(s, t, ch); RequestLinks(s, t, ch);
    case Looking => RequestSteps(s, t, ch); RequestLinks(s, t, ch);
    case Upgrading => RequestSteps(s, t, ch); RequestLinks(s, t, ch);
    case WaitStore(_) => RequestSteps(s, t, ch); RequestLinks(s, t, ch);
    case WaitMu(_) => WaitMuStep(s, t, ch); LockLinks(s, t, ch);
    case WaitSend(_) => WaitSendStep(s, t, ch); LockLinks(s, t, ch);
    case Sweeping(_, _, _) => StoreSteps(s, t, ch); StoreLinks(s, t, ch);
    case InStore(act) =>
      if act.Create? {
        CreateKeepsLocks(s, t, ch);
        CreateKeepsLinks(s, t, ch);
      } else {
        StoreSteps(s, t, ch);
        StoreLinks(s, t, ch);
      }
    case InMu(_) => CriticalKeeps(s, t, ch);
    case Reading => ReadingStep(s, t, ch); ReadingLinks(s, t, ch);
    case InSend(_, _) => SendStep(s, t, ch); SendLinks(s, t, ch.ok, Do(s, t, ch));
    case Flushing(_) => FlushStep(s, t, ch); FlushLinks(s, t, ch);
    case Dropping(_, _, _) => DropStep(s, t, Do(s, t, ch)); DropLinks(s, t, Do(s, t, ch));
  }

  lemma EventKeeps(s: State, e: Event)
    requires Inv(s) && Valid(s, e)
    ensures Inv(Apply(s, e))
  {
    match e
    case Act(t, ch) => StepKeeps(s, t, ch);
    case Spawn(th) => SpawnKeepsLocks(s, th); SpawnKeepsLinks(s, th);
    case Tick(d) => TickKeepsLocks(s, d); TickKeepsLinks(s, d);
  }

  /** Every reachable state satisfies the invariant. */
  lemma {:induction false} RunKeeps(s: State, es: seq<Event>, s': State)
    requires Inv(s) && Runs(s, es, s')
    ensures Inv(s')
    decreases |es|
  {
    if es != [] {
      EventKeeps(s, es[0]);
      RunKeeps(Apply(s, es[0]), es[1..], s');
    }
  }
}
