/** Every step of the relay protocol keeps the invariant. */
module RelayPreservation {
  import opened Options
  import opened RelaySpec
  import opened RelayProtocol
  import opened RelayInvariant

  // ----- what a step of t leaves alone -----

  /** A change made by t to a lock or role owner: t takes it, or gives it up. */
  predicate OnlyMine(before: Option<Tid>, after: Option<Tid>, t: Tid) {
    before == after || ((before.None? || before == Some(t)) && (after.None? || after == Some(t)))
  }

  predicate CellTouched(c: Cell, c': Cell, t: Tid) {
    && OnlyMine(c.mu, c'.mu, t)
    && OnlyMine(c.sendMu, c'.sendMu, t)
    && OnlyMine(c.agentHolder, c'.agentHolder, t)
    && OnlyMine(c.viewerHolder, c'.viewerHolder, t)
  }

  /** A step of t may write to, or break, another goroutine's socket; the rest of it stays. */
  predicate SocketOnly(th: Thread, th': Thread) {
    && th' == th.(out := th'.out, broken := th'.broken, dropped := th'.dropped)
    && (th' != th ==> th.phase.Connected?)
    && (th'.out != th.out ==> th.role == Viewer)
  }

  ghost predicate Others(s: State, s': State, t: Tid) {
    && t < |s.threads| <= |s'.threads| && |s.sess| <= |s'.sess|
    && OnlyMine(s.writer, s'.writer, t)
    && (forall u :: u != t ==> (u in s.readers <==> u in s'.readers))
    && (forall u :: 0 <= u < |s.threads| && u != t ==> SocketOnly(s.threads[u], s'.threads[u]))
    && (forall y :: 0 <= y < |s.sess| ==> CellTouched(s.sess[y], s'.sess[y], t))
    // a connected viewer never gives its role back
    && (forall y :: 0 <= y < |s.sess| && s.sess[y].viewerHolder == Some(t) && s.threads[t].phase.Connected?
          ==> s'.sess[y].viewerHolder == Some(t))
  }

  lemma OtherKept(s: State, s': State, t: Tid, u: Tid)
    requires LockInv(s) && Others(s, s', t) && u < |s.threads| && u != t
    requires s.threads[t].phase.Connected? ==> s'.threads[t].phase.Connected?
    ensures ThreadOk(s', u)
  {
    assert ThreadOk(s, u);
    var th := s.threads[u];
    assert SocketOnly(th, s'.threads[u]);
    if !th.phase.New? || HoldsSend(th.pc) { assert CellTouched(s.sess[th.id], s'.sess[th.id], t); }
    if th.pc.InMu? {
      var x := Target(th, th.pc.op);
      assert CellTouched(s.sess[x], s'.sess[x], t);
    }
  }

  /** The locks t holds, as the invariant records them. */
  lemma Mine(s: State, t: Tid, y: Sid)
    requires LockInv(s) && t < |s.threads| && y < |s.sess|
    ensures s.sess[y].mu == Some(t) <==>
            s.threads[t].pc.InMu? && Target(s.threads[t], s.threads[t].pc.op) == y
    ensures s.sess[y].sendMu == Some(t) <==> HoldsSend(s.threads[t].pc) && s.threads[t].id == y
    ensures Agrees(s, t, y)
  {
    assert ThreadOk(s, t) && CellOk(s, y);
  }

  /** What session y records of t in s' agrees with t's own place there. */
  predicate Agrees(s': State, t: Tid, y: Sid)
    requires t < |s'.threads| && y < |s'.sess|
  {
    var c, th := s'.sess[y], s'.threads[t];
    && (c.mu == Some(t) ==> th.pc.InMu? && Target(th, th.pc.op) == y)
    && (c.sendMu == Some(t) ==> HoldsSend(th.pc) && th.id == y)
    && (c.agentHolder == Some(t) ==> th.role == Agent && th.id == y && !th.phase.New?)
    && (c.viewerHolder == Some(t) ==> th.role == Viewer && th.id == y && !th.phase.New?)
  }

  lemma CellKept(s: State, s': State, t: Tid, y: Sid)
    requires Others(s, s', t) && y < |s.sess| && CellOk(s, y)
    requires Agrees(s', t, y)
    ensures CellOk(s', y)
  {
    assert CellTouched(s.sess[y], s'.sess[y], t);
  }

  /** A step of t keeps the lock invariant if t's own records are right afterwards. */
  lemma LocksKept(s: State, s': State, t: Tid)
    requires LockInv(s) && Others(s, s', t) && StoreOk(s')
    requires |s'.threads| == |s.threads| && |s'.sess| == |s.sess|
    requires s.threads[t].phase.Connected? ==> s'.threads[t].phase.Connected?
    requires ThreadOk(s', t)
    requires forall y :: 0 <= y < |s.sess| ==> Agrees(s', t, y)
    ensures LockInv(s')
  {
    forall u | 0 <= u < |s'.threads| ensures ThreadOk(s', u) {
      if u != t { OtherKept(s, s', t, u); }
    }
    forall y | 0 <= y < |s'.sess| ensures CellOk(s', y) {
      assert Agrees(s', t, y);
      CellKept(s, s', t, y);
    }
  }

  /** t moves to pc' and changes only the store lock and the table. */
  lemma StoreMove(s: State, t: Tid, pc': Pc, w: Option<Tid>, r: set<Tid>, tb: set<Sid>)
    requires LockInv(s) && t < |s.threads|
    requires PcOk(s.threads[t].(pc := pc')) && ListsOk(s.threads[t].(pc := pc'), |s.sess|)
    requires !s.threads[t].pc.InMu? && !pc'.InMu? && HoldsSend(s.threads[t].pc) == HoldsSend(pc')
    requires !pc'.Dropping? && InFlight(s.threads[t].(pc := pc')) == []
    requires OnlyMine(s.writer, w, t) && (w == Some(t) <==> HoldsStore(pc')) && (w.Some? ==> r == {})
    requires r == if pc'.Looking? then s.readers + {t} else s.readers - {t}
    requires tb <= s.table
    ensures LockInv(s.(writer := w, readers := r, table := tb, threads := s.threads[t := s.threads[t].(pc := pc')]))
  {
    var s' := s.(writer := w, readers := r, table := tb, threads := s.threads[t := s.threads[t].(pc := pc')]);
    assert ThreadOk(s', t) by { assert ThreadOk(s, t); }
    forall y | 0 <= y < |s.sess| ensures Agrees(s', t, y) { Mine(s, t, y); }
    LocksKept(s, s', t);
  }

  /** t moves to pc' and changes only the locks of session x. */
  lemma SessionMove(s: State, t: Tid, pc': Pc, x: Sid, m: Option<Tid>, sm: Option<Tid>)
    requires LockInv(s) && t < |s.threads| && x < |s.sess|
    requires PcOk(s.threads[t].(pc := pc')) && ListsOk(s.threads[t].(pc := pc'), |s.sess|)
    requires HoldsStore(s.threads[t].pc) == HoldsStore(pc') && !s.threads[t].pc.Looking? && !pc'.Looking?
    requires !pc'.Dropping? && !(pc'.WaitSend? && pc'.job.Live?)
    requires pc'.InSend? ==> s.threads[t].pc == WaitSend(Live(pc'.viewer, pc'.frame))
    requires !s.threads[t].pc.InMu? && OnlyMine(s.sess[x].mu, m, t) && OnlyMine(s.sess[x].sendMu, sm, t)
    requires m == Some(t) <==> pc'.InMu?
    requires pc'.InMu? ==> Target(s.threads[t], pc'.op) == x
    requires if x == s.threads[t].id then sm == Some(t) <==> HoldsSend(pc')
             else sm == s.sess[x].sendMu && !HoldsSend(pc') && !HoldsSend(s.threads[t].pc)
    ensures LockInv(s.(sess := s.sess[x := s.sess[x].(mu := m, sendMu := sm)],
                       threads := s.threads[t := s.threads[t].(pc := pc')]))
  {
    var s' := s.(sess := s.sess[x := s.sess[x].(mu := m, sendMu := sm)],
                 threads := s.threads[t := s.threads[t].(pc := pc')]);
    assert ThreadOk(s', t) by { assert ThreadOk(s, t); }
    forall y | 0 <= y < |s.sess| ensures Agrees(s', t, y) { Mine(s, t, y); }
    LocksKept(s, s', t);
  }

  // ----- the steps that only move between locks -----

  lemma StoreMoveTo(s: State, s': State, t: Tid)
    requires LockInv(s) && t < |s.threads| && |s'.threads| == |s.threads|
    requires var th' := s.threads[t].(pc := s'.threads[t].pc);
             && s' == State(s.now, s'.writer, s'.readers, s'.table, s.sess, s.threads[t := th'])
             && PcOk(th') && ListsOk(th', |s.sess|)
             && !th'.pc.InMu? && !th'.pc.Dropping? && InFlight(th') == []
             && (s'.writer == Some(t) <==> HoldsStore(th'.pc))
             && s'.readers == (if th'.pc.Looking? then s.readers + {t} else s.readers - {t})
    requires !s.threads[t].pc.InMu? && HoldsSend(s.threads[t].pc) == HoldsSend(s'.threads[t].pc)
    requires OnlyMine(s.writer, s'.writer, t) && (s'.writer.Some? ==> s'.readers == {}) && s'.table <= s.table
    ensures LockInv(s')
  {
    StoreMove(s, t, s'.threads[t].pc, s'.writer, s'.readers, s'.table);
  }

  lemma RequestSteps(s: State, t: Tid, ch: Choice)
    requires LockInv(s) && Enabled(s, t)
    requires var pc := s.threads[t].pc; pc.Lookup? || pc.Looking? || pc.Upgrading? || pc.WaitStore?
    ensures LockInv(Do(s, t, ch))
  {
    assert ThreadOk(s, t);
    assert t !in s.readers ==> s.readers - {t} == s.readers;
    StoreMoveTo(s, Do(s, t, ch), t);
  }

  lemma StoreSteps(s: State, t: Tid, ch: Choice)
    requires LockInv(s) && Enabled(s, t)
    requires var pc := s.threads[t].pc; pc.Sweeping? || (pc.InStore? && !pc.act.Create?)
    ensures LockInv(Do(s, t, ch))
  {
    assert ThreadOk(s, t);
    assert t !in s.readers && s.readers - {t} == s.readers;
    StoreMoveTo(s, Do(s, t, ch), t);
  }

  lemma WaitMuStep(s: State, t: Tid, ch: Choice)
    requires LockInv(s) && Enabled(s, t) && s.threads[t].pc.WaitMu?
    ensures LockInv(Do(s, t, ch))
  {
    assert ThreadOk(s, t);
    var th := s.threads[t];
    var x := Target(th, th.pc.op);
    assert CellOk(s, x);
    Mine(s, t, x);
    SessionMove(s, t, InMu(th.pc.op), x, Some(t), s.sess[x].sendMu);
  }

  lemma WaitSendStep(s: State, t: Tid, ch: Choice)
    requires LockInv(s) && Enabled(s, t) && s.threads[t].pc.WaitSend?
    ensures LockInv(Do(s, t, ch))
  {
    assert ThreadOk(s, t);
    var th := s.threads[t];
    Mine(s, t, th.id);
    SessionMove(s, t, Do(s, t, ch).threads[t].pc, th.id, s.sess[th.id].mu, Some(t));
  }

  // ----- the steps that change more than a lock -----

  /** t changes nothing but itself, and neither its role nor its locks. */
  lemma ThreadMoves(s: State, t: Tid, th': Thread)
    requires LockInv(s) && t < |s.threads|
    requires var th := s.threads[t];
             && (th'.role, th'.id, th'.phase) == (th.role, th.id, th.phase)
             && !th.pc.InMu? && !th'.pc.InMu? && HoldsSend(th'.pc) == HoldsSend(th.pc)
    requires ThreadOk(s.(threads := s.threads[t := th']), t)
    ensures LockInv(s.(threads := s.threads[t := th']))
  {
    var s' := s.(threads := s.threads[t := th']);
    forall y | 0 <= y < |s.sess| ensures Agrees(s', t, y) { Mine(s, t, y); }
    LocksKept(s, s', t);
  }

  lemma ReadingStep(s: State, t: Tid, ch: Choice)
    requires LockInv(s) && Enabled(s, t) && s.threads[t].pc.Reading?
    ensures LockInv(Do(s, t, ch))
  {
    assert ThreadOk(s, t);
    ThreadMoves(s, t, AfterRead(s.threads[t], ch));
  }

  predicate Roles(c': Cell, t: Tid, th': Thread) {
    && (c'.agentHolder == Some(t) <==> !th'.phase.New? && th'.role == Agent)
    && (c'.viewerHolder == Some(t) <==> !th'.phase.New? && th'.role == Viewer)
  }

  predicate SameRoles(c: Cell, c': Cell, th: Thread, th': Thread) {
    && c'.agentHolder == c.agentHolder && c'.viewerHolder == c.viewerHolder
    && th'.phase == th.phase
  }

  /** t ends a critical section of session x: the session becomes c', t becomes th'. */
  lemma CriticalMove(s: State, t: Tid, x: Sid, c': Cell, th': Thread, tb: set<Sid>)
    requires LockInv(s) && t < |s.threads| && x < |s.sess|
    requires s.threads[t].pc.InMu? && Target(s.threads[t], s.threads[t].pc.op) == x
    requires c'.mu.None? && c'.sendMu == s.sess[x].sendMu && CellTouched(s.sess[x], c', t)
    requires (th'.role, th'.id) == (s.threads[t].role, s.threads[t].id)
    requires OwnOk(th') && ListsOk(th', |s.sess|) && !th'.pc.InMu? && !th'.pc.Looking? && !th'.pc.InSend?
    requires HoldsSend(th'.pc) == HoldsSend(s.threads[t].pc) && HoldsStore(th'.pc) == HoldsStore(s.threads[t].pc)
    requires s.threads[t].phase.Connected? ==> th'.phase.Connected?
    requires if x == th'.id then Roles(c', t, th') else SameRoles(s.sess[x], c', s.threads[t], th')
    requires th'.pc.WaitSend? && th'.pc.job.Live? ==>
               x == th'.id && th'.role == Agent && SendsTo(s, x, th'.pc.job.browser)
    requires th'.pc.Dropping? ==> IsConnected(s, th'.pc.agent) && IsConnected(s, th'.pc.browser)
    requires tb <= s.table
    ensures LockInv(s.(sess := s.sess[x := c'], threads := s.threads[t := th'], table := tb))
  {
    var s' := s.(sess := s.sess[x := c'], threads := s.threads[t := th'], table := tb);
    assert ThreadOk(s', t) by { assert ThreadOk(s, t) && CellOk(s, x); }
    forall y | 0 <= y < |s.sess| ensures Agrees(s, t, y) && Agrees(s', t, y) { Mine(s, t, y); }
    LocksKept(s, s', t);
  }

  lemma ReserveStep(s: State, t: Tid, ch: Choice)
    requires LockInv(s) && Enabled(s, t) && s.threads[t].pc.InMu?
    requires s.threads[t].pc.op.ReserveOp?
    requires RoleLinkOk(s, Target(s.threads[t], s.threads[t].pc.op))
    ensures LockInv(Do(s, t, ch))
  {
    assert ThreadOk(s, t);
    var th := s.threads[t];
    var x := Target(th, th.pc.op);
    assert CellOk(s, x);
    Mine(s, t, x);
    CriticalMove(s, t, x, CellAfter(s, t, th.pc.op), ThreadAfter(s, t, th.pc.op), Do(s, t, ch).table);
  }

  lemma RoleStep(s: State, t: Tid, ch: Choice)
    requires LockInv(s) && Enabled(s, t) && s.threads[t].pc.InMu?
    requires var op := s.threads[t].pc.op; op.ReleaseOp? || op.SetAgentOp? || op.AttachOp?
    requires RoleLinkOk(s, Target(s.threads[t], s.threads[t].pc.op))
    ensures LockInv(Do(s, t, ch))
  {
    assert ThreadOk(s, t);
    var th := s.threads[t];
    var x := Target(th, th.pc.op);
    assert CellOk(s, x);
    Mine(s, t, x);
    CriticalMove(s, t, x, CellAfter(s, t, th.pc.op), ThreadAfter(s, t, th.pc.op), Do(s, t, ch).table);
  }

  lemma OfferStep(s: State, t: Tid, ch: Choice)
    requires LockInv(s) && Enabled(s, t) && s.threads[t].pc.InMu?
    requires s.threads[t].pc.op.OfferOp?
    requires RoleLinkOk(s, Target(s.threads[t], s.threads[t].pc.op))
    ensures LockInv(Do(s, t, ch))
  {
    assert ThreadOk(s, t);
    var th := s.threads[t];
    var x := Target(th, th.pc.op);
    assert CellOk(s, x);
    Mine(s, t, x);
    CriticalMove(s, t, x, CellAfter(s, t, th.pc.op), ThreadAfter(s, t, th.pc.op), Do(s, t, ch).table);
  }

  lemma CloseStep(s: State, t: Tid, ch: Choice)
    requires LockInv(s) && Enabled(s, t) && s.threads[t].pc.InMu?
    requires var op := s.threads[t].pc.op; op.TouchOp? || op.ExpiredOp? || op.CloseOp?
    requires RoleLinkOk(s, Target(s.threads[t], s.threads[t].pc.op))
    ensures LockInv(Do(s, t, ch))
  {
    assert ThreadOk(s, t);
    var th := s.threads[t];
    var x := Target(th, th.pc.op);
    assert CellOk(s, x);
    Mine(s, t, x);
    CriticalMove(s, t, x, CellAfter(s, t, th.pc.op), ThreadAfter(s, t, th.pc.op), Do(s, t, ch).table);
  }

  lemma SendStep(s: State, t: Tid, ch: Choice)
    requires LockInv(s) && Enabled(s, t) && s.threads[t].pc.InSend?
    ensures LockInv(Do(s, t, ch))
  {
    var s' := Do(s, t, ch);
    assert ThreadOk(s, t) && CellOk(s, s.threads[t].id);
    assert s'.threads[t] == s.threads[t].(pc := WaitMu(TouchOp));
    assert ThreadOk(s', t);
    forall y | 0 <= y < |s.sess| ensures Agrees(s', t, y) { Mine(s, t, y); }
    LocksKept(s, s', t);
  }

  lemma FlushStep(s: State, t: Tid, ch: Choice)
    requires LockInv(s) && Enabled(s, t) && s.threads[t].pc.Flushing?
    ensures LockInv(Do(s, t, ch))
  {
    var th, s' := s.threads[t], Do(s, t, ch);
    assert ThreadOk(s, t);
    if th.pc.rest == [] {
      Mine(s, t, th.id);
      SessionMove(s, t, Reading, th.id, s.sess[th.id].mu, None);
      assert s'.sess[th.id] == s.sess[th.id].(sendMu := None);
    } else {
      ThreadMoves(s, t, s'.threads[t]);
    }
  }

  /** t closes the socket of goroutine h, if any, and moves to pc'. */
  predicate Closes(s: State, t: Tid, h: Option<Tid>, pc': Pc, s': State) {
    && t < |s.threads| == |s'.threads| && IsThread(s, h)
    && s' == s.(threads := s'.threads)
    && s'.threads[t] == (if h == Some(t) then s.threads[t].(pc := pc', broken := true, dropped := true)
                         else s.threads[t].(pc := pc'))
    && forall u :: 0 <= u < |s.threads| && u != t ==>
         s'.threads[u] == if h == Some(u) then s.threads[u].(broken := true, dropped := true) else s.threads[u]
  }

  /** CloseBoth closes one socket at a time. */
  lemma DropCloses(s: State, t: Tid, s': State)
    requires t < |s.threads| && s.threads[t].pc.Dropping?
    requires var pc := s.threads[t].pc;
             IsThread(s, pc.agent) && IsThread(s, pc.browser) && s' == DoDrop(s, t, pc.agent, pc.browser, pc.next)
    ensures var pc := s.threads[t].pc;
            if pc.agent.Some? then Closes(s, t, pc.agent, Dropping(None, pc.browser, pc.next), s')
            else Closes(s, t, pc.browser, CloseAll(pc.next), s')
  {
  }

  lemma ClosesOthers(s: State, t: Tid, h: Option<Tid>, pc': Pc, s': State)
    requires LockInv(s) && Closes(s, t, h, pc', s') && IsConnected(s, h)
    ensures Others(s, s', t)
  {
  }

  lemma CloserOk(s: State, t: Tid, h: Option<Tid>, pc': Pc, s': State)
    requires Closes(s, t, h, pc', s') && ThreadOk(s, t) && s.threads[t].pc.Dropping? && IsConnected(s, h)
    requires var pc := s.threads[t].pc; pc' == Dropping(None, pc.browser, pc.next) || pc' == CloseAll(pc.next)
    ensures ThreadOk(s', t)
  {
    var th, th' := s.threads[t], s'.threads[t];
    assert th' == th.(pc := pc', broken := th'.broken, dropped := th'.dropped);
    assert OwnOk(th') && ListsOk(th', |s.sess|);
  }

  lemma ClosesKeepsLocks(s: State, t: Tid, h: Option<Tid>, pc': Pc, s': State)
    requires LockInv(s) && Closes(s, t, h, pc', s') && s.threads[t].pc.Dropping? && IsConnected(s, h)
    requires var pc := s.threads[t].pc; pc' == Dropping(None, pc.browser, pc.next) || pc' == CloseAll(pc.next)
    ensures LockInv(s')
  {
    assert ThreadOk(s', t) by {
      assert ThreadOk(s, t);
      CloserOk(s, t, h, pc', s');
    }
    forall y | 0 <= y < |s.sess| ensures Agrees(s', t, y) { Mine(s, t, y); }
    ClosesOthers(s, t, h, pc', s');
    LocksKept(s, s', t);
  }

  lemma DropStep(s: State, t: Tid, s': State)
    requires LockInv(s) && t < |s.threads| && s.threads[t].pc.Dropping?
    requires var pc := s.threads[t].pc;
             IsThread(s, pc.agent) && IsThread(s, pc.browser) && s' == DoDrop(s, t, pc.agent, pc.browser, pc.next)
    ensures LockInv(s')
  {
    assert ThreadOk(s, t);
    DropCloses(s, t, s');
    var pc := s.threads[t].pc;
    if pc.agent.Some? {
      ClosesKeepsLocks(s, t, pc.agent, Dropping(None, pc.browser, pc.next), s');
    } else {
      ClosesKeepsLocks(s, t, pc.browser, CloseAll(pc.next), s');
    }
  }
}
