/**
 What closing a session does and does not reach: which sessions some goroutine has still to close, and
 which connected sockets CloseBoth closes.
*/
module RelayClosing {
  import opened Options
  import opened RelaySpec
  import opened RelayProtocol
  import opened RelayInvariant
  import opened RelayPreservation
  import opened RelaySafety

  // ----- what a goroutine has still to do -----

  /** The sessions a goroutine has taken from the store and not yet closed. */
  function Pending(pc: Pc): seq<Sid> {
    match pc
    case WaitMu(op) => PendingOp(op)
    case InMu(op) => PendingOp(op)
    case Sweeping(_, _, stale) => stale
    case Dropping(_, _, next) => next
    case _ => []
  }

  function PendingOp(op: MuOp): seq<Sid> {
    match op
    case CloseOp(x, next) => [x] + next
    case ExpiredOp(_, _, _, stale) => stale
    case _ => []
  }

  lemma PendingCloseAll(sids: seq<Sid>)
    ensures Pending(CloseAll(sids)) == sids && Targets(CloseAll(sids)) == {} && Unswept(CloseAll(sids)) == {}
  {
  }

  /** The sockets a goroutine inside CloseBoth is about to close. */
  function Targets(pc: Pc): set<Tid> {
    if pc.Dropping? then
      (if pc.agent.Some? then {pc.agent.value} else {}) + (if pc.browser.Some? then {pc.browser.value} else {})
    else {}
  }

  /** The sessions a cleanup run has not looked at yet, including the one it is looking at. */
  function Unswept(pc: Pc): set<Sid> {
    match pc
    case Sweeping(_, todo, _) => todo
    case WaitMu(op) => UnsweptOp(op)
    case InMu(op) => UnsweptOp(op)
    case _ => {}
  }

  function UnsweptOp(op: MuOp): set<Sid> {
    if op.ExpiredOp? then {op.sid} + op.todo else {}
  }

  /** The time of the cleanup run a goroutine is in the loop of. */
  function SweepTime(pc: Pc): Option<int> {
    match pc
    case Sweeping(at, _, _) => Some(at)
    case WaitMu(op) => if op.ExpiredOp? then Some(op.at) else None
    case InMu(op) => if op.ExpiredOp? then Some(op.at) else None
    case _ => None
  }

  predicate NoRepeat(sids: seq<Sid>) {
    forall i, j :: 0 <= i < j < |sids| ==> sids[i] != sids[j]
  }

  predicate Carries(s: State, t: Tid, x: Sid) {
    t < |s.threads| && x in Pending(s.threads[t].pc)
  }

  predicate Old(s: State, x: Sid, at: int) {
    x < |s.sess| && at - s.sess[x].s.created > SESSION_TTL
  }

  /**
   A session is in the store and open, or exactly one goroutine has still to close it, or it is closed; and
   its tokens are empty exactly when it is closed.
  */
  ghost predicate SessionOk(s: State, x: Sid)
    requires x < |s.sess|
  {
    && (x in s.table || s.sess[x].closed ==> forall t :: !Carries(s, t, x))
    && (x in s.table ==> !s.sess[x].closed)
    && (s.sess[x].closed <==> s.sess[x].s.agentToken == "") && (s.sess[x].closed <==> s.sess[x].s.viewerToken == "")
    && (x !in s.table && !s.sess[x].closed ==> exists t :: Carries(s, t, x))
    && forall t, u :: Carries(s, t, x) && Carries(s, u, x) ==> t == u
  }

  /** No session is listed twice, and what a cleanup run has behind it is no longer old. */
  ghost predicate WorkOk(s: State, t: Tid)
    requires t < |s.threads|
  {
    var pc := s.threads[t].pc;
    && NoRepeat(Pending(pc))
    && ((pc.WaitStore? || pc.InStore?) && pc.act.Create? ==> pc.act.agentToken != "" && pc.act.viewerToken != "")
    && Unswept(pc) <= s.table
    && ((pc.WaitMu? || pc.InMu?) && pc.op.ExpiredOp? ==> pc.op.sid !in pc.op.todo)
    && (SweepTime(pc).Some? ==> forall y :: y in s.table && Old(s, y, SweepTime(pc).value) ==> y in Unswept(pc))
  }

  ghost predicate CarryInv(s: State) {
    && (forall x :: 0 <= x < |s.sess| ==> SessionOk(s, x))
    && (forall t :: 0 <= t < |s.threads| ==> WorkOk(s, t))
  }

  // ----- sockets -----

  /** Some goroutine is about to close v's socket. */
  ghost predicate Doomed(s: State, v: Tid) {
    exists t :: 0 <= t < |s.threads| && v in Targets(s.threads[t].pc)
  }

  /** v's session has v's connection in agent or browser. */
  predicate Named(s: State, v: Tid) {
    && v < |s.threads| && s.threads[v].id < |s.sess|
    && (s.sess[s.threads[v].id].s.agent == Some(v) || s.sess[s.threads[v].id].s.browser == Some(v))
  }

  /** A connected handler is named by its session, or CloseBoth has closed its socket or is about to. */
  ghost predicate SocketOk(s: State, v: Tid)
    requires v < |s.threads|
  {
    var th := s.threads[v];
    && (th.dropped ==> th.broken)
    && (!th.phase.Connected? ==> !th.dropped && !Doomed(s, v))
    && (th.phase.Connected? ==>
          && th.id < |s.sess|
          && (Named(s, v) <==> !th.dropped && !Doomed(s, v))
          && (!s.sess[th.id].closed ==> Named(s, v)))
  }

  ghost predicate SocketInv(s: State) {
    forall v :: 0 <= v < |s.threads| ==> SocketOk(s, v)
  }

  // ----- what a step leaves alone -----

  /** A step of t: the others stay where they are, no role, session ID or creation time changes. */
  ghost predicate Steps(s: State, s': State, t: Tid) {
    && t < |s.threads| == |s'.threads| && |s.sess| == |s'.sess|
    && (forall u :: 0 <= u < |s.threads| ==> Same(s.threads[u], s'.threads[u]))
    && (forall u :: 0 <= u < |s.threads| && u != t ==>
          s'.threads[u].pc == s.threads[u].pc && s'.threads[u].phase == s.threads[u].phase)
    && (forall y :: 0 <= y < |s.sess| ==> s'.sess[y].s.created == s.sess[y].s.created)
  }

  predicate Same(th: Thread, th': Thread) {
    th'.id == th.id && th'.role == th.role && (th.broken ==> th'.broken)
  }

  predicate SameNames(c: Cell, c': Cell) {
    c'.s.agent == c.s.agent && c'.s.browser == c.s.browser && c'.closed == c.closed
  }

  predicate SameTokens(c: Cell, c': Cell) {
    c'.closed == c.closed && c'.s.agentToken == c.s.agentToken && c'.s.viewerToken == c.s.viewerToken
  }

  /** The step closes no socket, names none and connects nobody. */
  ghost predicate Quiet(s: State, s': State, t: Tid) {
    && Steps(s, s', t)
    && (forall u :: 0 <= u < |s.threads| ==> s'.threads[u].dropped == s.threads[u].dropped)
    && s'.threads[t].phase.Connected? == s.threads[t].phase.Connected?
    && Targets(s'.threads[t].pc) == Targets(s.threads[t].pc)
    && (forall y :: 0 <= y < |s.sess| ==> SameNames(s.sess[y], s'.sess[y]))
  }

  /** The step takes nothing from the store and closes nothing. */
  ghost predicate Steady(s: State, s': State, t: Tid) {
    && Steps(s, s', t)
    && s'.table == s.table
    && Pending(s'.threads[t].pc) == Pending(s.threads[t].pc)
    && (forall y :: 0 <= y < |s.sess| ==> SameTokens(s.sess[y], s'.sess[y]))
  }

  lemma QuietKeeps(s: State, s': State, t: Tid)
    requires SocketInv(s) && Quiet(s, s', t)
    ensures SocketInv(s')
  {
    forall v | 0 <= v < |s'.threads| ensures SocketOk(s', v) {
      assert SocketOk(s, v);
      DoomedSame(s, s', t, v);
    }
  }

  lemma DoomedSame(s: State, s': State, t: Tid, v: Tid)
    requires Quiet(s, s', t)
    ensures Doomed(s', v) <==> Doomed(s, v)
  {
    if Doomed(s, v) {
      var u :| 0 <= u < |s.threads| && v in Targets(s.threads[u].pc);
      assert v in Targets(s'.threads[u].pc);
    }
    if Doomed(s', v) {
      var u :| 0 <= u < |s'.threads| && v in Targets(s'.threads[u].pc);
      assert v in Targets(s.threads[u].pc);
    }
  }

  lemma SteadyKeeps(s: State, s': State, t: Tid)
    requires CarryInv(s) && Steady(s, s', t) && WorkOk(s', t)
    ensures CarryInv(s')
  {
    forall x | 0 <= x < |s'.sess| ensures SessionOk(s', x) {
      assert SessionOk(s, x);
      forall u ensures Carries(s', u, x) <==> Carries(s, u, x) { }
    }
    forall u | 0 <= u < |s'.threads| ensures WorkOk(s', u) {
      if u != t { assert WorkOk(s, u); WorkSame(s, s', u); }
    }
  }

  lemma WorkSame(s: State, s': State, u: Tid)
    requires u < |s.threads| && u < |s'.threads| && WorkOk(s, u) && s'.table == s.table
    requires s'.threads[u].pc == s.threads[u].pc
    requires |s.sess| <= |s'.sess| && forall y :: y in s.table && Old(s', y, SweepAt(s, u)) ==> Old(s, y, SweepAt(s, u))
    ensures WorkOk(s', u)
  {
  }

  function SweepAt(s: State, u: Tid): int
    requires u < |s.threads|
  {
    if SweepTime(s.threads[u].pc).Some? then SweepTime(s.threads[u].pc).value else 0
  }

  // ----- steps that take a session from the store, close it or create one -----

  /** Only the goroutine that holds the write lock of the store can be in a cleanup loop. */
  lemma OneSweeper(s: State, t: Tid, u: Tid)
    requires LockInv(s) && t < |s.threads| && u < |s.threads| && u != t && HoldsStore(s.threads[t].pc)
    ensures SweepTime(s.threads[u].pc) == None && Unswept(s.threads[u].pc) == {}
  {
    assert ThreadOk(s, t) && ThreadOk(s, u);
  }

  /** t, which holds the store, takes session y out of it. */
  ghost predicate Takes(s: State, s': State, t: Tid, y: Sid) {
    && Steps(s, s', t) && y in s.table && y < |s.sess|
    && s'.table == s.table - {y}
    && Pending(s'.threads[t].pc) == Pending(s.threads[t].pc) + [y]
    && (forall x :: 0 <= x < |s.sess| ==> SameTokens(s.sess[x], s'.sess[x]))
  }

  lemma TakesKeeps(s: State, s': State, t: Tid, y: Sid)
    requires LockInv(s) && CarryInv(s) && Takes(s, s', t, y) && HoldsStore(s.threads[t].pc) && WorkOk(s', t)
    ensures CarryInv(s')
  {
    forall x | 0 <= x < |s'.sess| ensures SessionOk(s', x) {
      assert SessionOk(s, x);
      forall u ensures Carries(s', u, x) <==> Carries(s, u, x) || (u == t && x == y) { }
      assert x == y ==> Carries(s', t, x);
    }
    forall u | 0 <= u < |s'.threads| ensures WorkOk(s', u) {
      if u != t {
        assert WorkOk(s, u);
        OneSweeper(s, t, u);
      }
    }
  }

  /** t closes session y, the first it has still to close. */
  ghost predicate ClosesNext(s: State, s': State, t: Tid, y: Sid) {
    && Steps(s, s', t) && y < |s.sess|
    && s'.table == s.table
    && Pending(s.threads[t].pc) == [y] + Pending(s'.threads[t].pc)
    && (forall x :: 0 <= x < |s.sess| && x != y ==> SameTokens(s.sess[x], s'.sess[x]))
    && s'.sess[y].closed && s'.sess[y].s.agentToken == "" == s'.sess[y].s.viewerToken
  }

  lemma FirstOnce(s: State, s': State, t: Tid, y: Sid)
    requires ClosesNext(s, s', t, y) && WorkOk(s, t)
    ensures y !in Pending(s'.threads[t].pc) && NoRepeat(Pending(s'.threads[t].pc))
  {
    var before, after := Pending(s.threads[t].pc), Pending(s'.threads[t].pc);
    assert forall i :: 0 <= i < |after| ==> after[i] == before[i + 1];
    forall i | 0 <= i < |after| ensures after[i] != y { assert before[0] != before[i + 1]; }
  }

  lemma ClosesNextKeeps(s: State, s': State, t: Tid, y: Sid)
    requires CarryInv(s) && ClosesNext(s, s', t, y) && s'.threads[t].pc.Dropping?
    ensures CarryInv(s')
  {
    FirstOnce(s, s', t, y);
    assert SessionOk(s, y) && Carries(s, t, y);
    forall x | 0 <= x < |s'.sess| ensures SessionOk(s', x) {
      assert SessionOk(s, x);
      forall u ensures Carries(s', u, x) <==> Carries(s, u, x) && x != y {
        if x == y && Carries(s, u, x) { assert u == t; }
      }
    }
    forall u | 0 <= u < |s'.threads| ensures WorkOk(s', u) {
      if u != t { assert WorkOk(s, u); WorkSame(s, s', u); }
    }
  }

  /** t stores a new session, at time now. */
  ghost predicate Creates(s: State, s': State, t: Tid) {
    && t < |s.threads| == |s'.threads| && |s'.sess| == |s.sess| + 1
    && s'.sess[..|s.sess|] == s.sess
    && !s'.sess[|s.sess|].closed && s'.sess[|s.sess|].s.agent.None? && s'.sess[|s.sess|].s.browser.None?
    && s'.sess[|s.sess|].s.agentToken != "" && s'.sess[|s.sess|].s.viewerToken != ""
    && s'.table == s.table + {|s.sess|}
    && s'.threads == s.threads[t := s.threads[t].(pc := Done)]
    && Pending(s.threads[t].pc) == [] && Targets(s.threads[t].pc) == {}
  }

  lemma CreatesKeeps(s: State, s': State, t: Tid)
    requires LockInv(s) && CarryInv(s) && SocketInv(s) && Creates(s, s', t) && HoldsStore(s.threads[t].pc)
    ensures CarryInv(s') && SocketInv(s')
  {
    forall x | 0 <= x < |s'.sess| ensures SessionOk(s', x) {
      forall u ensures Carries(s', u, x) <==> Carries(s, u, x) { }
      if x < |s.sess| {
        assert SessionOk(s, x) && s'.sess[..|s.sess|][x] == s.sess[x];
      } else {
        forall u ensures !Carries(s, u, x) {
          if Carries(s, u, x) { PendingKnown(s, u, x); }
        }
      }
    }
    forall u | 0 <= u < |s'.threads| ensures WorkOk(s', u) {
      if u != t {
        assert WorkOk(s, u);
        OneSweeper(s, t, u);
      }
    }
    forall v | 0 <= v < |s'.threads| ensures SocketOk(s', v) {
      assert SocketOk(s, v);
      assert Doomed(s', v) <==> Doomed(s, v) by { DoomedByPcs(s, s', v); }
      if s.threads[v].id < |s.sess| { assert s'.sess[..|s.sess|][s.threads[v].id] == s.sess[s.threads[v].id]; }
    }
  }

  lemma PendingKnown(s: State, t: Tid, x: Sid)
    requires LockInv(s) && Carries(s, t, x)
    ensures x < |s.sess|
  {
    assert ThreadOk(s, t);
    var i :| 0 <= i < |Pending(s.threads[t].pc)| && Pending(s.threads[t].pc)[i] == x;
  }

  lemma DoomedByPcs(s: State, s': State, v: Tid)
    requires |s.threads| <= |s'.threads|
    requires forall u :: 0 <= u < |s.threads| ==> Targets(s'.threads[u].pc) == Targets(s.threads[u].pc)
    requires forall u :: |s.threads| <= u < |s'.threads| ==> Targets(s'.threads[u].pc) == {}
    ensures Doomed(s', v) <==> Doomed(s, v)
  {
    if Doomed(s, v) {
      var u :| 0 <= u < |s.threads| && v in Targets(s.threads[u].pc);
      assert v in Targets(s'.threads[u].pc);
    }
    if Doomed(s', v) {
      var u :| 0 <= u < |s'.threads| && v in Targets(s'.threads[u].pc);
      assert v in Targets(s.threads[u].pc);
    }
  }

  lemma SpawnKeepsClosing(s: State, th: Thread)
    requires LockInv(s) && CarryInv(s) && SocketInv(s) && Starts(s, th)
    ensures var s' := Apply(s, Spawn(th)); CarryInv(s') && SocketInv(s')
  {
    var s' := Apply(s, Spawn(th));
    assert Pending(th.pc) == [] && Targets(th.pc) == {};
    forall x | 0 <= x < |s'.sess| ensures SessionOk(s', x) {
      assert SessionOk(s, x);
      forall u ensures Carries(s', u, x) <==> Carries(s, u, x) { }
    }
    forall u | 0 <= u < |s'.threads| ensures WorkOk(s', u) {
      if u < |s.threads| { assert WorkOk(s, u); WorkSame(s, s', u); }
    }
    forall v | 0 <= v < |s'.threads| ensures SocketOk(s', v) {
      DoomedByPcs(s, s', v);
      if v < |s.threads| {
        assert SocketOk(s, v);
      } else {
        NobodyDoomed(s, v);
      }
    }
  }

  lemma NobodyDoomed(s: State, v: Tid)
    requires LockInv(s) && v >= |s.threads|
    ensures !Doomed(s, v)
  {
    forall u | 0 <= u < |s.threads| ensures v !in Targets(s.threads[u].pc) { assert ThreadOk(s, u); }
  }

  lemma TickKeepsClosing(s: State, d: nat)
    requires CarryInv(s) && SocketInv(s)
    ensures var s' := s.(now := s.now + d); CarryInv(s') && SocketInv(s')
  {
    var s' := s.(now := s.now + d);
    forall x | 0 <= x < |s'.sess| ensures SessionOk(s', x) {
      assert SessionOk(s, x);
      forall u ensures Carries(s', u, x) <==> Carries(s, u, x) { }
    }
    forall u | 0 <= u < |s'.threads| ensures WorkOk(s', u) { assert WorkOk(s, u); WorkSame(s, s', u); }
    forall v | 0 <= v < |s'.threads| ensures SocketOk(s', v) {
      assert SocketOk(s, v);
      DoomedByPcs(s, s', v);
    }
  }

  // ----- sockets that are named, doomed and closed -----

  /** t becomes the connected handler of its role and is named by its session. */
  ghost predicate Attaches(s: State, s': State, t: Tid) {
    && Steps(s, s', t) && s.threads[t].id < |s.sess|
    && !s.threads[t].phase.Connected? && s'.threads[t].phase.Connected?
    && (forall u :: 0 <= u < |s.threads| ==> s'.threads[u].dropped == s.threads[u].dropped)
    && Targets(s.threads[t].pc) == {} == Targets(s'.threads[t].pc)
    && (forall y :: 0 <= y < |s.sess| && y != s.threads[t].id ==> SameNames(s.sess[y], s'.sess[y]))
    && var x := s.threads[t].id; var c, c' := s.sess[x], s'.sess[x];
       && c'.closed == c.closed
       && if s.threads[t].role == Agent then c'.s.agent == Some(t) && c'.s.browser == c.s.browser
          else s.threads[t].role == Viewer && c'.s.browser == Some(t) && c'.s.agent == c.s.agent
  }

  /** No two connected handlers have the same role of a session. */
  lemma RoleIsTaken(s: State, t: Tid, u: Tid)
    requires LockInv(s) && t < |s.threads| && u < |s.threads| && u != t
    requires !s.threads[t].phase.New? && !s.threads[u].phase.New? && s.threads[u].id == s.threads[t].id
    ensures s.threads[u].role != s.threads[t].role
  {
    assert ThreadOk(s, t) && ThreadOk(s, u);
  }

  /** A session names its agent in agent and its viewer in browser. */
  lemma NamedByRole(s: State, v: Tid)
    requires LockInv(s) && RoleInv(s) && Named(s, v)
    ensures var c := s.sess[s.threads[v].id].s;
            && s.threads[v].phase.Connected?
            && (c.agent == Some(v) <==> s.threads[v].role == Agent)
            && (c.browser == Some(v) <==> s.threads[v].role == Viewer)
  {
    assert CellOk(s, s.threads[v].id) && RoleLinkOk(s, s.threads[v].id);
  }

  lemma AttachesKeeps(s: State, s': State, t: Tid)
    requires LockInv(s) && RoleInv(s) && SocketInv(s) && Attaches(s, s', t) && s.threads[t].phase.Reserved?
    ensures SocketInv(s')
  {
    forall v | 0 <= v < |s'.threads| ensures SocketOk(s', v) {
      assert SocketOk(s, v);
      DoomedByPcs(s, s', v);
      if v != t {
        if !s.threads[v].phase.New? && s.threads[v].id == s.threads[t].id { RoleIsTaken(s, t, v); }
        if Named(s, v) { NamedByRole(s, v); }
      }
    }
  }

  /** t clears the names of session x and is about to close the sockets they named. */
  ghost predicate Dooms(s: State, s': State, t: Tid, x: Sid) {
    && Steps(s, s', t) && x < |s.sess|
    && s'.threads[t].phase == s.threads[t].phase
    && (forall u :: 0 <= u < |s.threads| ==> s'.threads[u].dropped == s.threads[u].dropped)
    && Targets(s.threads[t].pc) == {}
    && s'.threads[t].pc.Dropping? && s'.threads[t].pc.agent == s.sess[x].s.agent
    && s'.threads[t].pc.browser == s.sess[x].s.browser
    && (forall y :: 0 <= y < |s.sess| && y != x ==> SameNames(s.sess[y], s'.sess[y]))
    && s'.sess[x].closed && s'.sess[x].s.agent.None? && s'.sess[x].s.browser.None?
  }

  lemma DoomsWhom(s: State, s': State, t: Tid, x: Sid, v: Tid)
    requires LockInv(s) && RoleInv(s) && Dooms(s, s', t, x)
    ensures Doomed(s', v) <==> Doomed(s, v) || (Named(s, v) && s.threads[v].id == x)
  {
    assert CellOk(s, x) && RoleLinkOk(s, x);
    if Doomed(s, v) {
      var u :| 0 <= u < |s.threads| && v in Targets(s.threads[u].pc);
      assert v in Targets(s'.threads[u].pc);
    }
    if Doomed(s', v) {
      var u :| 0 <= u < |s'.threads| && v in Targets(s'.threads[u].pc);
      assert u != t ==> v in Targets(s.threads[u].pc);
    }
    if Named(s, v) && s.threads[v].id == x { assert v in Targets(s'.threads[t].pc); }
  }

  lemma DoomsKeeps(s: State, s': State, t: Tid, x: Sid)
    requires LockInv(s) && RoleInv(s) && SocketInv(s) && Dooms(s, s', t, x)
    ensures SocketInv(s')
  {
    forall v | 0 <= v < |s'.threads| ensures SocketOk(s', v) {
      assert SocketOk(s, v);
      DoomsWhom(s, s', t, x, v);
      if Named(s, v) { NamedByRole(s, v); }
    }
  }

  lemma ClosesWhom(s: State, s': State, t: Tid, h: Option<Tid>, pc': Pc, v: Tid)
    requires Closes(s, t, h, pc', s')
    requires Targets(s.threads[t].pc) == Targets(pc') + (if h.Some? then {h.value} else {})
    ensures Doomed(s', v) ==> Doomed(s, v)
    ensures Doomed(s, v) ==> Doomed(s', v) || h == Some(v)
    ensures h == Some(v) ==> Doomed(s, v)
  {
    if Doomed(s, v) {
      var u :| 0 <= u < |s.threads| && v in Targets(s.threads[u].pc);
      assert h != Some(v) ==> v in Targets(s'.threads[u].pc);
    }
    if Doomed(s', v) {
      var u :| 0 <= u < |s'.threads| && v in Targets(s'.threads[u].pc);
      assert v in Targets(s.threads[u].pc);
    }
    if h == Some(v) { assert v in Targets(s.threads[t].pc); }
  }

  lemma ClosesKeepsSockets(s: State, s': State, t: Tid, h: Option<Tid>, pc': Pc)
    requires SocketInv(s) && Closes(s, t, h, pc', s')
    requires Targets(s.threads[t].pc) == Targets(pc') + (if h.Some? then {h.value} else {})
    ensures SocketInv(s')
  {
    forall v | 0 <= v < |s'.threads| ensures SocketOk(s', v) {
      assert SocketOk(s, v);
      ClosesWhom(s, s', t, h, pc', v);
    }
  }

  // ----- the steps -----

  lemma RequestClosing(s: State, t: Tid, ch: Choice)
    requires Enabled(s, t) && WorkOk(s, t)
    requires var pc := s.threads[t].pc; pc.Lookup? || pc.Looking? || pc.Upgrading? || pc.WaitStore?
    ensures var s' := Do(s, t, ch); Quiet(s, s', t) && Steady(s, s', t) && WorkOk(s', t)
  {
  }

  lemma LockClosing(s: State, t: Tid, ch: Choice)
    requires Enabled(s, t) && WorkOk(s, t)
    requires var pc := s.threads[t].pc; pc.WaitMu? || pc.WaitSend?
    ensures var s' := Do(s, t, ch); Quiet(s, s', t) && Steady(s, s', t) && WorkOk(s', t)
  {
    var s' := Do(s, t, ch);
    var pc := s.threads[t].pc;
    if pc.WaitMu? {
      assert s'.threads[t].pc == InMu(pc.op) && s'.table == s.table;
      WorkMoves(s, s', t);
    }
  }

  /** t keeps its lists, and the store is the same. */
  lemma WorkMoves(s: State, s': State, t: Tid)
    requires t < |s.threads| && t < |s'.threads| && WorkOk(s, t) && s'.table == s.table
    requires |s.sess| == |s'.sess| && forall y :: 0 <= y < |s.sess| ==> s'.sess[y].s.created == s.sess[y].s.created
    requires var pc, pc' := s.threads[t].pc, s'.threads[t].pc;
             && !pc'.WaitStore? && !pc'.InStore?
             && Pending(pc') == Pending(pc) && SweepTime(pc') == SweepTime(pc) && Unswept(pc') == Unswept(pc)
             && ((pc'.WaitMu? || pc'.InMu?) && pc'.op.ExpiredOp? ==> pc'.op.sid !in pc'.op.todo)
    ensures WorkOk(s', t)
  {
  }

  lemma ReadClosing(s: State, t: Tid, ch: Choice)
    requires t < |s.threads| && WorkOk(s, t) && s.threads[t].pc.Reading?
    ensures var s' := s.(threads := s.threads[t := AfterRead(s.threads[t], ch)]);
            Quiet(s, s', t) && Steady(s, s', t) && WorkOk(s', t)
  {
  }

  lemma SendClosing(s: State, t: Tid, b: Tid, f: Frame, ok: bool)
    requires t < |s.threads| && WorkOk(s, t) && s.threads[t].pc.InSend? && b < |s.threads| && s.threads[t].id < |s.sess|
    ensures var s' := DoSend(s, t, b, f, ok); Quiet(s, s', t) && Steady(s, s', t) && WorkOk(s', t)
  {
  }

  lemma FlushClosing(s: State, t: Tid, rest: seq<Frame>, ok: bool)
    requires t < |s.threads| && WorkOk(s, t) && s.threads[t].pc.Flushing? && s.threads[t].id < |s.sess|
    ensures var s' := DoFlush(s, t, rest, ok); Quiet(s, s', t) && Steady(s, s', t) && WorkOk(s', t)
  {
  }

  lemma SocketClosing(s: State, t: Tid, ch: Choice)
    requires Enabled(s, t) && WorkOk(s, t)
    requires var pc := s.threads[t].pc; pc.Reading? || pc.InSend? || pc.Flushing?
    ensures var s' := Do(s, t, ch); Quiet(s, s', t) && Steady(s, s', t) && WorkOk(s', t)
  {
    var pc := s.threads[t].pc;
    if pc.Reading? {
      ReadClosing(s, t, ch);
    } else if pc.InSend? {
      SendClosing(s, t, pc.viewer, pc.frame, ch.ok);
    } else {
      FlushClosing(s, t, pc.rest, ch.ok);
    }
  }

  lemma SweepClosing(s: State, t: Tid, ch: Choice)
    requires Enabled(s, t) && WorkOk(s, t) && s.threads[t].pc.Sweeping?
    ensures var s' := Do(s, t, ch); Quiet(s, s', t) && Steady(s, s', t) && WorkOk(s', t)
  {
    var pc := s.threads[t].pc;
    PendingCloseAll(pc.stale);
    if pc.todo != {} {
      var x := PickFrom(pc.todo, ch.pick);
      assert {x} + (pc.todo - {x}) == pc.todo;
      WorkMoves(s, Do(s, t, ch), t);
    }
  }

  lemma StartSweepClosing(s: State, t: Tid, ch: Choice)
    requires Enabled(s, t) && WorkOk(s, t) && s.threads[t].pc.InStore? && s.threads[t].pc.act.Sweep?
    ensures var s' := Do(s, t, ch); Quiet(s, s', t) && Steady(s, s', t) && WorkOk(s', t)
  {
  }

  lemma DeleteClosing(s: State, t: Tid, ch: Choice)
    requires Inv(s) && Enabled(s, t) && WorkOk(s, t) && s.threads[t].pc.InStore? && s.threads[t].pc.act.Delete?
    ensures var s' := Do(s, t, ch);
            && Quiet(s, s', t) && WorkOk(s', t)
            && if s.threads[t].id in s.table then Takes(s, s', t, s.threads[t].id) else Steady(s, s', t)
  {
    PendingCloseAll([s.threads[t].id]);
  }

  lemma ExpiredMove(s: State, t: Tid, op: MuOp)
    requires t < |s.threads| && s.threads[t].pc == InMu(op) && op.ExpiredOp? && op.sid < |s.sess|
    ensures var s' := DoMu(s, t, op);
            && Quiet(s, s', t)
            && s'.threads[t].pc.Sweeping? && s'.threads[t].pc.at == op.at && s'.threads[t].pc.todo == op.todo
            && (forall y :: 0 <= y < |s.sess| ==> SameTokens(s.sess[y], s'.sess[y]))
            && if s.sess[op.sid].s.IsExpired(op.at)
               then s'.table == s.table - {op.sid} && s'.threads[t].pc.stale == op.stale + [op.sid]
               else s'.table == s.table && s'.threads[t].pc.stale == op.stale
  {
  }

  lemma ExpiredClosing(s: State, t: Tid, ch: Choice)
    requires Inv(s) && CarryInv(s) && Enabled(s, t) && s.threads[t].pc.InMu? && s.threads[t].pc.op.ExpiredOp?
    ensures var s', op := Do(s, t, ch), s.threads[t].pc.op;
            && Quiet(s, s', t) && WorkOk(s', t)
            && if s.sess[op.sid].s.IsExpired(op.at) then Takes(s, s', t, op.sid) else Steady(s, s', t)
  {
    var op := s.threads[t].pc.op;
    assert WorkOk(s, t) && RoleLinkOk(s, op.sid) && SessionOk(s, op.sid);
    ExpiryIsAge(s.sess[op.sid].s, op.at);
    assert !Carries(s, t, op.sid);
    ExpiredMove(s, t, op);
    if s.sess[op.sid].s.IsExpired(op.at) { assert Takes(s, Do(s, t, ch), t, op.sid); }
  }

  /** The critical sections that neither attach, close nor take a session from the store. */
  predicate IsQuietOp(op: MuOp) {
    op.ReserveOp? || op.ReleaseOp? || op.OfferOp? || op.TouchOp?
  }

  lemma QuietCell(s: State, t: Tid, op: MuOp)
    requires t < |s.threads| && s.threads[t].id < |s.sess| && IsQuietOp(op)
    ensures var c, c' := s.sess[s.threads[t].id], CellAfter(s, t, op);
            SameNames(c, c') && SameTokens(c, c') && c'.s.created == c.s.created
  {
  }

  lemma QuietThread(s: State, t: Tid, op: MuOp)
    requires t < |s.threads| && ThreadOk(s, t) && s.threads[t].pc == InMu(op)
    requires s.threads[t].id < |s.sess| && IsQuietOp(op)
    ensures var th, th' := s.threads[t], ThreadAfter(s, t, op);
            && Same(th, th') && th'.dropped == th.dropped && th'.phase.Connected? == th.phase.Connected?
            && Pending(th'.pc) == [] && Targets(th'.pc) == {} && Unswept(th'.pc) == {} && SweepTime(th'.pc) == None
            && !th'.pc.WaitStore? && !th'.pc.InStore? && !(th'.pc.WaitMu? && th'.pc.op.ExpiredOp?) && !th'.pc.InMu?
  {
  }

  lemma QuietCritical(s: State, t: Tid, op: MuOp)
    requires t < |s.threads| && ThreadOk(s, t) && WorkOk(s, t) && s.threads[t].pc == InMu(op)
    requires s.threads[t].id < |s.sess| && IsQuietOp(op)
    ensures var s' := DoMu(s, t, op); Quiet(s, s', t) && Steady(s, s', t) && WorkOk(s', t)
  {
    QuietCell(s, t, op);
    QuietThread(s, t, op);
  }

  lemma AttachClosing(s: State, t: Tid, ch: Choice)
    requires Inv(s) && Enabled(s, t) && WorkOk(s, t) && s.threads[t].pc.InMu?
    requires var op := s.threads[t].pc.op; op.SetAgentOp? || op.AttachOp?
    ensures var s' := Do(s, t, ch);
            Attaches(s, s', t) && s.threads[t].phase.Reserved? && Steady(s, s', t) && WorkOk(s', t)
  {
    assert ThreadOk(s, t);
  }

  lemma CloseClosing(s: State, t: Tid, ch: Choice)
    requires Inv(s) && Enabled(s, t) && s.threads[t].pc.InMu? && s.threads[t].pc.op.CloseOp?
    ensures var s', x := Do(s, t, ch), s.threads[t].pc.op.sid;
            && Dooms(s, s', t, x) && ClosesNext(s, s', t, x)
            && s'.threads[t].pc.Dropping?
  {
  }

  lemma ClosesIsSteady(s: State, s': State, t: Tid, h: Option<Tid>, pc': Pc)
    requires CarryInv(s) && Closes(s, t, h, pc', s')
    requires s.threads[t].pc.Dropping? && Pending(pc') == s.threads[t].pc.next
    requires Unswept(pc') == {} && SweepTime(pc') == None && !pc'.WaitStore? && !pc'.InStore?
    ensures CarryInv(s')
  {
    assert WorkOk(s, t);
    SteadyKeeps(s, s', t);
  }

  lemma DropClosing(s: State, t: Tid, s': State)
    requires CarryInv(s) && SocketInv(s) && t < |s.threads| && s.threads[t].pc.Dropping?
    requires var pc := s.threads[t].pc;
             IsThread(s, pc.agent) && IsThread(s, pc.browser) && s' == DoDrop(s, t, pc.agent, pc.browser, pc.next)
    ensures CarryInv(s') && SocketInv(s')
  {
    var pc := s.threads[t].pc;
    DropCloses(s, t, s');
    PendingCloseAll(pc.next);
    var h, pc' := if pc.agent.Some? then pc.agent else pc.browser,
                  if pc.agent.Some? then Dropping(None, pc.browser, pc.next) else CloseAll(pc.next);
    ClosesKeepsSockets(s, s', t, h, pc');
    ClosesIsSteady(s, s', t, h, pc');
  }

  lemma CriticalKeepsClosing(s: State, t: Tid, ch: Choice)
    requires Inv(s) && CarryInv(s) && SocketInv(s) && Enabled(s, t) && s.threads[t].pc.InMu?
    ensures var s' := Do(s, t, ch); CarryInv(s') && SocketInv(s')
  {
    var s', op := Do(s, t, ch), s.threads[t].pc.op;
    assert WorkOk(s, t);
    if op.ExpiredOp? {
      ExpiredClosing(s, t, ch);
      QuietKeeps(s, s', t);
      if s.sess[op.sid].s.IsExpired(op.at) { TakesKeeps(s, s', t, op.sid); } else { SteadyKeeps(s, s', t); }
    } else if op.CloseOp? {
      CloseClosing(s, t, ch);
      DoomsKeeps(s, s', t, op.sid);
      ClosesNextKeeps(s, s', t, op.sid);
    } else if op.SetAgentOp? || op.AttachOp? {
      AttachClosing(s, t, ch);
      AttachesKeeps(s, s', t);
      SteadyKeeps(s, s', t);
    } else {
      assert ThreadOk(s, t);
      QuietCritical(s, t, op);
      QuietKeeps(s, s', t);
      SteadyKeeps(s, s', t);
    }
  }

  lemma StoreKeepsClosing(s: State, t: Tid, ch: Choice)
    requires Inv(s) && CarryInv(s) && SocketInv(s) && Enabled(s, t) && s.threads[t].pc.InStore?
    ensures var s' := Do(s, t, ch); CarryInv(s') && SocketInv(s')
  {
    var s', act := Do(s, t, ch), s.threads[t].pc.act;
    assert WorkOk(s, t);
    match act {
      case Create(_, _) => CreatesKeeps(s, s', t);
      case Sweep(_) =>
        StartSweepClosing(s, t, ch);
        QuietKeeps(s, s', t);
        SteadyKeeps(s, s', t);
      case Delete =>
        DeleteClosing(s, t, ch);
        QuietKeeps(s, s', t);
        if s.threads[t].id in s.table { TakesKeeps(s, s', t, s.threads[t].id); } else { SteadyKeeps(s, s', t); }
    }
  }

  lemma StepKeepsClosing(s: State, t: Tid, ch: Choice)
    requires Inv(s) && CarryInv(s) && SocketInv(s) && Enabled(s, t)
    ensures var s' := Do(s, t, ch); CarryInv(s') && SocketInv(s')
  {
    var s', pc := Do(s, t, ch), s.threads[t].pc;
    if pc.InMu? {
      CriticalKeepsClosing(s, t, ch);
    } else if pc.InStore? {
      StoreKeepsClosing(s, t, ch);
    } else if pc.Dropping? {
      DropClosing(s, t, s');
    } else {
      assert WorkOk(s, t);
      assert Quiet(s, s', t) && Steady(s, s', t) && WorkOk(s', t) by {
        if pc.WaitMu? || pc.WaitSend? {
          LockClosing(s, t, ch);
        } else if pc.Sweeping? {
          SweepClosing(s, t, ch);
        } else if pc.Reading? || pc.InSend? || pc.Flushing? {
          SocketClosing(s, t, ch);
        } else {
          RequestClosing(s, t, ch);
        }
      }
      QuietKeeps(s, s', t);
      SteadyKeeps(s, s', t);
    }
  }

  /** Every reachable state: the invariant of module RelayInvariant, and where closing stands. */
  ghost predicate FullInv(s: State) {
    Inv(s) && CarryInv(s) && SocketInv(s)
  }

  lemma EventKeepsClosing(s: State, e: Event)
    requires FullInv(s) && Valid(s, e)
    ensures FullInv(Apply(s, e))
  {
    EventKeeps(s, e);
    match e
    case Act(t, ch) => StepKeepsClosing(s, t, ch);
    case Spawn(th) => SpawnKeepsClosing(s, th);
    case Tick(d) => TickKeepsClosing(s, d);
  }

  lemma {:induction false} RunKeepsClosing(s: State, es: seq<Event>, s': State)
    requires FullInv(s) && Runs(s, es, s')
    ensures FullInv(s')
    decreases |es|
  {
    if es != [] {
      EventKeepsClosing(s, es[0]);
      RunKeepsClosing(Apply(s, es[0]), es[1..], s');
    }
  }
}
