/**
 Which connections closing a session ends. CloseBoth closes the sockets the session names at that moment; a
 handler that reserved its role before and attaches after is named by a session nobody will close again.
*/
module RelayEscape {
  import opened Options
  import opened RelaySpec
  import opened RelayProtocol
  import opened RelayInvariant
  import opened RelayPreservation
  import opened RelayClosing
  import opened RelayTheorems

  lemma ReachableClosing(now: int, es: seq<Event>, s: State)
    requires Runs(Init(now), es, s)
    ensures FullInv(s)
  {
    RunKeepsClosing(Init(now), es, s);
  }

  /**
   In every reachable state a connected handler is named by its session, or the session is closed and its
   socket is broken or about to be closed. So CloseBoth on an open session reaches every live socket of it.
  */
  lemma OpenSessionsNameTheirSockets(now: int, es: seq<Event>, s: State, v: Tid)
    requires Runs(Init(now), es, s) && v < |s.threads| && s.threads[v].phase.Connected?
    ensures s.threads[v].id < |s.sess|
    ensures !s.sess[s.threads[v].id].closed ==> Named(s, v)
    ensures Named(s, v) || s.threads[v].broken || Doomed(s, v)
  {
    ReachableClosing(now, es, s);
    assert SocketOk(s, v);
  }

  /** In every reachable state a session is in the store, or closed, or exactly one goroutine has still to close it. */
  lemma RemovedIsClosedOrCarried(now: int, es: seq<Event>, s: State, x: Sid)
    requires Runs(Init(now), es, s) && x < |s.sess|
    ensures x in s.table ==> !s.sess[x].closed && forall t :: !Carries(s, t, x)
    ensures x !in s.table && !s.sess[x].closed ==> exists t :: Carries(s, t, x)
    ensures s.sess[x].closed ==> forall t :: !Carries(s, t, x)
    ensures forall t, u :: Carries(s, t, x) && Carries(s, u, x) ==> t == u
  {
    ReachableClosing(now, es, s);
    assert SessionOk(s, x);
  }

  /** When a cleanup run is through its loop, no session in the store is expired at its time. */
  lemma SweepLeavesNoneExpired(now: int, es: seq<Event>, s: State, t: Tid, ch: Choice, x: Sid)
    requires Runs(Init(now), es, s) && Enabled(s, t)
    requires s.threads[t].pc.Sweeping? && s.threads[t].pc.todo == {} && x in s.table
    ensures Do(s, t, ch).table == s.table && Do(s, t, ch).writer == None
    ensures x < |s.sess| && !s.sess[x].s.IsExpired(s.threads[t].pc.at)
  {
    ReachableClosing(now, es, s);
    assert WorkOk(s, t) && SetOk(|s.sess|, s.table);
    assert RoleLinkOk(s, x);
    ExpiryIsAge(s.sess[x].s, s.threads[t].pc.at);
  }

  // ----- the exact condition -----

  /** Nobody is connected or named anew, and nobody loses its name. */
  ghost predicate Frozen(s: State, s': State) {
    && |s.threads| <= |s'.threads| && |s.sess| <= |s'.sess|
    && (forall u :: 0 <= u < |s.threads| ==>
          s'.threads[u].id == s.threads[u].id && s'.threads[u].phase.Connected? == s.threads[u].phase.Connected?)
    && (forall u :: |s.threads| <= u < |s'.threads| ==> !s'.threads[u].phase.Connected?)
    && (forall y :: 0 <= y < |s.sess| ==> SameNames(s.sess[y], s'.sess[y]))
  }

  lemma RestIsQuiet(s: State, t: Tid, ch: Choice)
    requires FullInv(s) && Enabled(s, t)
    requires var pc := s.threads[t].pc; !pc.Dropping? && !pc.InMu? && !pc.InStore?
    ensures Quiet(s, Do(s, t, ch), t)
  {
    var pc := s.threads[t].pc;
    assert WorkOk(s, t);
    if pc.WaitMu? || pc.WaitSend? {
      LockClosing(s, t, ch);
    } else if pc.Sweeping? {
      SweepClosing(s, t, ch);
    } else if pc.Reading? || pc.InSend? || pc.Flushing? {
      SocketClosing(s, t, ch);
    } else {
      RequestClosing(s, t, ch);
    }
  }

  lemma QuietIsFrozen(s: State, s': State, t: Tid)
    requires Quiet(s, s', t)
    ensures Frozen(s, s')
  {
    assert s.threads[t].id == s'.threads[t].id by { assert Same(s.threads[t], s'.threads[t]); }
  }

  lemma CreateFrozen(s: State, t: Tid, ch: Choice)
    requires Enabled(s, t) && s.threads[t].pc.InStore? && s.threads[t].pc.act.Create?
    ensures Frozen(s, Do(s, t, ch))
  {
  }

  lemma DropFrozen(s: State, t: Tid, s': State, h: Option<Tid>, pc': Pc)
    requires Closes(s, t, h, pc', s')
    ensures Frozen(s, s')
  {
  }

  lemma CriticalIsQuiet(s: State, t: Tid, ch: Choice)
    requires FullInv(s) && Enabled(s, t) && s.threads[t].pc.InMu?
    requires var op := s.threads[t].pc.op; !op.CloseOp? && !op.SetAgentOp? && !op.AttachOp?
    ensures Quiet(s, Do(s, t, ch), t)
  {
    assert WorkOk(s, t) && ThreadOk(s, t);
    if s.threads[t].pc.op.ExpiredOp? { ExpiredClosing(s, t, ch); } else { QuietCritical(s, t, s.threads[t].pc.op); }
  }

  lemma StoreIsQuiet(s: State, t: Tid, ch: Choice)
    requires FullInv(s) && Enabled(s, t) && s.threads[t].pc.InStore? && !s.threads[t].pc.act.Create?
    ensures Quiet(s, Do(s, t, ch), t)
  {
    assert WorkOk(s, t);
    if s.threads[t].pc.act.Sweep? { StartSweepClosing(s, t, ch); } else { DeleteClosing(s, t, ch); }
  }

  lemma StepFrozen(s: State, t: Tid, ch: Choice)
    requires FullInv(s) && Enabled(s, t)
    requires s.threads[t].pc.InMu? ==>
               var op := s.threads[t].pc.op; !op.CloseOp? && !op.SetAgentOp? && !op.AttachOp?
    ensures Frozen(s, Do(s, t, ch))
  {
    var pc, s' := s.threads[t].pc, Do(s, t, ch);
    if pc.InStore? && pc.act.Create? {
      CreateFrozen(s, t, ch);
    } else if pc.Dropping? {
      assert ThreadOk(s, t);
      DropCloses(s, t, s');
      if pc.agent.Some? {
        DropFrozen(s, t, s', pc.agent, Dropping(None, pc.browser, pc.next));
      } else {
        DropFrozen(s, t, s', pc.browser, CloseAll(pc.next));
      }
    } else {
      assert Quiet(s, s', t) by {
        if pc.InMu? {
          CriticalIsQuiet(s, t, ch);
        } else if pc.InStore? {
          StoreIsQuiet(s, t, ch);
        } else {
          RestIsQuiet(s, t, ch);
        }
      }
      QuietIsFrozen(s, s', t);
    }
  }

  /** Session x is closed, and its handler t has not attached yet or was named when it did. */
  predicate AttachesLate(s: State, x: Sid, t: Tid) {
    IsClosed(s, x) && t < |s.threads| && s.threads[t].id == x && (s.threads[t].phase.Connected? ==> Named(s, t))
  }

  /** Session x is closed and no longer names its connected handler t. */
  predicate CutOff(s: State, x: Sid, t: Tid) {
    IsClosed(s, x) && t < |s.threads| && s.threads[t].id == x && s.threads[t].phase.Connected? && !Named(s, t)
  }

  /** t is connected to the open session x. */
  predicate ConnectedToOpen(s: State, x: Sid, t: Tid) {
    x < |s.sess| && !s.sess[x].closed && t < |s.threads| && s.threads[t].id == x && s.threads[t].phase.Connected?
  }

  lemma AttachFate(s: State, s': State, u: Tid, x: Sid, t: Tid)
    requires LockInv(s) && RoleInv(s) && Attaches(s, s', u) && s.threads[u].phase.Reserved?
    ensures AttachesLate(s, x, t) ==> AttachesLate(s', x, t)
    ensures CutOff(s, x, t) ==> CutOff(s', x, t)
    ensures ConnectedToOpen(s, x, t) ==> ConnectedToOpen(s', x, t)
    ensures IsConnected(s, Some(t)) ==> IsConnected(s', Some(t))
  {
    if (AttachesLate(s, x, t) || CutOff(s, x, t)) && t != u {
      if !s.threads[t].phase.New? && s.threads[u].id == x { RoleIsTaken(s, u, t); }
      if Named(s, t) { NamedByRole(s, t); }
    }
  }

  lemma EventFate(s: State, e: Event, x: Sid, t: Tid)
    requires FullInv(s) && Valid(s, e)
    ensures AttachesLate(s, x, t) ==> AttachesLate(Apply(s, e), x, t)
    ensures CutOff(s, x, t) ==> CutOff(Apply(s, e), x, t)
    ensures ConnectedToOpen(s, x, t) ==> ConnectedToOpen(Apply(s, e), x, t) || CutOff(Apply(s, e), x, t)
    ensures IsConnected(s, Some(t)) ==> IsConnected(Apply(s, e), Some(t))
  {
    var s' := Apply(s, e);
    if e.Act? && s.threads[e.t].pc.InMu? && (s.threads[e.t].pc.op.SetAgentOp? || s.threads[e.t].pc.op.AttachOp?) {
      assert WorkOk(s, e.t);
      AttachClosing(s, e.t, e.ch);
      AttachFate(s, s', e.t, x, t);
    } else if e.Act? && s.threads[e.t].pc.InMu? && s.threads[e.t].pc.op.CloseOp? {
      var y := s.threads[e.t].pc.op.sid;
      assert SessionOk(s, y) && Carries(s, e.t, y);
      CloseClosing(s, e.t, e.ch);
    } else if e.Act? {
      StepFrozen(s, e.t, e.ch);
    }
  }

  lemma {:induction false} RunFate(s: State, es: seq<Event>, s': State, x: Sid, t: Tid)
    requires FullInv(s) && Runs(s, es, s')
    ensures AttachesLate(s, x, t) ==> AttachesLate(s', x, t)
    ensures CutOff(s, x, t) ==> CutOff(s', x, t)
    ensures ConnectedToOpen(s, x, t) ==> ConnectedToOpen(s', x, t) || CutOff(s', x, t)
    ensures IsConnected(s, Some(t)) ==> IsConnected(s', Some(t))
    decreases |es|
  {
    if es != [] {
      EventKeepsClosing(s, es[0]);
      EventFate(s, es[0], x, t);
      RunFate(Apply(s, es[0]), es[1..], s', x, t);
    }
  }

  /** The close section by which goroutine c closes session x comes next. */
  ghost predicate ClosesAt(s: State, c: Tid, x: Sid) {
    Enabled(s, c) && s.threads[c].pc.InMu? && s.threads[c].pc.op.CloseOp? && s.threads[c].pc.op.sid == x
  }

  predicate IsHandlerOf(s: State, t: Tid, x: Sid) {
    t < |s.threads| && s.threads[t].id == x
  }

  lemma CloseFate(s: State, c: Tid, ch: Choice, x: Sid, t: Tid)
    requires FullInv(s) && ClosesAt(s, c, x) && HoldsRole(s, x, t)
    ensures s.threads[t].phase.Connected? ==> CutOff(Do(s, c, ch), x, t)
    ensures s.threads[t].phase.Reserved? ==> AttachesLate(Do(s, c, ch), x, t)
  {
    CloseClosing(s, c, ch);
  }

  /**
   CloseBoth runs on a session at most once, and when it is through with a connected handler's socket it has
   closed it exactly if the handler was connected when the close section ran, and has spared it exactly if
   the handler was then still between its reservation and SetAgent or SetBrowserAndFlush. A spared handler
   attached to a session whose tokens were already empty, and stays named in it for good.
  */
  lemma SparedIffLate(now: int, es: seq<Event>, s: State, c: Tid, ch: Choice,
                      es': seq<Event>, s': State, x: Sid, t: Tid)
    requires Runs(Init(now), es, s) && ClosesAt(s, c, x) && Runs(Do(s, c, ch), es', s')
    requires IsHandlerOf(s', t, x) && s'.threads[t].phase.Connected? && !Doomed(s', t)
    ensures HoldsRole(s, x, t)
    ensures s'.threads[t].dropped <==> s.threads[t].phase.Connected?
    ensures !s'.threads[t].dropped <==> s.threads[t].phase.Reserved?
    ensures s'.threads[t].dropped ==> s'.threads[t].broken
    ensures !s'.threads[t].dropped <==> Named(s', t)
    ensures Do(s, c, ch).sess[x].s.agentToken == "" == Do(s, c, ch).sess[x].s.viewerToken
  {
    ReachableClosing(now, es, s);
    var s1 := Do(s, c, ch);
    EventKeepsClosing(s, Act(c, ch));
    NoReserveAfterClose(s1, es', s', x, t);
    assert HoldsRole(s1, x, t);
    CloseClosing(s, c, ch);
    PhaseAtClose(s, c, ch, x, t);
    CloseFate(s, c, ch, x, t);
    RunFate(s1, es', s', x, t);
    RunKeepsClosing(s1, es', s');
    assert SocketOk(s', t);
  }

  lemma PhaseAtClose(s: State, c: Tid, ch: Choice, x: Sid, t: Tid)
    requires FullInv(s) && ClosesAt(s, c, x) && HoldsRole(Do(s, c, ch), x, t)
    ensures HoldsRole(s, x, t)
  {
    CloseClosing(s, c, ch);
  }

  /**
   What SetAgent and SetBrowserAndFlush could test under `mu`: once the session is closed, CloseBoth reaches
   the connection attached here exactly if the tokens are not empty now.
  */
  lemma ReachedIffTokens(now: int, es: seq<Event>, s: State, t: Tid, ch: Choice, es': seq<Event>, s': State)
    requires Runs(Init(now), es, s) && Enabled(s, t) && s.threads[t].pc.InMu?
    requires s.threads[t].pc.op.SetAgentOp? || s.threads[t].pc.op.AttachOp?
    requires Runs(Do(s, t, ch), es', s') && IsClosed(s', s.threads[t].id) && !Doomed(s', t)
    ensures t < |s'.threads| && s.threads[t].id < |s.sess|
    ensures var c := s.sess[s.threads[t].id].s;
            && (s'.threads[t].dropped <==> c.agentToken != "")
            && (c.agentToken == "" <==> c.viewerToken == "")
  {
    ReachableClosing(now, es, s);
    var s1, x := Do(s, t, ch), s.threads[t].id;
    EventKeepsClosing(s, Act(t, ch));
    assert WorkOk(s, t);
    AttachClosing(s, t, ch);
    assert SessionOk(s, x);
    if s.sess[x].closed {
      assert Named(s1, t);
      assert AttachesLate(s1, x, t);
    } else {
      assert ConnectedToOpen(s1, x, t);
    }
    RunFate(s1, es', s', x, t);
    RunKeepsClosing(s1, es', s');
    assert SocketOk(s', t);
  }

  // ----- a run in which a connection outlives its session -----

  lemma First(s: State, e: Event, s1: State, es: seq<Event>, s': State)
    requires Valid(s, e) && Apply(s, e) == s1 && Runs(s1, es, s')
    ensures Runs(s, [e] + es, s')
  {
    assert ([e] + es)[1..] == es;
  }

  lemma {:induction false} InTurn(s: State, es: seq<Event>, s1: State, es': seq<Event>, s': State)
    requires Runs(s, es, s1) && Runs(s1, es', s')
    ensures Runs(s, es + es', s')
    decreases |es|
  {
    if es == [] {
      assert es + es' == es';
    } else {
      assert (es + es')[1..] == es[1..] + es';
      InTurn(Apply(s, es[0]), es[1..], s1, es', s');
    }
  }

  const GO := Choice(true, None, 0)
  const LATE: int := SESSION_TTL + 1

  function Plain(pc: Pc): Thread {
    NOBODY.(pc := pc)
  }

  function AgentAt(pc: Pc, phase: Phase): Thread {
    Thread(pc, Agent, 0, "a", phase, [], [], false, false)
  }

  const CREATED := NewSession<Tid, Frame>("a", "v", 0)

  function Fresh(mu: Option<Tid>): Cell {
    NewCell("a", "v", 0).(mu := mu)
  }

  function Bound(mu: Option<Tid>): Cell {
    Fresh(mu).(s := CREATED.Reserve(Agent, "a", 0), agentHolder := Some(1))
  }

  function Shut(mu: Option<Tid>): Cell {
    Bound(mu).(s := Bound(mu).s.Close(), closed := true)
  }

  /** A session has been created, and goroutine 1 has reserved its agent role; the upgrade is under way. */
  function Upgrades(now: int): State {
    State(now, None, {}, {0}, [Bound(None)], [Plain(Done), AgentAt(Upgrading, Reserved)])
  }

  lemma SessionIsCreated() returns (es: seq<Event>)
    ensures Runs(Init(0), es, State(0, None, {}, {0}, [Fresh(None)], [Plain(Done)]))
  {
    var act := Create("a", "v");
    var s1 := State(0, None, {}, {}, [], [Plain(WaitStore(act))]);
    var s2 := State(0, Some(0), {}, {}, [], [Plain(InStore(act))]);
    var s3 := State(0, None, {}, {0}, [Fresh(None)], [Plain(Done)]);
    assert Apply(s2, Act(0, GO)) == s3;
    First(s2, Act(0, GO), s3, [], s3);
    First(s1, Act(0, GO), s2, [Act(0, GO)] + [], s3);
    First(Init(0), Spawn(Plain(WaitStore(act))), s1, [Act(0, GO)] + ([Act(0, GO)] + []), s3);
    es := [Spawn(Plain(WaitStore(act)))] + ([Act(0, GO)] + ([Act(0, GO)] + []));
  }

  lemma AgentReserves() returns (es: seq<Event>)
    ensures Runs(State(0, None, {}, {0}, [Fresh(None)], [Plain(Done)]), es, Upgrades(0))
  {
    var s3 := State(0, None, {}, {0}, [Fresh(None)], [Plain(Done)]);
    var s4 := State(0, None, {}, {0}, [Fresh(None)], [Plain(Done), AgentAt(Lookup, New)]);
    var s5 := State(0, None, {1}, {0}, [Fresh(None)], [Plain(Done), AgentAt(Looking, New)]);
    var s6 := State(0, None, {}, {0}, [Fresh(None)], [Plain(Done), AgentAt(WaitMu(ReserveOp), New)]);
    var s7 := State(0, None, {}, {0}, [Fresh(Some(1))], [Plain(Done), AgentAt(InMu(ReserveOp), New)]);
    var go := Act(1, GO);
    assert Apply(s7, go) == Upgrades(0);
    First(s7, go, Upgrades(0), [], Upgrades(0));
    First(s6, go, s7, [go] + [], Upgrades(0));
    assert {1} - {1} == {};
    First(s5, go, s6, [go] + ([go] + []), Upgrades(0));
    First(s4, go, s5, [go] + ([go] + ([go] + [])), Upgrades(0));
    First(s3, Spawn(AgentAt(Lookup, New)), s4, [go] + ([go] + ([go] + ([go] + []))), Upgrades(0));
    es := [Spawn(AgentAt(Lookup, New))] + ([go] + ([go] + ([go] + ([go] + []))));
  }

  /** The state while cleanup goroutine 2 is at pc and the agent's upgrade goes on. */
  function Cleaning(writer: Option<Tid>, table: set<Sid>, cell: Cell, pc: Pc): State {
    State(LATE, writer, {}, table, [cell], [Plain(Done), AgentAt(Upgrading, Reserved), Plain(pc)])
  }

  lemma CleanupStarts() returns (es: seq<Event>)
    ensures Runs(Upgrades(0), es, Cleaning(Some(2), {0}, Bound(None), Sweeping(LATE, {0}, [])))
  {
    var go := Act(2, GO);
    var start := Plain(WaitStore(Sweep(LATE)));
    var s10 := Cleaning(None, {0}, Bound(None), WaitStore(Sweep(LATE)));
    var s11 := Cleaning(Some(2), {0}, Bound(None), InStore(Sweep(LATE)));
    var s12 := Cleaning(Some(2), {0}, Bound(None), Sweeping(LATE, {0}, []));
    First(s11, go, s12, [], s12);
    First(s10, go, s11, [go] + [], s12);
    First(Upgrades(LATE), Spawn(start), s10, [go] + ([go] + []), s12);
    es := [Spawn(start)] + ([go] + ([go] + []));
    First(Upgrades(0), Tick(LATE), Upgrades(LATE), es, s12);
    es := [Tick(LATE)] + es;
  }

  /** The critical section in which cleanup finds the session expired. */
  lemma CleanupFindsExpired()
    ensures var op := ExpiredOp(0, LATE, {}, []);
            DoMu(Cleaning(Some(2), {0}, Bound(Some(2)), InMu(op)), 2, op)
            == Cleaning(Some(2), {}, Bound(None), Sweeping(LATE, {}, [0]))
  {
    assert {0} - {0} == {} && [] + [0] == [0];
  }

  lemma CleanupTakes() returns (es: seq<Event>)
    ensures Runs(Cleaning(Some(2), {0}, Bound(None), Sweeping(LATE, {0}, [])), es,
                 Cleaning(Some(2), {}, Bound(None), Sweeping(LATE, {}, [0])))
  {
    var go := Act(2, GO);
    var op := ExpiredOp(0, LATE, {}, []);
    var s12 := Cleaning(Some(2), {0}, Bound(None), Sweeping(LATE, {0}, []));
    var s13 := Cleaning(Some(2), {0}, Bound(None), WaitMu(op));
    var s14 := Cleaning(Some(2), {0}, Bound(Some(2)), InMu(op));
    var s15 := Cleaning(Some(2), {}, Bound(None), Sweeping(LATE, {}, [0]));
    assert {0} - {0} == {};
    CleanupFindsExpired();
    First(s14, go, s15, [], s15);
    First(s13, go, s14, [go] + [], s15);
    First(s12, go, s13, [go] + ([go] + []), s15);
    es := [go] + ([go] + ([go] + []));
  }

  lemma CleanupReaches() returns (es: seq<Event>)
    ensures Runs(Cleaning(Some(2), {}, Bound(None), Sweeping(LATE, {}, [0])), es,
                 Cleaning(None, {}, Bound(Some(2)), InMu(CloseOp(0, []))))
  {
    var go := Act(2, GO);
    var s15 := Cleaning(Some(2), {}, Bound(None), Sweeping(LATE, {}, [0]));
    var s16 := Cleaning(None, {}, Bound(None), WaitMu(CloseOp(0, [])));
    var s17 := Cleaning(None, {}, Bound(Some(2)), InMu(CloseOp(0, [])));
    First(s16, go, s17, [], s17);
    assert [0][1..] == [];
    First(s15, go, s16, [go] + [], s17);
    es := [go] + ([go] + []);
  }

  lemma CleanupCloses() returns (es: seq<Event>)
    ensures Runs(Cleaning(None, {}, Bound(Some(2)), InMu(CloseOp(0, []))), es, Cleaning(None, {}, Shut(None), Done))
  {
    var go := Act(2, GO);
    var s17 := Cleaning(None, {}, Bound(Some(2)), InMu(CloseOp(0, [])));
    var s18 := Cleaning(None, {}, Shut(None), Dropping(None, None, []));
    var s19 := Cleaning(None, {}, Shut(None), Done);
    First(s18, go, s19, [], s19);
    assert DoMu(s17, 2, CloseOp(0, [])) == s18;
    First(s17, go, s18, [go] + [], s19);
    es := [go] + ([go] + []);
  }

  /** The agent has attached to the closed session. */
  function Escaped(): State {
    State(LATE, None, {}, {}, [Shut(None).(s := Shut(None).s.SetAgent(1, LATE))],
          [Plain(Done), AgentAt(Reading, Connected), Plain(Done)])
  }

  lemma AgentAttaches() returns (es: seq<Event>)
    ensures Runs(Cleaning(None, {}, Shut(None), Done), es, Escaped())
  {
    var go := Act(1, GO);
    var s19 := Cleaning(None, {}, Shut(None), Done);
    var s20 := State(LATE, None, {}, {}, [Shut(None)],
                     [Plain(Done), AgentAt(WaitMu(SetAgentOp), Reserved), Plain(Done)]);
    var s21 := State(LATE, None, {}, {}, [Shut(Some(1))],
                     [Plain(Done), AgentAt(InMu(SetAgentOp), Reserved), Plain(Done)]);
    First(s21, go, Escaped(), [], Escaped());
    First(s20, go, s21, [go] + [], Escaped());
    First(s19, go, s20, [go] + ([go] + []), Escaped());
    es := [go] + ([go] + ([go] + []));
  }

  lemma AgentEscapes() returns (es: seq<Event>)
    ensures Runs(Init(0), es, Escaped())
  {
    var es1 := SessionIsCreated();
    var es2 := AgentReserves();
    InTurn(Init(0), es1, State(0, None, {}, {0}, [Fresh(None)], [Plain(Done)]), es2, Upgrades(0));
    var es3 := CleanupStarts();
    var s12 := Cleaning(Some(2), {0}, Bound(None), Sweeping(LATE, {0}, []));
    InTurn(Init(0), es1 + es2, Upgrades(0), es3, s12);
    var es4 := CleanupTakes();
    var s15 := Cleaning(Some(2), {}, Bound(None), Sweeping(LATE, {}, [0]));
    InTurn(Init(0), es1 + es2 + es3, s12, es4, s15);
    var es5 := CleanupReaches();
    var s17 := Cleaning(None, {}, Bound(Some(2)), InMu(CloseOp(0, [])));
    InTurn(Init(0), es1 + es2 + es3 + es4, s15, es5, s17);
    var es6 := CleanupCloses();
    var s19 := Cleaning(None, {}, Shut(None), Done);
    InTurn(Init(0), es1 + es2 + es3 + es4 + es5, s17, es6, s19);
    var es7 := AgentAttaches();
    InTurn(Init(0), es1 + es2 + es3 + es4 + es5 + es6, s19, es7, Escaped());
    es := es1 + es2 + es3 + es4 + es5 + es6 + es7;
  }

  /**
   So the hour and CloseBoth do not end every connection: there is a run after which the session has expired
   and is closed and gone from the store, every cleanup is over, and its agent is connected, reading, and not
   about to be closed by anybody.
  */
  lemma ConnectionOutlivesSession() returns (es: seq<Event>, s: State)
    ensures Runs(Init(0), es, s)
    ensures |s.sess| == 1 && s.sess[0].closed && s.table == {} && s.sess[0].s.IsExpired(s.now)
    ensures |s.threads| == 3 && s.threads[0].pc == Done == s.threads[2].pc
    ensures IsHandler(s, 1, Agent, 0) && s.threads[1].phase.Connected? && s.threads[1].pc.Reading?
    ensures !s.threads[1].broken && !Doomed(s, 1) && forall t :: !Carries(s, t, 0)
  {
    es := AgentEscapes();
    s := Escaped();
  }
}
