/**
 When a session leaves the store: because a handler of it has ended, or after an hour; and a handler that
 has ended leaves none behind.
*/
module RelayLeaving {
  import opened Options
  import opened RelaySpec
  import opened RelayProtocol
  import opened RelayInvariant
  import opened RelaySafety
  import opened RelayTheorems

  /** Past the Delete of the deferred function: closing, or done. */
  predicate Leaves(pc: Pc) {
    pc.Done? || pc.Dropping? || ((pc.WaitMu? || pc.InMu?) && pc.op.CloseOp?)
  }

  /** t was connected, its connection has ended, and it has deleted its session. */
  predicate HasLeft(th: Thread) {
    th.phase.Connected? && Leaves(th.pc)
  }

  /** The time of the cleanup run a goroutine is about to start or in. */
  function CleanupTime(pc: Pc): Option<int> {
    match pc
    case WaitStore(Sweep(at)) => Some(at)
    case InStore(Sweep(at)) => Some(at)
    case Sweeping(at, _, _) => Some(at)
    case WaitMu(ExpiredOp(_, at, _, _)) => Some(at)
    case InMu(ExpiredOp(_, at, _, _)) => Some(at)
    case _ => None
  }

  predicate OverAnHour(s: State, x: Sid)
    requires x < |s.sess|
  {
    s.now - s.sess[x].s.created > 3_600_000_000_000
  }

  ghost predicate SomeoneLeft(s: State, x: Sid) {
    exists t :: 0 <= t < |s.threads| && s.threads[t].id == x && HasLeft(s.threads[t])
  }

  ghost predicate GoneOk(s: State, x: Sid)
    requires x < |s.sess|
  {
    x in s.table || OverAnHour(s, x) || SomeoneLeft(s, x)
  }

  predicate LeftOk(s: State, t: Tid)
    requires t < |s.threads|
  {
    && (HasLeft(s.threads[t]) ==> s.threads[t].id < |s.sess| && s.threads[t].id !in s.table)
    && (CleanupTime(s.threads[t].pc).Some? ==> CleanupTime(s.threads[t].pc).value <= s.now)
  }

  ghost predicate LeaveInv(s: State) {
    && (forall x :: 0 <= x < |s.sess| ==> GoneOk(s, x))
    && (forall t :: 0 <= t < |s.threads| ==> LeftOk(s, t))
  }

  // ----- what one step does to it -----

  /** Everyone but t stays where it is, and the sessions keep their times of creation. */
  ghost predicate Moves(s: State, s': State, t: Tid) {
    && t < |s.threads| == |s'.threads| && |s.sess| <= |s'.sess| && s'.now == s.now
    && s'.threads[t].id == s.threads[t].id
    && (forall u :: 0 <= u < |s.threads| && u != t ==>
          s'.threads[u].id == s.threads[u].id && s'.threads[u].pc == s.threads[u].pc
          && s'.threads[u].phase == s.threads[u].phase)
    && (forall y :: 0 <= y < |s.sess| ==> s'.sess[y].s.created == s.sess[y].s.created)
  }

  /** t leaves only by deleting its session, never comes back, and keeps its cleanup time. */
  predicate MovesOn(th: Thread, th': Thread) {
    && (HasLeft(th) ==> HasLeft(th'))
    && (HasLeft(th') ==> HasLeft(th) || th.pc == InStore(Delete))
    && (CleanupTime(th'.pc).Some? ==> CleanupTime(th'.pc) == CleanupTime(th.pc))
  }

  lemma CriticalMoves(s: State, t: Tid, op: MuOp)
    requires LockInv(s) && t < |s.threads| && s.threads[t].pc == InMu(op) && Target(s.threads[t], op) < |s.sess|
    ensures Moves(s, DoMu(s, t, op), t) && MovesOn(s.threads[t], DoMu(s, t, op).threads[t])
    ensures |DoMu(s, t, op).sess| == |s.sess|
  {
    assert ThreadOk(s, t);
  }

  lemma StoreMoves(s: State, t: Tid, act: StoreOp)
    requires LockInv(s) && t < |s.threads| && s.threads[t].pc == InStore(act)
    ensures Moves(s, DoStore(s, t, act), t) && MovesOn(s.threads[t], DoStore(s, t, act).threads[t])
    ensures act.Delete? ==> HasLeft(DoStore(s, t, act).threads[t])
  {
    assert ThreadOk(s, t);
  }

  lemma ReadMoves(s: State, t: Tid, ch: Choice)
    requires Enabled(s, t)
    requires var pc := s.threads[t].pc; pc.Reading? || pc.Flushing?
    ensures var s' := Do(s, t, ch);
            Moves(s, s', t) && MovesOn(s.threads[t], s'.threads[t]) && s'.table == s.table && |s'.sess| == |s.sess|
  {
  }

  lemma SendMoves(s: State, t: Tid, b: Tid, f: Frame, ok: bool)
    requires t < |s.threads| && s.threads[t].pc == InSend(b, f) && b < |s.threads| && s.threads[t].id < |s.sess|
    ensures var s' := DoSend(s, t, b, f, ok);
            Moves(s, s', t) && MovesOn(s.threads[t], s'.threads[t]) && s'.table == s.table && |s'.sess| == |s.sess|
  {
  }

  lemma DropMoves(s: State, t: Tid, a: Option<Tid>, b: Option<Tid>, next: seq<Sid>)
    requires t < |s.threads| && s.threads[t].pc == Dropping(a, b, next) && IsThread(s, a) && IsThread(s, b)
    ensures var s' := DoDrop(s, t, a, b, next);
            Moves(s, s', t) && MovesOn(s.threads[t], s'.threads[t]) && s'.table == s.table && |s'.sess| == |s.sess|
  {
  }

  lemma SocketMoves(s: State, t: Tid, ch: Choice)
    requires LockInv(s) && Enabled(s, t)
    requires var pc := s.threads[t].pc; pc.Reading? || pc.InSend? || pc.Flushing? || pc.Dropping?
    ensures var s' := Do(s, t, ch);
            Moves(s, s', t) && MovesOn(s.threads[t], s'.threads[t]) && s'.table == s.table && |s'.sess| == |s.sess|
  {
    match s.threads[t].pc
    case InSend(b, f) => SendMoves(s, t, b, f, ch.ok);
    case Dropping(a, b, next) => DropMoves(s, t, a, b, next);
    case _ => ReadMoves(s, t, ch);
  }

  lemma SweepMoves(s: State, t: Tid, at: int, todo: set<Sid>, stale: seq<Sid>, pick: Sid)
    requires LockInv(s) && t < |s.threads| && s.threads[t].pc == Sweeping(at, todo, stale)
    ensures var s' := DoSweep(s, t, at, todo, stale, pick);
            Moves(s, s', t) && MovesOn(s.threads[t], s'.threads[t]) && s'.table == s.table && |s'.sess| == |s.sess|
  {
    assert ThreadOk(s, t);
  }

  lemma LockMoves(s: State, t: Tid, ch: Choice)
    requires LockInv(s) && Enabled(s, t)
    requires var pc := s.threads[t].pc;
             !pc.InMu? && !pc.InStore? && !pc.Reading? && !pc.InSend? && !pc.Flushing? && !pc.Dropping?
    ensures var s' := Do(s, t, ch);
            Moves(s, s', t) && MovesOn(s.threads[t], s'.threads[t]) && s'.table == s.table && |s'.sess| == |s.sess|
  {
    assert ThreadOk(s, t);
    if s.threads[t].pc.Sweeping? {
      SweepMoves(s, t, s.threads[t].pc.at, s.threads[t].pc.todo, s.threads[t].pc.stale, ch.pick);
    }
  }

  /** A step after which what has left the store did so for a reason. */
  lemma LeaveKept(s: State, s': State, t: Tid)
    requires LeaveInv(s) && Moves(s, s', t) && MovesOn(s.threads[t], s'.threads[t])
    requires HasLeft(s'.threads[t]) ==> s.threads[t].id < |s.sess|
    requires s.threads[t].pc == InStore(Delete) ==> s.threads[t].id !in s'.table
    requires forall x :: x in s'.table ==> x in s.table || |s.sess| <= x
    requires forall x :: |s.sess| <= x < |s'.sess| ==> x in s'.table
    requires forall x :: x in s.table && x !in s'.table && x < |s.sess| ==>
               OverAnHour(s, x) || (x == s.threads[t].id && HasLeft(s'.threads[t]))
    ensures LeaveInv(s')
  {
    forall x | 0 <= x < |s'.sess| ensures GoneOk(s', x) {
      if x < |s.sess| {
        assert GoneOk(s, x);
        if SomeoneLeft(s, x) {
          var u :| 0 <= u < |s.threads| && s.threads[u].id == x && HasLeft(s.threads[u]);
          assert s'.threads[u].id == x && HasLeft(s'.threads[u]);
        }
      }
    }
    forall u | 0 <= u < |s'.threads| ensures LeftOk(s', u) { assert LeftOk(s, u); }
  }

  lemma CriticalLeaves(s: State, t: Tid, op: MuOp)
    requires Inv(s) && LeaveInv(s)
    requires t < |s.threads| && s.threads[t].pc == InMu(op) && Target(s.threads[t], op) < |s.sess|
    ensures LeaveInv(DoMu(s, t, op))
  {
    var x := Target(s.threads[t], op);
    assert ThreadOk(s, t) && LeftOk(s, t) && RoleLinkOk(s, x);
    CriticalMoves(s, t, op);
    ExpiryIsAge(s.sess[x].s, if op.ExpiredOp? then op.at else 0);
    LeaveKept(s, DoMu(s, t, op), t);
  }

  lemma StoreLeaves(s: State, t: Tid, act: StoreOp)
    requires Inv(s) && LeaveInv(s) && t < |s.threads| && s.threads[t].pc == InStore(act)
    ensures LeaveInv(DoStore(s, t, act))
  {
    assert ThreadOk(s, t) && LeftOk(s, t) && SetOk(|s.sess|, s.table);
    StoreMoves(s, t, act);
    LeaveKept(s, DoStore(s, t, act), t);
  }

  lemma StepLeaves(s: State, t: Tid, ch: Choice)
    requires Inv(s) && LeaveInv(s) && Enabled(s, t)
    ensures LeaveInv(Do(s, t, ch))
  {
    var pc := s.threads[t].pc;
    assert ThreadOk(s, t) && LeftOk(s, t);
    if pc.InMu? {
      CriticalLeaves(s, t, pc.op);
    } else if pc.InStore? {
      StoreLeaves(s, t, pc.act);
    } else {
      if pc.Reading? || pc.InSend? || pc.Flushing? || pc.Dropping? {
        SocketMoves(s, t, ch);
      } else {
        LockMoves(s, t, ch);
      }
      LeaveKept(s, Do(s, t, ch), t);
    }
  }

  lemma SpawnLeaves(s: State, th: Thread)
    requires LeaveInv(s) && Starts(s, th)
    ensures LeaveInv(Apply(s, Spawn(th)))
  {
    var s' := Apply(s, Spawn(th));
    forall x | 0 <= x < |s'.sess| ensures GoneOk(s', x) {
      assert GoneOk(s, x);
      if SomeoneLeft(s, x) {
        var u :| 0 <= u < |s.threads| && s.threads[u].id == x && HasLeft(s.threads[u]);
        assert s'.threads[u] == s.threads[u];
      }
    }
    forall u | 0 <= u < |s'.threads| ensures LeftOk(s', u) {
      if u < |s.threads| { assert LeftOk(s, u); }
    }
  }

  lemma TickLeaves(s: State, d: nat)
    requires LeaveInv(s)
    ensures LeaveInv(s.(now := s.now + d))
  {
    var s' := s.(now := s.now + d);
    forall x | 0 <= x < |s'.sess| ensures GoneOk(s', x) {
      assert GoneOk(s, x);
      if SomeoneLeft(s, x) {
        var u :| 0 <= u < |s.threads| && s.threads[u].id == x && HasLeft(s.threads[u]);
        assert s'.threads[u] == s.threads[u];
      }
    }
    forall u | 0 <= u < |s'.threads| ensures LeftOk(s', u) { assert LeftOk(s, u); }
  }

  lemma {:induction false} RunLeaves(s: State, es: seq<Event>, s': State)
    requires Inv(s) && LeaveInv(s) && Runs(s, es, s')
    ensures LeaveInv(s')
    decreases |es|
  {
    if es != [] {
      match es[0] {
        case Act(t, ch) => StepLeaves(s, t, ch);
        case Spawn(th) => SpawnLeaves(s, th);
        case Tick(d) => TickLeaves(s, d);
      }
      EventKeeps(s, es[0]);
      RunLeaves(Apply(s, es[0]), es[1..], s');
    }
  }

  /** In every reachable state the session of a handler whose connection has ended is out of the store. */
  lemma EndedHandlerDeletes(now: int, es: seq<Event>, s: State, t: Tid)
    requires Runs(Init(now), es, s) && t < |s.threads| && s.threads[t].phase.Connected? && s.threads[t].pc.Done?
    ensures s.threads[t].id < |s.sess| && s.threads[t].id !in s.table
  {
    RunLeaves(Init(now), es, s);
    assert LeftOk(s, t);
  }

  /**
   And a session stays in the store until it is over an hour old (in nanoseconds) or a handler connected to it
   has ended.
  */
  lemma StaysUntil(now: int, es: seq<Event>, s: State, x: Sid)
    requires Runs(Init(now), es, s) && x < |s.sess| && x !in s.table
    ensures s.now - s.sess[x].s.created > 3_600_000_000_000 || SomeoneLeft(s, x)
  {
    RunLeaves(Init(now), es, s);
    assert GoneOk(s, x);
  }

  /**
   The read loop goes on exactly after a text frame of at most 64 KiB from the agent, which is then forwarded,
   or when a viewer has said nothing; anything else ends the connection, and the handler goes on to Delete.
  */
  lemma ReadingEndsIff(now: int, es: seq<Event>, s: State, t: Tid, ch: Choice)
    requires Runs(Init(now), es, s) && Enabled(s, t) && s.threads[t].pc.Reading?
    ensures var th, th' := s.threads[t], Do(s, t, ch).threads[t];
            && |Do(s, t, ch).threads| == |s.threads|
            && (if ch.ok && th.role == Agent && ch.message.Some? && |ch.message.value| <= 65_536 then
                  && th'.pc.WaitMu? && th'.pc.op == OfferOp(th'.sent[|th'.sent| - 1])
                  && th'.sent[|th'.sent| - 1].data == ch.message.value && !th'.phase.New?
                else if ch.ok && th.role == Viewer && ch.message.None? then
                  th'.pc == WaitMu(TouchOp) && th'.sent == []
                else th'.pc == WaitStore(Delete) && th'.broken)
  {
    Reachable(now, es, s);
    assert ThreadOk(s, t);
  }
}
