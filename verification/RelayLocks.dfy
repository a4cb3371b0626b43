/** The three kinds of relay lock cannot deadlock. */
module RelayLocks {
  import opened Options
  import opened RelayProtocol
  import opened RelayInvariant
  import opened RelayTheorems

  /** t stands before a lock operation. */
  predicate WantsLock(pc: Pc) {
    pc.Lookup? || pc.WaitMu? || pc.WaitSend? || pc.WaitStore?
  }

  predicate HoldsLock(pc: Pc) {
    pc.InMu? || pc.Looking? || HoldsSend(pc) || HoldsStore(pc)
  }

  /**
   Go's RWMutex makes new readers wait behind a waiting writer; the steps of the protocol do not say
   so. A goroutine is ready if it can step even under that rule.
  */
  ghost predicate Ready(s: State, t: Tid) {
    && Enabled(s, t)
    && (s.threads[t].pc.Lookup? ==> forall w: Tid :: w < |s.threads| ==> !s.threads[w].pc.WaitStore?)
  }

  /** u keeps t waiting: it holds the lock t wants, or is a writer that t, a reader, waits behind. */
  predicate WaitsFor(s: State, t: Tid, u: Tid) {
    && t < |s.threads| && u < |s.threads|
    && var th := s.threads[t];
       match th.pc
       case WaitMu(op) => Target(th, op) < |s.sess| && s.sess[Target(th, op)].mu == Some(u)
       case WaitSend(_) => th.id < |s.sess| && s.sess[th.id].sendMu == Some(u)
       case WaitStore(_) => s.writer == Some(u) || u in s.readers
       case Lookup => s.writer == Some(u) || s.threads[u].pc.WaitStore?
       case _ => false
  }

  /** The order in which the locks nest: store.mu, then sendMu, then mu. */
  function Rank(pc: Pc): nat {
    match pc
    case WaitMu(_) => 1
    case WaitSend(_) => 2
    case WaitStore(_) => 3
    case Lookup => 4
    case _ => 0
  }

  /** Whoever is waited for waits, if at all, for a lock further in. */
  lemma WaitsDescend(s: State, t: Tid, u: Tid)
    requires LockInv(s) && WaitsFor(s, t, u)
    ensures Rank(s.threads[u].pc) < Rank(s.threads[t].pc)
    ensures WantsLock(s.threads[u].pc) || HoldsLock(s.threads[u].pc)
  {
    assert ThreadOk(s, t) && ThreadOk(s, u);
    var th := s.threads[t];
    if th.pc.WaitMu? { assert CellOk(s, Target(th, th.pc.op)); }
    if th.pc.WaitSend? { assert CellOk(s, th.id); }
  }

  /** A goroutine at a lock operation or inside a lock is ready, or some goroutine keeps it waiting. */
  lemma ReadyOrWaits(s: State, t: Tid) returns (u: Tid)
    requires LockInv(s) && t < |s.threads| && (WantsLock(s.threads[t].pc) || HoldsLock(s.threads[t].pc))
    ensures Ready(s, t) || WaitsFor(s, t, u)
  {
    assert ThreadOk(s, t);
    var th := s.threads[t];
    u := t;
    match th.pc
    case WaitMu(op) =>
      var m := s.sess[Target(th, op)].mu;
      if m.Some? { assert CellOk(s, Target(th, op)); u := m.value; }
    case WaitSend(_) =>
      var m := s.sess[th.id].sendMu;
      if m.Some? { assert CellOk(s, th.id); u := m.value; }
    case WaitStore(_) =>
      if s.writer.Some? { u := s.writer.value; }
      else if s.readers != {} { u :| u in s.readers; }
    case Lookup =>
      if s.writer.Some? { u := s.writer.value; }
      else if !Ready(s, t) { u :| u < |s.threads| && s.threads[u].pc.WaitStore?; }
    case _ =>
  }

  /** A wait-for path, from t to a goroutine that is ready. */
  ghost predicate Unblocks(s: State, path: seq<Tid>) {
    && 0 < |path|
    && (forall i :: 0 <= i < |path| - 1 ==> WaitsFor(s, path[i], path[i + 1]))
    && Ready(s, path[|path| - 1])
  }

  lemma {:induction false} FollowWaits(s: State, t: Tid) returns (path: seq<Tid>)
    requires LockInv(s) && t < |s.threads| && (WantsLock(s.threads[t].pc) || HoldsLock(s.threads[t].pc))
    ensures Unblocks(s, path) && path[0] == t && |path| <= Rank(s.threads[t].pc) + 1
    decreases Rank(s.threads[t].pc)
  {
    var u := ReadyOrWaits(s, t);
    if Ready(s, t) {
      path := [t];
    } else {
      WaitsDescend(s, t, u);
      var rest := FollowWaits(s, u);
      path := [t] + rest;
      assert forall i :: 0 < i < |path| - 1 ==> path[i] == rest[i - 1] && path[i + 1] == rest[i];
    }
  }

  /**
   No deadlock: in every reachable state, from any goroutine that wants or holds a lock, following
   who waits for whom leads, in at most four hops, to a goroutine that can take its next step.
  */
  lemma NoDeadlock(now: int, es: seq<Event>, s: State, t: Tid) returns (path: seq<Tid>)
    requires Runs(Init(now), es, s)
    requires t < |s.threads| && (WantsLock(s.threads[t].pc) || HoldsLock(s.threads[t].pc))
    ensures Unblocks(s, path) && path[0] == t && |path| <= 5
  {
    Reachable(now, es, s);
    path := FollowWaits(s, t);
  }
}
