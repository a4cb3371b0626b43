/** Whoever holds a role of a session has presented the token issued for that role. */
module RelayTokens {
  import opened Options
  import opened RelaySpec
  import opened RelayProtocol
  import opened RelayInvariant
  import opened RelaySafety
  import opened RelayTheorems

  function IssuedFor(c: Cell, role: Role): Token {
    match role
    case Agent => c.agentIssued
    case Viewer => c.viewerIssued
    case Unknown => ""
  }

  /** Until it is closed, a session compares with the tokens that were issued for it. */
  predicate ComparesIssued(c: Cell) {
    !c.closed ==> c.s.agentToken == c.agentIssued && c.s.viewerToken == c.viewerIssued
  }

  predicate Presented(s: State, t: Tid)
    requires t < |s.threads|
  {
    var th := s.threads[t];
    !th.phase.New? ==> th.id < |s.sess| && th.token == IssuedFor(s.sess[th.id], th.role)
  }

  ghost predicate TokenInv(s: State) {
    && (forall x :: 0 <= x < |s.sess| ==> ComparesIssued(s.sess[x]))
    && (forall t :: 0 <= t < |s.threads| ==> Presented(s, t))
  }

  /** The issued tokens never change, and the session still compares with them or is closed. */
  predicate KeepsIssued(c: Cell, c': Cell) {
    && c'.agentIssued == c.agentIssued && c'.viewerIssued == c.viewerIssued
    && (ComparesIssued(c) ==> ComparesIssued(c'))
  }

  lemma CellsKeepIssued(s: State, t: Tid, ch: Choice, y: Sid)
    requires Enabled(s, t) && !s.threads[t].pc.InMu? && y < |Do(s, t, ch).sess|
    ensures |s.sess| <= |Do(s, t, ch).sess|
    ensures if y < |s.sess| then KeepsIssued(s.sess[y], Do(s, t, ch).sess[y]) else ComparesIssued(Do(s, t, ch).sess[y])
  {
  }

  lemma CriticalKeepsIssued(s: State, t: Tid, op: MuOp)
    requires t < |s.threads| && Target(s.threads[t], op) < |s.sess|
    ensures KeepsIssued(s.sess[Target(s.threads[t], op)], CellAfter(s, t, op))
  {
  }

  /** Reserve succeeds on the token issued for the role only: a closed session has no token anyone presents. */
  lemma CriticalPresents(s: State, t: Tid, op: MuOp)
    requires Inv(s) && t < |s.threads| && s.threads[t].pc == InMu(op) && Target(s.threads[t], op) < |s.sess|
    requires ComparesIssued(s.sess[Target(s.threads[t], op)]) && Presented(s, t)
    ensures Presented(DoMu(s, t, op), t)
  {
    assert ThreadOk(s, t) && RoleLinkOk(s, Target(s.threads[t], op));
    CriticalKeepsIssued(s, t, op);
  }

  lemma CriticalKeepsTokens(s: State, t: Tid, op: MuOp)
    requires Inv(s) && TokenInv(s)
    requires t < |s.threads| && s.threads[t].pc == InMu(op) && Target(s.threads[t], op) < |s.sess|
    ensures TokenInv(DoMu(s, t, op))
  {
    var s' := DoMu(s, t, op);
    CriticalKeepsIssued(s, t, op);
    CriticalPresents(s, t, op);
    forall u | 0 <= u < |s'.threads| ensures Presented(s', u) {
      if u != t { assert Presented(s, u) && s'.threads[u] == s.threads[u]; }
    }
  }

  lemma EventKeepsTokens(s: State, e: Event)
    requires Inv(s) && TokenInv(s) && Valid(s, e)
    ensures TokenInv(Apply(s, e))
  {
    var s' := Apply(s, e);
    if e.Act? && s.threads[e.t].pc.InMu? {
      CriticalKeepsTokens(s, e.t, s.threads[e.t].pc.op);
    } else if e.Act? {
      forall y | 0 <= y < |s'.sess| ensures ComparesIssued(s'.sess[y]) { CellsKeepIssued(s, e.t, e.ch, y); }
      PhaseStays(s, e.t, e.ch, e.t);
      forall u | 0 <= u < |s'.threads| ensures Presented(s', u) {
        assert Presented(s, u);
        PhaseStays(s, e.t, e.ch, u);
        if !s.threads[u].phase.New? { CellsKeepIssued(s, e.t, e.ch, s.threads[u].id); }
      }
    } else {
      forall u | 0 <= u < |s'.threads| ensures Presented(s', u) {
        if u < |s.threads| { assert Presented(s, u); }
      }
    }
  }

  lemma {:induction false} RunKeepsTokens(s: State, es: seq<Event>, s': State)
    requires Inv(s) && TokenInv(s) && Runs(s, es, s')
    ensures TokenInv(s')
    decreases |es|
  {
    if es != [] {
      EventKeepsTokens(s, es[0]);
      EventKeeps(s, es[0]);
      RunKeepsTokens(Apply(s, es[0]), es[1..], s');
    }
  }

  /**
   In every reachable state whoever has reserved or is connected in a role of a session presented the token
   issued for that role when the session was created. So where the two tokens differ, neither opens the
   other role.
  */
  lemma HoldersPresented(now: int, es: seq<Event>, s: State, x: Sid, t: Tid)
    requires Runs(Init(now), es, s) && HoldsRole(s, x, t)
    ensures x < |s.sess| && s.threads[t].role != Unknown
    ensures s.threads[t].token == IssuedFor(s.sess[x], s.threads[t].role)
    ensures s.sess[x].agentIssued != s.sess[x].viewerIssued ==>
              (s.threads[t].role == Agent <==> s.threads[t].token == s.sess[x].agentIssued)
  {
    RunKeepsTokens(Init(now), es, s);
    Reachable(now, es, s);
    assert ThreadOk(s, t) && Presented(s, t);
  }

  lemma IssuedAt(now: int, es: seq<Event>, s: State, x: Sid)
    requires Runs(Init(now), es, s) && x < |s.sess|
    ensures ComparesIssued(s.sess[x])
  {
    RunKeepsTokens(Init(now), es, s);
  }

  /**
   In every reachable state a Reserve that has entered its critical section succeeds exactly if the session has
   not been closed and is at most an hour old (in nanoseconds), nobody holds the role, and the token is the one
   issued for it; and the handler holds the role afterwards exactly if it succeeded. The other role does not
   come into it.
  */
  lemma AdmittedIff(now: int, es: seq<Event>, s: State, t: Tid, ch: Choice)
    requires Runs(Init(now), es, s) && Enabled(s, t) && s.threads[t].pc == InMu(ReserveOp)
    ensures var th, s' := s.threads[t], Do(s, t, ch); var c := s.sess[th.id];
            && th.id < |s'.sess| && t < |s'.threads|
            && (s'.threads[t].phase.Reserved? <==>
                  && !c.closed && s.now - c.s.created <= 3_600_000_000_000
                  && RoleHolder(c, th.role) == None && th.token == IssuedFor(c, th.role))
            && (s'.threads[t].phase.Reserved? <==> RoleHolder(s'.sess[th.id], th.role) == Some(t))
            && (s'.threads[t].pc == if s'.threads[t].phase.Reserved? then Upgrading else Done)
  {
    var x := s.threads[t].id;
    Reachable(now, es, s);
    IssuedAt(now, es, s, x);
    assert ThreadOk(s, t) && RoleLinkOk(s, x) && CellOk(s, x);
  }
}
