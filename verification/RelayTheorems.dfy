/** What the relay guarantees in every run, whatever the interleaving. */
module RelayTheorems {
  import opened Options
  import opened RelaySpec
  import opened RelayProtocol
  import opened RelayInvariant
  import opened RelaySafety

  lemma Reachable(now: int, es: seq<Event>, s: State)
    requires Runs(Init(now), es, s)
    ensures Inv(s)
  {
    RunKeeps(Init(now), es, s);
  }

  // ----- delivery -----

  /** p is q with some elements left out: the k-th element of p is q's element number at[k], at increasing. */
  ghost predicate Subsequence<T(!new)>(p: seq<T>, q: seq<T>) {
    exists at: seq<nat> :: Embeds(p, q, at)
  }

  predicate Embeds<T(==)>(p: seq<T>, q: seq<T>, at: seq<nat>) {
    && |at| == |p|
    && (forall i, j :: 0 <= i < j < |at| ==> at[i] < at[j])
    && (forall i :: 0 <= i < |p| ==> at[i] < |q| && q[at[i]] == p[i])
  }

  lemma OnlyEmptyFromEmpty<T(!new)>(p: seq<T>, q: seq<T>)
    requires Subsequence(p, q)
    ensures q == [] ==> p == []
  {
    var at: seq<nat> :| Embeds(p, q, at);
    if p != [] { assert at[0] < |q|; }
  }

  predicate IsHandler(s: State, t: Tid, role: Role, x: Sid) {
    t < |s.threads| && s.threads[t].role == role && s.threads[t].id == x
  }

  function Sent(s: State, a: Tid): seq<Frame>
    requires a < |s.threads|
  {
    s.threads[a].sent
  }

  function Written(s: State, v: Tid): seq<Frame>
    requires v < |s.threads|
  {
    Frames(s.threads[v].out)
  }

  lemma WrittenIsDrawn(c: Cell, a: Thread, v: Thread)
    requires FlowLink(c, a, v)
    ensures Subsequence(Frames(v.out), a.sent)
  {
    var out, pipe := Frames(v.out), Pipe(c, a, v);
    assert forall i :: 0 <= i < |out| ==> out[i] == pipe[i];
    var at := seq(|out|, i requires 0 <= i < |out| => out[i].pos);
    assert Embeds(out, a.sent, at);
  }

  lemma WrittenAt(s: State, x: Sid)
    requires FlowInv(s) && x < |s.sess|
    ensures var a, v := Holder(s, s.sess[x].agentHolder), Holder(s, s.sess[x].viewerHolder);
            Subsequence(Frames(v.out), a.sent) && FlushedFirst(v.out)
  {
    assert FlowLinkOk(s, x);
    WrittenIsDrawn(s.sess[x], Holder(s, s.sess[x].agentHolder), Holder(s, s.sess[x].viewerHolder));
  }

  /** Connected handlers hold their roles. */
  lemma HoldersOf(s: State, x: Sid, a: Tid, v: Tid)
    requires LockInv(s) && IsHandler(s, a, Agent, x) && IsHandler(s, v, Viewer, x)
    ensures s.threads[a].phase.Connected? ==>
              x < |s.sess| && s.sess[x].agentHolder == Some(a) && Holder(s, s.sess[x].agentHolder) == s.threads[a]
    ensures s.threads[v].phase.Connected? ==>
              x < |s.sess| && s.sess[x].viewerHolder == Some(v) && Holder(s, s.sess[x].viewerHolder) == s.threads[v]
    ensures !s.threads[v].phase.Connected? ==> s.threads[v].out == []
  {
    assert ThreadOk(s, a) && ThreadOk(s, v);
  }

  lemma FlowAt(s: State, x: Sid)
    requires FlowInv(s) && x < |s.sess|
    ensures FlowLink(s.sess[x], Holder(s, s.sess[x].agentHolder), Holder(s, s.sess[x].viewerHolder))
  {
    assert FlowLinkOk(s, x);
  }

  lemma LinkOf(s: State, x: Sid, a: Tid, v: Tid)
    requires Inv(s) && IsHandler(s, a, Agent, x) && IsHandler(s, v, Viewer, x)
    requires s.threads[a].phase.Connected? && s.threads[v].phase.Connected?
    ensures x < |s.sess|
    ensures FlowLink(s.sess[x], s.threads[a], s.threads[v])
    ensures s.sess[x].attachedAt.Some? && (!s.sess[x].closed ==> s.sess[x].s.browser.Some?)
  {
    HoldersOf(s, x, a, v);
    assert s.sess[x].attachedAt.Some? && (!s.sess[x].closed ==> s.sess[x].s.browser.Some?) by {
      assert RoleLinkOk(s, x);
    }
    FlowAt(s, x);
  }

  /**
   In every reachable state, what a viewer socket has received is an in-order selection, without
   repetition, of what the agent socket of that session sent; flushed frames come before live ones.
  */
  lemma DeliveredInOrder(now: int, es: seq<Event>, s: State, x: Sid, a: Tid, v: Tid)
    requires Runs(Init(now), es, s)
    requires IsHandler(s, a, Agent, x) && IsHandler(s, v, Viewer, x)
    requires s.threads[a].phase.Connected?
    ensures Subsequence(Written(s, v), Sent(s, a))
    ensures FlushedFirst(s.threads[v].out)
  {
    Reachable(now, es, s);
    HoldersOf(s, x, a, v);
    if s.threads[v].phase.Connected? {
      WrittenAt(s, x);
    } else {
      assert Embeds(Written(s, v), Sent(s, a), []);
    }
  }

  /** Without a connected agent nothing is ever delivered. */
  lemma NothingFromNobody(now: int, es: seq<Event>, s: State, x: Sid, v: Tid)
    requires Runs(Init(now), es, s)
    requires IsHandler(s, v, Viewer, x) && x < |s.sess|
    requires forall a: Tid :: IsHandler(s, a, Agent, x) ==> !s.threads[a].phase.Connected?
    ensures Written(s, v) == []
  {
    Reachable(now, es, s);
    assert ThreadOk(s, v) && CellOk(s, x);
    if s.threads[v].phase.Connected? {
      var h := s.sess[x].agentHolder;
      if h.Some? { assert ThreadOk(s, h.value) && IsHandler(s, h.value, Agent, x); }
      WrittenAt(s, x);
      OnlyEmptyFromEmpty(Written(s, v), Holder(s, h).sent);
    }
  }

  /** The buffer holds what it was offered exactly when that fits both caps. */
  lemma {:induction false} KeepsAllIffFits(p: seq<Frame>)
    ensures |Keep(p)| <= 50 && Bytes(Keep(p)) <= 1_048_576
    ensures |Keep(p)| <= |p| && Bytes(Keep(p)) <= Bytes(p)
    ensures Keep(p) == p <==> |p| <= 50 && Bytes(p) <= 1_048_576
  {
    if p != [] {
      var q, f := p[..|p| - 1], p[|p| - 1];
      KeepsAllIffFits(q);
      assert p == q + [f];
      var k := Keep(q);
      assert (k + [f])[..|k|] == k;
      if Keep(p) == p { assert k + [f] == p && k == q; }
    }
  }

  lemma NothingLost(c: Cell, a: Thread, v: Thread)
    requires FlowLink(c, a, v) && c.s.browser.Some? && c.attachedAt.Some? && !c.closed && !v.broken
    ensures c.attachedAt.value <= Offered(a) <= |a.sent|
    ensures var k, n := c.attachedAt.value, Offered(a);
            Frames(v.out) + Rest(v) + InFlight(a) == Keep(a.sent[..k]) + a.sent[k..n]
  {
    var k, n := c.attachedAt.value, Offered(a);
    assert a.sent[..n][..k] == a.sent[..k] && a.sent[..n][k..] == a.sent[k..n];
    assert Pipe(c, a, v) == Frames(v.out) + Rest(v) + InFlight(a);
  }

  /**
   While the session is not closed and no write has failed, nothing is lost but to the full buffer:
   with k the number of frames offered before the viewer attached, what was written, is being flushed
   and is in flight is what the buffer kept of the first k frames, then every later frame.
  */
  lemma ExactDelivery(now: int, es: seq<Event>, s: State, x: Sid, a: Tid, v: Tid)
    requires Runs(Init(now), es, s)
    requires IsHandler(s, a, Agent, x) && IsHandler(s, v, Viewer, x)
    requires s.threads[a].phase.Connected? && s.threads[v].phase.Connected?
    requires x < |s.sess| && !s.sess[x].closed && !s.threads[v].broken
    ensures s.sess[x].attachedAt.Some? && s.sess[x].attachedAt.value <= Offered(s.threads[a]) <= |Sent(s, a)|
    ensures var k, n := s.sess[x].attachedAt.value, Offered(s.threads[a]);
            Written(s, v) + Rest(s.threads[v]) + InFlight(s.threads[a]) == Keep(Sent(s, a)[..k]) + Sent(s, a)[k..n]
  {
    Reachable(now, es, s);
    LinkOf(s, x, a, v);
    NothingLost(s.sess[x], s.threads[a], s.threads[v]);
  }

  /**
   If moreover the agent is between frames and the flush is over, then every frame sent has been
   delivered, exactly once and in order, if and only if the traffic before the viewer attached fits
   the buffer.
  */
  lemma CompleteDelivery(now: int, es: seq<Event>, s: State, x: Sid, a: Tid, v: Tid)
    requires Runs(Init(now), es, s)
    requires IsHandler(s, a, Agent, x) && IsHandler(s, v, Viewer, x)
    requires s.threads[a].phase.Connected? && s.threads[v].phase.Connected?
    requires x < |s.sess| && !s.sess[x].closed && !s.threads[v].broken
    requires s.threads[a].pc.Reading? && s.threads[v].pc.Reading?
    ensures s.sess[x].attachedAt.Some? && s.sess[x].attachedAt.value <= |Sent(s, a)|
    ensures var early := Sent(s, a)[..s.sess[x].attachedAt.value];
            Written(s, v) == Sent(s, a) <==> |early| <= MAX_BUFFER_ITEMS && Bytes(early) <= MAX_BUFFER_BYTES
  {
    ExactDelivery(now, es, s, x, a, v);
    var sent, k := Sent(s, a), s.sess[x].attachedAt.value;
    var early, late := sent[..k], sent[k..];
    assert sent == early + late && sent[k..Offered(s.threads[a])] == late;
    KeepsAllIffFits(early);
    assert Written(s, v) == Keep(early) + late;
    if Written(s, v) == sent {
      assert |Keep(early)| == |early|;
      assert Keep(early) == Written(s, v)[..k] == early;
    }
  }

  /** Both caps hold in every reachable state, and bufBytes is exact, even after CloseBoth. */
  lemma BufferBounded(now: int, es: seq<Event>, s: State, x: Sid)
    requires Runs(Init(now), es, s) && x < |s.sess|
    ensures |s.sess[x].s.buffer| <= MAX_BUFFER_ITEMS
    ensures s.sess[x].s.bufBytes == Bytes(s.sess[x].s.buffer) <= MAX_BUFFER_BYTES
  {
    Reachable(now, es, s);
    assert FlowLinkOk(s, x);
  }

  // ----- roles -----

  /** At most one handler at a time has reserved or connected a role of a session. */
  lemma OneHolderPerRole(now: int, es: seq<Event>, s: State, x: Sid, role: Role, t: Tid, u: Tid)
    requires Runs(Init(now), es, s)
    requires IsHandler(s, t, role, x) && !s.threads[t].phase.New?
    requires IsHandler(s, u, role, x) && !s.threads[u].phase.New?
    ensures t == u
  {
    Reachable(now, es, s);
    assert ThreadOk(s, t) && ThreadOk(s, u);
  }

  predicate IsClosed(s: State, x: Sid) {
    x < |s.sess| && s.sess[x].closed
  }

  /** t has reserved or connected a role of session x. */
  predicate HoldsRole(s: State, x: Sid, t: Tid) {
    t < |s.threads| && s.threads[t].id == x && !s.threads[t].phase.New?
  }

  lemma ClosedCritical(s: State, t: Tid, ch: Choice, x: Sid, u: Tid)
    requires Enabled(s, t) && s.threads[t].pc.InMu? && IsClosed(s, x)
    requires s.threads[t].pc.op.ReserveOp? ==> s.threads[t].token != ""
    requires s.sess[x].s.agentToken == "" && s.sess[x].s.viewerToken == ""
    requires !s.threads[t].pc.op.ReserveOp? && ThreadAfter(s, t, s.threads[t].pc.op).phase != New ==>
               s.threads[t].phase != New
    ensures IsClosed(Do(s, t, ch), x)
    ensures HoldsRole(Do(s, t, ch), x, u) ==> HoldsRole(s, x, u)
  {
  }

  predicate SameRole(th: Thread, th': Thread) {
    (th'.phase, th'.id, th'.role, th'.token) == (th.phase, th.id, th.role, th.token)
  }

  lemma SocketRoles(s: State, t: Tid, ch: Choice, u: Tid)
    requires Enabled(s, t) && u < |s.threads|
    requires var pc := s.threads[t].pc; pc.Reading? || pc.InSend? || pc.Flushing? || pc.Dropping?
    ensures |Do(s, t, ch).threads| == |s.threads| && SameRole(s.threads[u], Do(s, t, ch).threads[u])
  {
  }

  lemma LockRoles(s: State, t: Tid, ch: Choice, u: Tid)
    requires Enabled(s, t) && u < |s.threads|
    requires var pc := s.threads[t].pc;
             !pc.InMu? && !pc.Reading? && !pc.InSend? && !pc.Flushing? && !pc.Dropping?
    ensures |Do(s, t, ch).threads| == |s.threads| && SameRole(s.threads[u], Do(s, t, ch).threads[u])
  {
  }

  /** Outside critical sections nobody's phase changes. */
  lemma PhaseStays(s: State, t: Tid, ch: Choice, u: Tid)
    requires Enabled(s, t) && !s.threads[t].pc.InMu? && u < |s.threads|
    ensures |Do(s, t, ch).threads| == |s.threads| && SameRole(s.threads[u], Do(s, t, ch).threads[u])
  {
    var pc := s.threads[t].pc;
    if pc.Reading? || pc.InSend? || pc.Flushing? || pc.Dropping? {
      SocketRoles(s, t, ch, u);
    } else {
      LockRoles(s, t, ch, u);
    }
  }

  lemma ClosedStays(s: State, t: Tid, ch: Choice, x: Sid)
    requires Enabled(s, t) && !s.threads[t].pc.InMu? && IsClosed(s, x)
    ensures IsClosed(Do(s, t, ch), x)
  {
  }

  lemma ClosedStep(s: State, e: Event, x: Sid, u: Tid)
    requires Inv(s) && Valid(s, e) && IsClosed(s, x)
    ensures IsClosed(Apply(s, e), x)
    ensures HoldsRole(Apply(s, e), x, u) ==> HoldsRole(s, x, u)
  {
    if e.Act? {
      if s.threads[e.t].pc.InMu? {
        assert ThreadOk(s, e.t) && RoleLinkOk(s, x);
        ClosedCritical(s, e.t, e.ch, x, u);
      } else {
        ClosedStays(s, e.t, e.ch, x);
        PhaseStays(s, e.t, e.ch, if u < |s.threads| then u else e.t);
      }
    }
  }

  /**
   Once CloseBoth has run on a session, no Reserve on it ever succeeds again, not even by a handler
   that had fetched the session before it left the store: whoever holds a role later held it then.
  */
  lemma {:induction false} NoReserveAfterClose(s: State, es: seq<Event>, s': State, x: Sid, u: Tid)
    requires Inv(s) && IsClosed(s, x) && Runs(s, es, s')
    ensures IsClosed(s', x)
    ensures HoldsRole(s', x, u) ==> HoldsRole(s, x, u)
    decreases |es|
  {
    if es != [] {
      ClosedStep(s, es[0], x, u);
      EventKeeps(s, es[0]);
      NoReserveAfterClose(Apply(s, es[0]), es[1..], s', x, u);
    }
  }

  // ----- expiry -----

  /** A session expires by age alone, however much traffic renews lastUsed. */
  lemma ExpiresByAge(now: int, es: seq<Event>, s: State, x: Sid, at: int)
    requires Runs(Init(now), es, s) && x < |s.sess|
    ensures s.sess[x].s.IsExpired(at) <==> at - s.sess[x].s.created > SESSION_TTL
  {
    Reachable(now, es, s);
    assert RoleLinkOk(s, x);
    ExpiryIsAge(s.sess[x].s, at);
  }
}
