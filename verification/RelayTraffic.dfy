/** Whatever an agent sends before the viewer attaches: there is a run in which just that happens. */
module RelayTraffic {
  import opened Options
  import opened RelaySpec
  import opened RelayProtocol
  import opened RelayInvariant
  import opened RelayTheorems
  import opened RelayEscape
  import opened RelayPrefix

  lemma Extends(s: State, es: seq<Event>, s1: State, e: Event, s2: State)
    requires Runs(s, es, s1) && Valid(s1, e) && Apply(s1, e) == s2
    ensures Runs(s, es + [e], s2)
  {
    assert [e][1..] == [];
    assert Runs(s1, [e], s2);
    InTurn(s, es, s1, [e], s2);
  }

  /** The session of the runs below, with its agent connected, after frames p. */
  function Held(p: seq<Frame>): Session<Tid, Frame> {
    CREATED.Reserve(Agent, "a", 0).SetAgent(1, 0).(buffer := Keep(p), bufBytes := Bytes(Keep(p)))
  }

  /** The agent is at pc, has sent `sent`, and the buffer holds what it keeps of p. */
  function Sending(p: seq<Frame>, mu: Option<Tid>, pc: Pc, sent: seq<Frame>): State {
    State(0, None, {}, {0}, [Bound(mu).(s := Held(p))],
          [Plain(Done), AgentAt(pc, Connected).(sent := sent)])
  }

  lemma AgentConnects() returns (es: seq<Event>)
    ensures Runs(Init(0), es, Sending([], None, Reading, []))
  {
    var go := Act(1, GO);
    var s1 := State(0, None, {}, {0}, [Bound(None)], [Plain(Done), AgentAt(WaitMu(SetAgentOp), Reserved)]);
    var s2 := State(0, None, {}, {0}, [Bound(Some(1))], [Plain(Done), AgentAt(InMu(SetAgentOp), Reserved)]);
    var es1 := SessionIsCreated();
    var es2 := AgentReserves();
    InTurn(Init(0), es1, State(0, None, {}, {0}, [Fresh(None)], [Plain(Done)]), es2, Upgrades(0));
    es := es1 + es2;
    Extends(Init(0), es, Upgrades(0), go, s1);
    Extends(Init(0), es + [go], s1, go, s2);
    assert DoMu(s2, 1, SetAgentOp) == Sending([], None, Reading, []);
    Extends(Init(0), es + [go] + [go], s2, go, Sending([], None, Reading, []));
    es := es + [go] + [go] + [go];
  }

  /** Forward's critical section keeps the frame if it fits. */
  lemma OfferKeeps(p: seq<Frame>, f: Frame)
    ensures Held(p).Offer(f, |f.data|, 0) == Held(p + [f])
  {
    assert (p + [f])[..|p|] == p;
    assert (Keep(p) + [f])[..|Keep(p)|] == Keep(p);
  }

  lemma FrameIsRead(s: State, es: seq<Event>, p: seq<Frame>, f: Frame) returns (es': seq<Event>)
    requires Runs(s, es, Sending(p, None, Reading, p))
    requires f.pos == |p| && |f.data| <= 65_536
    ensures Runs(s, es', Sending(p, Some(1), InMu(OfferOp(f)), p + [f]))
  {
    var read, go := Act(1, Choice(true, Some(f.data), 0)), Act(1, GO);
    var s1, s2 := Sending(p, None, WaitMu(OfferOp(f)), p + [f]), Sending(p, Some(1), InMu(OfferOp(f)), p + [f]);
    Extends(s, es, Sending(p, None, Reading, p), read, s1);
    Extends(s, es + [read], s1, go, s2);
    es' := es + [read] + [go];
  }

  lemma FrameIsOffered(s: State, es: seq<Event>, p: seq<Frame>, f: Frame) returns (es': seq<Event>)
    requires Runs(s, es, Sending(p, Some(1), InMu(OfferOp(f)), p + [f]))
    ensures Runs(s, es', Sending(p + [f], None, WaitMu(TouchOp), p + [f]))
  {
    var s1 := Sending(p, Some(1), InMu(OfferOp(f)), p + [f]);
    OfferKeeps(p, f);
    assert DoMu(s1, 1, OfferOp(f)) == Sending(p + [f], None, WaitMu(TouchOp), p + [f]);
    Extends(s, es, s1, Act(1, GO), Sending(p + [f], None, WaitMu(TouchOp), p + [f]));
    es' := es + [Act(1, GO)];
  }

  lemma FrameIsDone(s: State, es: seq<Event>, p: seq<Frame>) returns (es': seq<Event>)
    requires Runs(s, es, Sending(p, None, WaitMu(TouchOp), p))
    ensures Runs(s, es', Sending(p, None, Reading, p))
  {
    var go, s1 := Act(1, GO), Sending(p, Some(1), InMu(TouchOp), p);
    Extends(s, es, Sending(p, None, WaitMu(TouchOp), p), go, s1);
    assert DoMu(s1, 1, TouchOp) == Sending(p, None, Reading, p);
    Extends(s, es + [go], s1, go, Sending(p, None, Reading, p));
    es' := es + [go] + [go];
  }

  lemma {:induction false} TrafficIsSent(p: seq<Frame>) returns (es: seq<Event>)
    requires IsTraffic(p)
    ensures Runs(Init(0), es, Sending(p, None, Reading, p))
  {
    if p == [] {
      es := AgentConnects();
    } else {
      var q, f := p[..|p| - 1], p[|p| - 1];
      assert p == q + [f];
      es := TrafficIsSent(q);
      es := FrameIsRead(Init(0), es, q, f);
      es := FrameIsOffered(Init(0), es, q, f);
      es := FrameIsDone(Init(0), es, p);
    }
  }

  // ----- the viewer attaches -----

  function ViewerAt(pc: Pc, phase: Phase): Thread {
    Thread(pc, Viewer, 0, "v", phase, [], [], false, false)
  }

  /** The agent has sent p and is idle; the viewer, not bound yet, is at pc. */
  function Arriving(p: seq<Frame>, readers: set<Tid>, mu: Option<Tid>, pc: Pc): State {
    State(0, None, readers, {0}, [Bound(mu).(s := Held(p))],
          [Plain(Done), AgentAt(Reading, Connected).(sent := p), ViewerAt(pc, New)])
  }

  /** The viewer has reserved its role and is at pc. */
  function Attaching(p: seq<Frame>, mu: Option<Tid>, sendMu: Option<Tid>, pc: Pc): State {
    State(0, None, {}, {0}, [Bound(mu).(s := Held(p).(viewerBound := true), sendMu := sendMu, viewerHolder := Some(2))],
          [Plain(Done), AgentAt(Reading, Connected).(sent := p), ViewerAt(pc, Reserved)])
  }

  /** The viewer has attached, has written out and is at pc. */
  function Attached(p: seq<Frame>, sendMu: Option<Tid>, pc: Pc, out: seq<Wire>): State {
    State(0, None, {}, {0},
          [Bound(None).(s := Held([]).(viewerBound := true, browser := Some(2)), sendMu := sendMu,
                        viewerHolder := Some(2), attachedAt := Some(|p|))],
          [Plain(Done), AgentAt(Reading, Connected).(sent := p), ViewerAt(pc, Connected).(out := out)])
  }

  lemma ViewerLooksUp(s: State, es: seq<Event>, p: seq<Frame>) returns (es': seq<Event>)
    requires Runs(s, es, Sending(p, None, Reading, p))
    ensures Runs(s, es', Arriving(p, {}, None, WaitMu(ReserveOp)))
  {
    var spawn, go := Spawn(ViewerAt(Lookup, New)), Act(2, GO);
    Extends(s, es, Sending(p, None, Reading, p), spawn, Arriving(p, {}, None, Lookup));
    Extends(s, es + [spawn], Arriving(p, {}, None, Lookup), go, Arriving(p, {2}, None, Looking));
    assert {2} - {2} == {};
    Extends(s, es + [spawn] + [go], Arriving(p, {2}, None, Looking), go, Arriving(p, {}, None, WaitMu(ReserveOp)));
    es' := es + [spawn] + [go] + [go];
  }

  lemma ViewerReserves(s: State, es: seq<Event>, p: seq<Frame>) returns (es': seq<Event>)
    requires Runs(s, es, Arriving(p, {}, None, WaitMu(ReserveOp)))
    ensures Runs(s, es', Attaching(p, None, None, Upgrading))
  {
    var go, s1 := Act(2, GO), Arriving(p, {}, Some(2), InMu(ReserveOp));
    Extends(s, es, Arriving(p, {}, None, WaitMu(ReserveOp)), go, s1);
    assert DoMu(s1, 2, ReserveOp) == Attaching(p, None, None, Upgrading);
    Extends(s, es + [go], s1, go, Attaching(p, None, None, Upgrading));
    es' := es + [go] + [go];
  }

  lemma ViewerUpgrades(s: State, es: seq<Event>, p: seq<Frame>) returns (es': seq<Event>)
    requires Runs(s, es, Attaching(p, None, None, Upgrading))
    ensures Runs(s, es', Attaching(p, Some(2), Some(2), InMu(AttachOp)))
  {
    var go := Act(2, GO);
    var s1, s2 := Attaching(p, None, None, WaitSend(Flush)), Attaching(p, None, Some(2), WaitMu(AttachOp));
    Extends(s, es, Attaching(p, None, None, Upgrading), go, s1);
    Extends(s, es + [go], s1, go, s2);
    Extends(s, es + [go] + [go], s2, go, Attaching(p, Some(2), Some(2), InMu(AttachOp)));
    es' := es + [go] + [go] + [go];
  }

  lemma ViewerAttaches(s: State, es: seq<Event>, p: seq<Frame>) returns (es': seq<Event>)
    requires Runs(s, es, Attaching(p, Some(2), Some(2), InMu(AttachOp)))
    ensures Runs(s, es', Attached(p, Some(2), Flushing(Keep(p)), []))
  {
    var s1, s2 := Attaching(p, Some(2), Some(2), InMu(AttachOp)), Attached(p, Some(2), Flushing(Keep(p)), []);
    assert DoMu(s1, 2, AttachOp) == s2;
    Extends(s, es, s1, Act(2, GO), s2);
    es' := es + [Act(2, GO)];
  }

  lemma {:induction false} BufferIsFlushed(s: State, es: seq<Event>, p: seq<Frame>, rest: seq<Frame>, out: seq<Wire>)
      returns (es': seq<Event>, out': seq<Wire>)
    requires Runs(s, es, Attached(p, Some(2), Flushing(rest), out))
    ensures Runs(s, es', Attached(p, None, Reading, out')) && Frames(out') == Frames(out) + rest
    decreases |rest|
  {
    var go := Act(2, GO);
    if rest == [] {
      Extends(s, es, Attached(p, Some(2), Flushing([]), out), go, Attached(p, None, Reading, out));
      es', out' := es + [go], out;
    } else {
      var out1 := out + [Wire(rest[0], false)];
      Extends(s, es, Attached(p, Some(2), Flushing(rest), out), go, Attached(p, Some(2), Flushing(rest[1..]), out1));
      es', out' := BufferIsFlushed(s, es + [go], p, rest[1..], out1);
    }
  }

  /** For any frames there is a run in which just these are sent, the viewer attaches after them and all is flushed. */
  lemma AnyTrafficOccurs(p: seq<Frame>) returns (es: seq<Event>, s: State)
    requires IsTraffic(p)
    ensures Runs(Init(0), es, s) && IsHandler(s, 1, Agent, 0) && IsHandler(s, 2, Viewer, 0)
    ensures s.threads[1].phase.Connected? && s.threads[2].phase.Connected?
    ensures s.threads[1].pc.Reading? && s.threads[2].pc.Reading? && !s.threads[2].broken
    ensures |s.sess| == 1 && !s.sess[0].closed && s.sess[0].attachedAt == Some(|p|)
    ensures Sent(s, 1) == p && Written(s, 2) == Keep(p)
  {
    es := TrafficIsSent(p);
    es := ViewerLooksUp(Init(0), es, p);
    es := ViewerReserves(Init(0), es, p);
    es := ViewerUpgrades(Init(0), es, p);
    es := ViewerAttaches(Init(0), es, p);
    var out;
    es, out := BufferIsFlushed(Init(0), es, p, Keep(p), []);
    s := Attached(p, None, Reading, out);
  }

  /** So there is a run after which the viewer has received everything but one frame out of the middle. */
  lemma DeliveryHasGap() returns (es: seq<Event>, s: State)
    ensures Runs(Init(0), es, s) && IsHandler(s, 1, Agent, 0) && IsHandler(s, 2, Viewer, 0)
    ensures IsTraffic(Sent(s, 1)) && |Sent(s, 1)| == 18 && Written(s, 2) == Sent(s, 1)[..16] + [Sent(s, 1)[17]]
    ensures !(Written(s, 2) <= Sent(s, 1))
  {
    var p := SkipsSeventeenth();
    es, s := AnyTrafficOccurs(p);
  }
}
