/**
 The relay as a concurrent protocol: any number of handler, session-creating and cleanup goroutines
 run against one SessionStore. Every lock operation and every critical section is its own step; steps
 of different goroutines interleave freely. The locks are store.mu (a reader/writer lock), and for
 each session `mu` and `sendMu`.

 Sessions are numbered in creation order and the number doubles as the (fresh) session ID. Goroutines
 are numbered too, and a handler's number also identifies its WebSocket connection.
*/
module RelayProtocol {
  import opened Options
  import opened RelaySpec

  type Tid = nat
  type Sid = nat

  /** A frame read from an agent socket; pos is its position among the frames of that socket. */
  datatype Frame = Frame(pos: nat, data: seq<bv8>)

  /** A frame written to a viewer socket, by Forward (live) or by the flush. */
  datatype Wire = Wire(frame: Frame, live: bool)

  /** The critical sections of a session's `mu`. Expired and Close name the session they work on. */
  datatype MuOp =
    | ReserveOp
    | ReleaseOp
    | SetAgentOp
    | AttachOp
    | OfferOp(frame: Frame)
    | TouchOp
    | ExpiredOp(sid: Sid, at: int, todo: set<Sid>, stale: seq<Sid>)
    | CloseOp(sid: Sid, next: seq<Sid>)

  datatype SendJob = Flush | Live(browser: Tid, frame: Frame)

  datatype StoreOp = Delete | Create(agentToken: Token, viewerToken: Token) | Sweep(at: int)

  /** Where a goroutine stands. A Wait state wants a lock, the state after it holds that lock. */
  datatype Pc =
    | Lookup                      // SessionStore.Reserve, before RLock
    | Looking                     // holds the read lock of store.mu
    | WaitMu(op: MuOp)
    | InMu(op: MuOp)
    | Upgrading                   // role reserved, WebSocket upgrade under way
    | Reading                     // the loop of serveRelayConnection
    | WaitSend(job: SendJob)
    | InSend(viewer: Tid, frame: Frame)
    | Flushing(rest: seq<Frame>)  // holds sendMu and writes the taken buffer
    | WaitStore(act: StoreOp)
    | InStore(act: StoreOp)       // holds the write lock of store.mu
    | Sweeping(at: int, todo: set<Sid>, stale: seq<Sid>)  // cleanup's loop, holds the write lock
    | Dropping(agent: Option<Tid>, browser: Option<Tid>, next: seq<Sid>)  // CloseBoth closes sockets
    | Done

  datatype Phase = New | Reserved | Connected

  /**
   A goroutine. sent, out and broken describe a handler's own socket; dropped records that it was
   CloseBoth that closed it.
  */
  datatype Thread = Thread(
    pc: Pc,
    role: Role,
    id: Sid,
    token: Token,
    phase: Phase,
    sent: seq<Frame>,
    out: seq<Wire>,
    broken: bool,
    dropped: bool)

  /**
   A session object with its locks. The last six fields record history: whether CloseBoth has run, who
   reserved or holds each role, how many frames Forward had seen when the viewer attached, and the tokens
   that were issued when the session was created.
  */
  datatype Cell = Cell(
    s: Session<Tid, Frame>,
    mu: Option<Tid>,
    sendMu: Option<Tid>,
    closed: bool,
    agentHolder: Option<Tid>,
    viewerHolder: Option<Tid>,
    attachedAt: Option<nat>,
    agentIssued: Token,
    viewerIssued: Token)

  datatype State = State(
    now: int,
    writer: Option<Tid>,
    readers: set<Tid>,
    table: set<Sid>,
    sess: seq<Cell>,
    threads: seq<Thread>)

  /** What the environment decides in a step: success of I/O, the frame read, cleanup's map order. */
  datatype Choice = Choice(ok: bool, message: Option<seq<bv8>>, pick: Sid)

  datatype Event = Act(t: Tid, ch: Choice) | Spawn(th: Thread) | Tick(d: nat)

  // ----- steps -----

  function Target(th: Thread, op: MuOp): Sid {
    match op
    case ExpiredOp(x, _, _, _) => x
    case CloseOp(x, _) => x
    case _ => th.id
  }

  /** Whether goroutine t can take its next step: it is not finished and the lock it wants is free. */
  ghost predicate Enabled(s: State, t: Tid) {
    && t < |s.threads|
    && var th := s.threads[t];
       match th.pc
       case Lookup => s.writer.None?
       case WaitMu(op) => Target(th, op) < |s.sess| && s.sess[Target(th, op)].mu.None?
       case InMu(op) => Target(th, op) < |s.sess|
       case WaitSend(_) => th.id < |s.sess| && s.sess[th.id].sendMu.None?
       case InSend(b, _) => th.id < |s.sess| && b < |s.threads|
       case Flushing(_) => th.id < |s.sess|
       case WaitStore(_) => s.writer.None? && s.readers == {}
       case Dropping(a, b, _) =>
         (a.Some? ==> a.value < |s.threads|) && (b.Some? ==> b.value < |s.threads|)
       case Done => false
       case _ => true
  }

  function Goto(s: State, t: Tid, pc: Pc): State
    requires t < |s.threads|
  {
    s.(threads := s.threads[t := s.threads[t].(pc := pc)])
  }

  /** CloseBoth is called on each listed session in turn, then the goroutine ends. */
  function CloseAll(sids: seq<Sid>): Pc {
    if sids == [] then Done else WaitMu(CloseOp(sids[0], sids[1..]))
  }

  /** How many frames of an agent have been through the locked part of Forward. */
  function Offered(a: Thread): nat {
    if (a.pc.WaitMu? || a.pc.InMu?) && a.pc.op.OfferOp? && |a.sent| > 0 then |a.sent| - 1 else |a.sent|
  }

  const NOBODY := Thread(Done, Unknown, 0, "", New, [], [], false, false)

  function Holder(s: State, h: Option<Tid>): Thread {
    if h.Some? && h.value < |s.threads| then s.threads[h.value] else NOBODY
  }

  /** The session after the critical section op of goroutine t, with `mu` released. */
  function CellAfter(s: State, t: Tid, op: MuOp): Cell
    requires t < |s.threads| && Target(s.threads[t], op) < |s.sess|
  {
    var th := s.threads[t];
    var c := s.sess[Target(th, op)].(mu := None);
    match op
    case ReserveOp =>
      if !c.s.CanReserve(th.role, th.token, s.now) then c
      else if th.role == Agent then c.(s := c.s.Reserve(th.role, th.token, s.now), agentHolder := Some(t))
      else c.(s := c.s.Reserve(th.role, th.token, s.now), viewerHolder := Some(t))
    case ReleaseOp =>
      var c' := c.(s := c.s.Release(th.role));
      if th.role == Agent then c'.(agentHolder := None) else c'.(viewerHolder := None)
    case SetAgentOp => c.(s := c.s.SetAgent(t, s.now))
    case AttachOp =>
      c.(s := c.s.Attach(t, s.now), attachedAt := Some(Offered(Holder(s, c.agentHolder))))
    case OfferOp(f) => c.(s := c.s.Offer(f, |f.data|, s.now))
    case TouchOp => c.(s := c.s.Touch(s.now))
    case ExpiredOp(_, _, _, _) => c
    case CloseOp(_, _) => c.(s := c.s.Close(), closed := true)
  }

  function ThreadAfter(s: State, t: Tid, op: MuOp): Thread
    requires t < |s.threads| && Target(s.threads[t], op) < |s.sess|
  {
    var th := s.threads[t];
    var c := s.sess[Target(th, op)];
    match op
    case ReserveOp =>
      if c.s.CanReserve(th.role, th.token, s.now) then th.(pc := Upgrading, phase := Reserved)
      else th.(pc := Done)
    case ReleaseOp => th.(pc := Done, phase := New)
    case SetAgentOp => th.(pc := Reading, phase := Connected)
    case AttachOp => th.(pc := Flushing(c.s.buffer), phase := Connected)
    case OfferOp(f) => th.(pc := if c.s.browser.Some? then WaitSend(Live(c.s.browser.value, f)) else WaitMu(TouchOp))
    case TouchOp => th.(pc := Reading)
    case ExpiredOp(x, at, todo, stale) =>
      th.(pc := Sweeping(at, todo, if c.s.IsExpired(at) then stale + [x] else stale))
    case CloseOp(_, next) => th.(pc := Dropping(c.s.agent, c.s.browser, next))
  }

  function DoMu(s: State, t: Tid, op: MuOp): State
    requires t < |s.threads| && Target(s.threads[t], op) < |s.sess|
  {
    var x := Target(s.threads[t], op);
    s.(sess := s.sess[x := CellAfter(s, t, op)],
       threads := s.threads[t := ThreadAfter(s, t, op)],
       table := if op.ExpiredOp? && s.sess[x].s.IsExpired(op.at) then s.table - {x} else s.table)
  }

  /** A write to a viewer socket: it fails on a broken socket, and a failure breaks the socket for good. */
  function Write(v: Thread, w: Wire, ok: bool): Thread {
    if ok && !v.broken then v.(out := v.out + [w]) else v.(broken := true)
  }

  function DoSend(s: State, t: Tid, b: Tid, f: Frame, ok: bool): State
    requires t < |s.threads| && b < |s.threads| && s.threads[t].id < |s.sess|
  {
    var x := s.threads[t].id;
    var written := s.threads[b := Write(s.threads[b], Wire(f, true), ok)];
    s.(sess := s.sess[x := s.sess[x].(sendMu := None)],
       threads := written[t := written[t].(pc := WaitMu(TouchOp))])
  }

  function DoFlush(s: State, t: Tid, rest: seq<Frame>, ok: bool): State
    requires t < |s.threads| && s.threads[t].id < |s.sess|
  {
    var th := s.threads[t];
    if rest == [] then
      s.(sess := s.sess[th.id := s.sess[th.id].(sendMu := None)], threads := s.threads[t := th.(pc := Reading)])
    else
      var th' := Write(th, Wire(rest[0], false), ok);
      s.(threads := s.threads[t := th'.(pc := Flushing(if th'.broken then [] else rest[1..]))])
  }

  /** One iteration of the read loop. An agent forwards text frames, a viewer must stay silent. */
  function AfterRead(th: Thread, ch: Choice): Thread {
    if ch.ok && th.role == Agent && ch.message.Some? && |ch.message.value| <= MAX_RELAY_MESSAGE then
      var f := Frame(|th.sent|, ch.message.value);
      th.(sent := th.sent + [f], pc := WaitMu(OfferOp(f)))
    else if ch.ok && th.role == Viewer && ch.message.None? then
      th.(pc := WaitMu(TouchOp))
    else
      th.(broken := true, pc := WaitStore(Delete))
  }

  function Break(ts: seq<Thread>, h: Option<Tid>): seq<Thread>
    requires h.Some? ==> h.value < |ts|
  {
    if h.None? then ts else ts[h.value := ts[h.value].(broken := true, dropped := true)]
  }

  /** CloseBoth closes the agent's socket, then the viewer's, outside any lock. */
  function DoDrop(s: State, t: Tid, a: Option<Tid>, b: Option<Tid>, next: seq<Sid>): State
    requires t < |s.threads|
    requires (a.Some? ==> a.value < |s.threads|) && (b.Some? ==> b.value < |s.threads|)
  {
    if a.Some? then Goto(s.(threads := Break(s.threads, a)), t, Dropping(None, b, next))
    else Goto(s.(threads := Break(s.threads, b)), t, CloseAll(next))
  }

  function NewCell(agentToken: Token, viewerToken: Token, now: int): Cell {
    Cell(NewSession(agentToken, viewerToken, now), None, None, false, None, None, None, agentToken, viewerToken)
  }

  /** The body of a write-locked section of the store, up to its unlock. */
  function DoStore(s: State, t: Tid, act: StoreOp): State
    requires t < |s.threads|
  {
    match act
    case Delete =>
      var id := s.threads[t].id;
      Goto(s.(writer := None, table := s.table - {id}), t, CloseAll(if id in s.table then [id] else []))
    case Create(at, vt) =>
      Goto(s.(writer := None, table := s.table + {|s.sess|}, sess := s.sess + [NewCell(at, vt, s.now)]), t, Done)
    case Sweep(at) => Goto(s, t, Sweeping(at, s.table, []))
  }

  ghost function PickFrom(todo: set<Sid>, pick: Sid): Sid
    requires todo != {}
  {
    if pick in todo then pick else var x :| x in todo; x
  }

  ghost function DoSweep(s: State, t: Tid, at: int, todo: set<Sid>, stale: seq<Sid>, pick: Sid): State
    requires t < |s.threads|
  {
    if todo == {} then
      Goto(s.(writer := None), t, CloseAll(stale))
    else
      var x := PickFrom(todo, pick);
      Goto(s, t, WaitMu(ExpiredOp(x, at, todo - {x}, stale)))
  }

  ghost function Do(s: State, t: Tid, ch: Choice): State
    requires Enabled(s, t)
  {
    var th := s.threads[t];
    match th.pc
    case Lookup => Goto(s.(readers := s.readers + {t}), t, Looking)
    case Looking =>
      Goto(s.(readers := s.readers - {t}), t, if th.id in s.table then WaitMu(ReserveOp) else Done)
    case WaitMu(op) =>
      var x := Target(th, op);
      Goto(s.(sess := s.sess[x := s.sess[x].(mu := Some(t))]), t, InMu(op))
    case InMu(op) => DoMu(s, t, op)
    case Upgrading =>
      Goto(s, t, if !ch.ok then WaitMu(ReleaseOp) else if th.role == Agent then WaitMu(SetAgentOp) else WaitSend(Flush))
    case Reading => s.(threads := s.threads[t := AfterRead(th, ch)])
    case WaitSend(job) =>
      Goto(s.(sess := s.sess[th.id := s.sess[th.id].(sendMu := Some(t))]), t,
           if job.Flush? then WaitMu(AttachOp) else InSend(job.browser, job.frame))
    case InSend(b, f) => DoSend(s, t, b, f, ch.ok)
    case Flushing(rest) => DoFlush(s, t, rest, ch.ok)
    case WaitStore(act) => Goto(s.(writer := Some(t)), t, InStore(act))
    case InStore(act) => DoStore(s, t, act)
    case Sweeping(at, todo, stale) => DoSweep(s, t, at, todo, stale, ch.pick)
    case Dropping(a, b, next) => DoDrop(s, t, a, b, next)
  }

  /** A goroutine that has not run yet: a request handler, a session creator or a cleanup run. */
  predicate Starts(s: State, th: Thread) {
    && th.phase == New && th.sent == [] && th.out == [] && !th.broken && !th.dropped
    && match th.pc
       case Lookup => th.role != Unknown && th.token != ""
       case WaitStore(Create(at, vt)) => th.role == Unknown && at != "" && vt != ""
       case WaitStore(Sweep(at)) => th.role == Unknown && at == s.now
       case _ => false
  }

  ghost predicate Valid(s: State, e: Event) {
    match e
    case Act(t, _) => Enabled(s, t)
    case Spawn(th) => Starts(s, th)
    case Tick(_) => true
  }

  ghost function Apply(s: State, e: Event): State
    requires Valid(s, e)
  {
    match e
    case Act(t, ch) => Do(s, t, ch)
    case Spawn(th) => s.(threads := s.threads + [th])
    case Tick(d) => s.(now := s.now + d)
  }

  function Init(now: int): State {
    State(now, None, {}, {}, [], [])
  }

  /** s' can be reached from s by the given events, in order. */
  ghost predicate Runs(s: State, es: seq<Event>, s': State)
    decreases |es|
  {
    if es == [] then s == s' else Valid(s, es[0]) && Runs(Apply(s, es[0]), es[1..], s')
  }
}
