/** What every reachable state of the relay protocol satisfies, and why each step keeps it. */
module RelayInvariant {
  import opened Options
  import opened RelaySpec
  import opened RelayProtocol

  // ----- frames on their way from the agent socket to the viewer socket -----

  function Frames(out: seq<Wire>): (r: seq<Frame>)
    ensures |r| == |out| && forall i :: 0 <= i < |out| ==> r[i] == out[i].frame
  {
    seq(|out|, i requires 0 <= i < |out| => out[i].frame)
  }

  function Rest(v: Thread): seq<Frame> {
    if v.pc.Flushing? then v.pc.rest else []
  }

  /** A frame that Forward has decided to send but not written yet. */
  function InFlight(a: Thread): seq<Frame> {
    match a.pc
    case WaitSend(Live(_, f)) => [f]
    case InSend(_, f) => [f]
    case _ => []
  }

  /** Written, being flushed, buffered, in flight: everything that was accepted and not lost, in order. */
  function Pipe(c: Cell, a: Thread, v: Thread): seq<Frame> {
    Frames(v.out) + Rest(v) + c.s.buffer + InFlight(a)
  }

  function Bytes(p: seq<Frame>): nat {
    if p == [] then 0 else Bytes(p[..|p| - 1]) + |p[|p| - 1].data|
  }

  /** What the bounded buffer keeps of frames offered in this order with no viewer. */
  function Keep(p: seq<Frame>): seq<Frame> {
    if p == [] then [] else
      var k, f := Keep(p[..|p| - 1]), p[|p| - 1];
      if Admits(|k|, Bytes(k), |f.data|) then k + [f] else k
  }

  /** What reaches the viewer of the frames p when nothing is lost but to the full buffer. */
  function Expected(p: seq<Frame>, attachedAt: Option<nat>): seq<Frame>
    requires attachedAt.Some? ==> attachedAt.value <= |p|
  {
    match attachedAt
    case None => Keep(p)
    case Some(k) => Keep(p[..k]) + p[k..]
  }

  predicate Increasing(p: seq<Frame>) {
    forall i, j :: 0 <= i < j < |p| ==> p[i].pos < p[j].pos
  }

  /** p holds frames of a's socket that went through Forward, in order and without repetition. */
  predicate DrawnFrom(p: seq<Frame>, a: Thread) {
    && Increasing(p)
    && forall i :: 0 <= i < |p| ==> p[i].pos < Offered(a) && a.sent[p[i].pos] == p[i]
  }

  predicate FlushedFirst(out: seq<Wire>) {
    forall i, j :: 0 <= i < j < |out| && out[i].live ==> out[j].live
  }

  predicate NoneLive(out: seq<Wire>) {
    forall i :: 0 <= i < |out| ==> !out[i].live
  }

  /** A session's role fields against the goroutines a and v that hold its roles (NOBODY for a free role). */
  predicate RoleLink(c: Cell, a: Thread, v: Thread) {
    && (c.s.agentBound <==> c.agentHolder.Some?)
    && (c.s.viewerBound <==> c.viewerHolder.Some?)
    && (c.s.agent.Some? ==> c.s.agent == c.agentHolder && a.phase.Connected?)
    && (c.s.browser.Some? ==> c.s.browser == c.viewerHolder && v.phase.Connected?)
    && (!c.closed && v.phase.Connected? ==> c.s.browser.Some?)
    && (c.attachedAt.Some? <==> v.phase.Connected?)
    && (c.closed ==> c.s.agentToken == "" && c.s.viewerToken == "")
  }

  /** The frames of a session against the sockets of the goroutines that hold its roles. */
  predicate FlowLink(c: Cell, a: Thread, v: Thread) {
    && (c.s.browser.Some? ==> c.s.buffer == [])
    && (InFlight(a) != [] ==> c.attachedAt.Some? && c.s.buffer == [])
    && (c.attachedAt.None? ==> Rest(v) == [] && v.out == [])
    && (c.attachedAt.Some? ==> c.attachedAt.value <= Offered(a))
    && FlushedFirst(v.out) && (v.pc.Flushing? ==> NoneLive(v.out))
    && c.s.bufBytes == Bytes(c.s.buffer)
    && c.s.bufBytes <= MAX_BUFFER_BYTES && |c.s.buffer| <= MAX_BUFFER_ITEMS
    && DrawnFrom(Pipe(c, a, v), a)
    && (!c.closed && !v.broken ==> Pipe(c, a, v) == Expected(a.sent[..Offered(a)], c.attachedAt))
  }

  // ----- the whole state -----

  predicate HoldsSend(pc: Pc) {
    || pc.InSend? || pc.Flushing?
    || ((pc.WaitMu? || pc.InMu?) && pc.op.AttachOp?)
  }

  predicate HoldsStore(pc: Pc) {
    || pc.InStore? || pc.Sweeping?
    || ((pc.WaitMu? || pc.InMu?) && pc.op.ExpiredOp?)
  }

  /** A cleanup goroutine, or a handler that was connected. */
  predicate MayClose(th: Thread) {
    if th.role == Unknown then th.phase.New? else th.phase.Connected?
  }

  /** A connected agent handler whose latest frame is f. */
  predicate Forwards(th: Thread, f: Frame) {
    th.role == Agent && th.phase.Connected? && |th.sent| > 0 && th.sent[|th.sent| - 1] == f
  }

  predicate OpOk(th: Thread, op: MuOp) {
    match op
    case ReserveOp => th.phase.New? && th.role != Unknown && th.token != ""
    case ReleaseOp => th.phase.Reserved?
    case SetAgentOp => th.phase.Reserved? && th.role == Agent
    case AttachOp => th.phase.Reserved? && th.role == Viewer
    case OfferOp(f) => Forwards(th, f)
    case TouchOp => th.phase.Connected?
    case ExpiredOp(_, _, _, _) => th.phase.New? && th.role == Unknown
    case CloseOp(x, _) => MayClose(th) && (th.role != Unknown ==> x == th.id)
  }

  /** What a goroutine's place in the program says about the rest of it. */
  predicate PcOk(th: Thread) {
    match th.pc
    case Lookup => th.phase.New? && th.role != Unknown && th.token != ""
    case Looking => th.phase.New? && th.role != Unknown && th.token != ""
    case WaitMu(op) => OpOk(th, op)
    case InMu(op) => OpOk(th, op)
    case Upgrading => th.phase.Reserved?
    case Reading => th.phase.Connected?
    case WaitSend(Flush) => th.phase.Reserved? && th.role == Viewer
    case WaitSend(Live(_, f)) => Forwards(th, f)
    case InSend(_, f) => Forwards(th, f)
    case Flushing(_) => th.phase.Connected? && th.role == Viewer
    case WaitStore(act) => if act.Delete? then th.phase.Connected? else th.phase.New? && th.role == Unknown
    case InStore(act) => if act.Delete? then th.phase.Connected? else th.phase.New? && th.role == Unknown
    case Sweeping(_, _, _) => th.phase.New? && th.role == Unknown
    case Dropping(_, _, _) => MayClose(th)
    case Done => !th.phase.Reserved?
  }

  /** Sessions a closing goroutine still has to close: its own for a handler, any existing ones for cleanup. */
  predicate ListOk(th: Thread, n: nat, sids: seq<Sid>) {
    forall i :: 0 <= i < |sids| ==> sids[i] < n && (th.role != Unknown ==> sids[i] == th.id)
  }

  predicate SetOk(n: nat, sids: set<Sid>) {
    forall x :: x in sids ==> x < n
  }

  predicate ListsOk(th: Thread, n: nat) {
    match th.pc
    case WaitMu(op) => OpListsOk(th, op, n)
    case InMu(op) => OpListsOk(th, op, n)
    case Sweeping(_, todo, stale) => SetOk(n, todo) && ListOk(th, n, stale)
    case Dropping(_, _, next) => ListOk(th, n, next)
    case _ => true
  }

  predicate OpListsOk(th: Thread, op: MuOp, n: nat) {
    && Target(th, op) < n
    && match op
       case ExpiredOp(_, _, todo, stale) => SetOk(n, todo) && ListOk(th, n, stale)
       case CloseOp(_, next) => ListOk(th, n, next)
       case _ => true
  }

  predicate OwnOk(th: Thread) {
    && PcOk(th)
    && (!th.phase.New? ==> th.role != Unknown)
    && (!th.phase.Connected? ==> th.sent == [] && th.out == [] && !th.broken)
    && (th.role != Agent ==> th.sent == [])
    && (th.role != Viewer ==> th.out == [])
    && (forall i :: 0 <= i < |th.sent| ==> th.sent[i].pos == i)
  }

  function RoleHolder(c: Cell, role: Role): Option<Tid> {
    match role
    case Agent => c.agentHolder
    case Viewer => c.viewerHolder
    case Unknown => None
  }

  predicate IsThread(s: State, h: Option<Tid>) {
    h.Some? ==> h.value < |s.threads|
  }

  predicate IsConnected(s: State, h: Option<Tid>) {
    h.Some? ==> h.value < |s.threads| && s.threads[h.value].phase.Connected?
  }

  /** b is the connected viewer of session x. */
  predicate SendsTo(s: State, x: Sid, b: Tid)
    requires x < |s.sess|
  {
    b < |s.threads| && s.sess[x].viewerHolder == Some(b) && s.threads[b].phase.Connected?
  }

  ghost predicate ThreadOk(s: State, t: Tid)
    requires t < |s.threads|
  {
    var th := s.threads[t];
    && OwnOk(th)
    && ListsOk(th, |s.sess|)
    && (!th.phase.New? ==> th.id < |s.sess| && RoleHolder(s.sess[th.id], th.role) == Some(t))
    && (th.pc.InMu? ==> s.sess[Target(th, th.pc.op)].mu == Some(t))
    && (HoldsSend(th.pc) ==> s.sess[th.id].sendMu == Some(t))
    && (HoldsStore(th.pc) <==> s.writer == Some(t))
    && (th.pc.Looking? <==> t in s.readers)
    && (th.pc.WaitSend? && th.pc.job.Live? ==> SendsTo(s, th.id, th.pc.job.browser))
    && (th.pc.InSend? ==> SendsTo(s, th.id, th.pc.viewer))
    && (th.pc.Dropping? ==> IsConnected(s, th.pc.agent) && IsConnected(s, th.pc.browser))
  }

  predicate HolderOk(s: State, x: Sid, role: Role, h: Option<Tid>) {
    && IsThread(s, h)
    && (h.Some? ==> var th := s.threads[h.value]; th.role == role && th.id == x && !th.phase.New?)
  }

  predicate LocksOk(s: State, x: Sid, c: Cell) {
    && IsThread(s, c.mu)
    && (c.mu.Some? ==> var th := s.threads[c.mu.value]; th.pc.InMu? && Target(th, th.pc.op) == x)
    && IsThread(s, c.sendMu)
    && (c.sendMu.Some? ==> var th := s.threads[c.sendMu.value]; HoldsSend(th.pc) && th.id == x)
  }

  predicate CellOk(s: State, x: Sid)
    requires x < |s.sess|
  {
    && HolderOk(s, x, Agent, s.sess[x].agentHolder)
    && HolderOk(s, x, Viewer, s.sess[x].viewerHolder)
    && LocksOk(s, x, s.sess[x])
  }

  predicate RoleLinkOk(s: State, x: Sid)
    requires x < |s.sess|
  {
    && s.sess[x].s.created <= s.sess[x].s.lastUsed <= s.now
    && RoleLink(s.sess[x], Holder(s, s.sess[x].agentHolder), Holder(s, s.sess[x].viewerHolder))
  }

  predicate FlowLinkOk(s: State, x: Sid)
    requires x < |s.sess|
  {
    FlowLink(s.sess[x], Holder(s, s.sess[x].agentHolder), Holder(s, s.sess[x].viewerHolder))
  }

  ghost predicate StoreOk(s: State) {
    && IsThread(s, s.writer) && (s.writer.Some? ==> s.readers == {})
    && (forall t :: t in s.readers ==> t < |s.threads|)
    && SetOk(|s.sess|, s.table)
  }

  /** Locks and roles: who holds what, and where in the program it must be. */
  ghost predicate LockInv(s: State) {
    && StoreOk(s)
    && (forall t :: 0 <= t < |s.threads| ==> ThreadOk(s, t))
    && (forall x :: 0 <= x < |s.sess| ==> CellOk(s, x))
  }

  /** Roles and times: what the session objects say about their connections. */
  ghost predicate RoleInv(s: State) {
    forall x :: 0 <= x < |s.sess| ==> RoleLinkOk(s, x)
  }

  /** Frames: what is on its way through each session. */
  ghost predicate FlowInv(s: State) {
    forall x :: 0 <= x < |s.sess| ==> FlowLinkOk(s, x)
  }

  ghost predicate Inv(s: State) {
    LockInv(s) && RoleInv(s) && FlowInv(s)
  }
}
