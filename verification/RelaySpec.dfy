/**
 What one relay session stores, as a value: the fields of RelaySession in internal/pcap/session.go and
 the effect of each critical section of `mu` on them. The heap class (module RelayHeap) and the
 concurrent protocol (module RelayProtocol) both take their steps from here.

 Times are nanoseconds of one clock that never goes back.
*/
module RelaySpec {
  import opened Options

  const SESSION_TTL: int := 3_600_000_000_000
  const MAX_BUFFER_BYTES: nat := 0x10_0000
  const MAX_BUFFER_ITEMS: nat := 50
  const MAX_RELAY_MESSAGE: nat := 0x1_0000

  type Token = string

  /** RelayRole is a string in the source; Unknown is every string that names neither role. */
  datatype Role = Agent | Viewer | Unknown

  /** Whether a frame of `size` bytes still fits next to `items` buffered frames of `bytes` bytes. */
  predicate Admits(items: nat, bytes: nat, size: nat) {
    items < MAX_BUFFER_ITEMS && bytes + size <= MAX_BUFFER_BYTES
  }

  /** C is what identifies a WebSocket connection, F is a buffered frame. */
  datatype Session<C, F> = Session(
    agent: Option<C>,
    browser: Option<C>,
    buffer: seq<F>,
    bufBytes: nat,
    agentToken: Token,
    viewerToken: Token,
    agentBound: bool,
    viewerBound: bool,
    created: int,
    lastUsed: int)
  {
    /** The tests of Reserve, in its order. */
    predicate CanReserve(role: Role, token: Token, now: int) {
      && now - created <= SESSION_TTL
      && match role
         case Agent => !agentBound && token == agentToken
         case Viewer => !viewerBound && token == viewerToken
         case Unknown => false
    }

    function Reserve(role: Role, token: Token, now: int): Session<C, F> {
      if !CanReserve(role, token, now) then this
      else if role == Agent then this.(agentBound := true, lastUsed := now)
      else this.(viewerBound := true, lastUsed := now)
    }

    /** Clears a reservation whose upgrade failed, unless the role has a connection. */
    function Release(role: Role): Session<C, F> {
      if role == Agent && agent.None? then this.(agentBound := false)
      else if role == Viewer && browser.None? then this.(viewerBound := false)
      else this
    }

    function SetAgent(c: C, now: int): Session<C, F> {
      this.(agent := Some(c), lastUsed := now)
    }

    /** The locked part of SetBrowserAndFlush: publish the viewer and take the buffer. */
    function Attach(c: C, now: int): Session<C, F> {
      this.(browser := Some(c), lastUsed := now, buffer := [], bufBytes := 0)
    }

    /** The locked part of Forward: with no viewer the frame is buffered if it fits, else dropped. */
    function Offer(frame: F, size: nat, now: int): Session<C, F> {
      if browser.None? && Admits(|buffer|, bufBytes, size) then
        this.(lastUsed := now, buffer := buffer + [frame], bufBytes := bufBytes + size)
      else
        this.(lastUsed := now)
    }

    function Touch(now: int): Session<C, F> {
      this.(lastUsed := now)
    }

    /** The locked part of CloseBoth. */
    function Close(): Session<C, F> {
      this.(agent := None, browser := None, buffer := [], bufBytes := 0, agentToken := "", viewerToken := "")
    }

    predicate IsExpired(now: int) {
      now - created > SESSION_TTL || now - lastUsed > SESSION_TTL
    }
  }

  function NewSession<C, F>(agentToken: Token, viewerToken: Token, now: int): Session<C, F> {
    Session(None, None, [], 0, agentToken, viewerToken, false, false, now, now)
  }

  /** Traffic only moves lastUsed forward, so age alone decides expiry: the test Reserve makes. */
  lemma ExpiryIsAge<C, F>(s: Session<C, F>, now: int)
    requires s.created <= s.lastUsed
    ensures s.IsExpired(now) <==> now - s.created > SESSION_TTL
    ensures s.IsExpired(now) ==> forall role, token :: !s.CanReserve(role, token, now)
  {
  }

  /** A failed upgrade leaves no trace but the time: Release undoes Reserve, and the role can be reserved again. */
  lemma ReleaseUndoesReserve<C, F>(s: Session<C, F>, role: Role, token: Token, now: int, later: int)
    requires s.CanReserve(role, token, now)
    requires if role == Agent then s.agent.None? else s.browser.None?
    ensures s.Reserve(role, token, now).Release(role) == s.Touch(now)
    ensures !s.Reserve(role, token, now).CanReserve(role, token, later)
    ensures later - s.created <= SESSION_TTL ==>
              s.Reserve(role, token, now).Release(role).CanReserve(role, token, later)
  {
  }

  /** A role that is connected stays bound, whatever is released. */
  lemma ConnectedStaysBound<C, F>(s: Session<C, F>, c: C, role: Role, now: int)
    ensures var a := s.SetAgent(c, now).Release(role); a.agent == Some(c) && a.agentBound == s.agentBound
    ensures var v := s.Attach(c, now).Release(role); v.browser == Some(c) && v.viewerBound == s.viewerBound
  {
  }
}
