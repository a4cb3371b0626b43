/** Any sequence of calls on one relay session: what is done in one role does not disturb the other. */
module RelayCalls {
  import opened RelaySpec

  /** The calls on one session. */
  datatype Call<C, F> =
    | Reserves(role: Role, token: Token, at: int)
    | Releases(role: Role)
    | SetsAgent(agent: C, at: int)
    | Attaches(browser: C, at: int)
    | Offers(frame: F, size: nat, at: int)
    | Touches(at: int)
    | Closes
  {
    /** Whether the call is about the given role; closing is about both. */
    predicate Concerns(r: Role) {
      match this
      case Reserves(role, _, _) => role == r
      case Releases(role) => role == r
      case SetsAgent(_, _) => r == Agent
      case Attaches(_, _) => r == Viewer
      case Closes => true
      case _ => false
    }
  }

  function Called<C, F>(s: Session<C, F>, call: Call<C, F>): Session<C, F> {
    match call
    case Reserves(role, token, at) => s.Reserve(role, token, at)
    case Releases(role) => s.Release(role)
    case SetsAgent(c, at) => s.SetAgent(c, at)
    case Attaches(c, at) => s.Attach(c, at)
    case Offers(f, size, at) => s.Offer(f, size, at)
    case Touches(at) => s.Touch(at)
    case Closes => s.Close()
  }

  function CalledAll<C, F>(s: Session<C, F>, calls: seq<Call<C, F>>): Session<C, F> {
    if calls == [] then s else Called(CalledAll(s, calls[..|calls| - 1]), calls[|calls| - 1])
  }

  function Concerning<C, F>(calls: seq<Call<C, F>>, role: Role): seq<Call<C, F>> {
    if calls == [] then [] else
      var before, call := Concerning(calls[..|calls| - 1], role), calls[|calls| - 1];
      if call.Concerns(role) then before + [call] else before
  }

  /** Two sessions alike in all that one role has to do with. */
  predicate AlikeFor<C, F>(s: Session<C, F>, s': Session<C, F>, role: Role) {
    && s.created == s'.created
    && (role == Agent ==>
          s.agentBound == s'.agentBound && s.agentToken == s'.agentToken && s.agent.Some? == s'.agent.Some?)
    && (role == Viewer ==>
          s.viewerBound == s'.viewerBound && s.viewerToken == s'.viewerToken && s.browser.Some? == s'.browser.Some?)
  }

  lemma SameCallAlike<C, F>(s: Session<C, F>, s': Session<C, F>, call: Call<C, F>, role: Role)
    requires AlikeFor(s, s', role) && call.Concerns(role)
    ensures AlikeFor(Called(s, call), Called(s', call), role)
  {
    match call
    case Reserves(_, _, _) =>
    case Releases(_) =>
    case _ =>
  }

  lemma OtherCallAlike<C, F>(s: Session<C, F>, call: Call<C, F>, role: Role)
    requires !call.Concerns(role)
    ensures AlikeFor(Called(s, call), s, role)
  {
    match call
    case Reserves(_, _, _) =>
    case Releases(_) =>
    case _ =>
  }

  lemma CalledAlike<C, F>(s: Session<C, F>, s': Session<C, F>, call: Call<C, F>, role: Role)
    requires AlikeFor(s, s', role)
    ensures AlikeFor(Called(s, call), if call.Concerns(role) then Called(s', call) else s', role)
  {
    if call.Concerns(role) { SameCallAlike(s, s', call, role); } else { OtherCallAlike(s, call, role); }
  }

  lemma {:induction false} CallsAlike<C, F>(s: Session<C, F>, calls: seq<Call<C, F>>, role: Role)
    ensures AlikeFor(CalledAll(s, calls), CalledAll(s, Concerning(calls, role)), role)
  {
    if calls != [] {
      var before, call := calls[..|calls| - 1], calls[|calls| - 1];
      CallsAlike(s, before, role);
      CalledAlike(CalledAll(s, before), CalledAll(s, Concerning(before, role)), call, role);
      assert (Concerning(before, role) + [call])[..|Concerning(before, role)|] == Concerning(before, role);
    }
  }

  /**
   After any calls on a session, whether a role can be reserved depends on the calls about that role alone; and
   a role nobody has called for can be reserved with its token for an hour.
  */
  lemma OwnRoleDecides<C, F>(agentToken: Token, viewerToken: Token, start: int, calls: seq<Call<C, F>>,
                             role: Role, token: Token, now: int)
    ensures var initial := NewSession<C, F>(agentToken, viewerToken, start);
            && CalledAll(initial, calls).CanReserve(role, token, now)
               == CalledAll(initial, Concerning(calls, role)).CanReserve(role, token, now)
            && (Concerning(calls, role) == [] ==>
                  (CalledAll(initial, calls).CanReserve(role, token, now) <==>
                    && now - start <= 3_600_000_000_000
                    && ((role == Agent && token == agentToken) || (role == Viewer && token == viewerToken))))
  {
    var initial := NewSession<C, F>(agentToken, viewerToken, start);
    CallsAlike(initial, calls, role);
  }
}
