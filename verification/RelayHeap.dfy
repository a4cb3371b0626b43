/**
 The relay session and the session store as objects: the methods of internal/pcap/session.go with the
 locks left out, each proved to do to the stored fields what module RelaySpec says.
*/
module RelayHeap {
  import opened Options
  import opened RelaySpec

  type Payload = seq<bv8>

  function TotalBytes(frames: seq<Payload>): nat {
    if frames == [] then 0 else TotalBytes(frames[..|frames| - 1]) + |frames[|frames| - 1]|
  }

  /** A WebSocket connection as far as the relay uses it: what was written, and whether it still works. */
  class Conn {
    var log: seq<Payload>
    var broken: bool

    constructor ()
      ensures log == [] && !broken
    {
      log, broken := [], false;
    }

    /** The network decides whether the write succeeds; on a broken connection it never does. */
    method WriteMessage(msg: Payload) returns (ok: bool)
      modifies this
      ensures ok ==> !old(broken) && !broken && log == old(log) + [msg]
      ensures !ok ==> broken && log == old(log)
    {
      var sent: bool := *;
      ok := sent && !broken;
      if ok { log := log + [msg]; } else { broken := true; }
    }

    method Close()
      modifies this`broken
      ensures broken
    {
      broken := true;
    }
  }

  function OfConn(c: Conn?): Option<Conn> {
    if c == null then None else Some(c)
  }

  ghost function Payloads(buffer: seq<array<bv8>>): (r: seq<Payload>)
    reads buffer
    ensures |r| == |buffer| && forall i :: 0 <= i < |r| ==> r[i] == buffer[i][..]
  {
    seq(|buffer|, i requires 0 <= i < |buffer| reads buffer => buffer[i][..])
  }

  lemma TotalBytesGrows(frames: seq<Payload>, f: Payload)
    ensures TotalBytes(frames + [f]) == TotalBytes(frames) + |f|
  {
    assert (frames + [f])[..|frames|] == frames;
  }

  lemma PayloadsGrow(buffer: seq<array<bv8>>, a: array<bv8>)
    ensures Payloads(buffer + [a]) == Payloads(buffer) + [a[..]]
  {
  }

  method Copy(msg: array<bv8>) returns (copyMsg: array<bv8>)
    ensures fresh(copyMsg) && copyMsg[..] == msg[..]
  {
    copyMsg := new bv8[msg.Length](i requires 0 <= i < msg.Length reads msg => msg[i]);
    assert copyMsg[..] == msg[..];
  }

  /** The loop of SetBrowserAndFlush. */
  method Flush(ws: Conn, buf: seq<array<bv8>>)
    modifies ws
    ensures old(ws.log) <= ws.log && ws.log[|old(ws.log)|..] <= Payloads(buf)
    ensures ws.broken || ws.log == old(ws.log) + Payloads(buf)
    ensures old(ws.broken) ==> ws.broken && ws.log == old(ws.log)
  {
    ghost var frames := Payloads(buf);
    var i := 0;
    while i < |buf|
      invariant 0 <= i <= |buf|
      invariant ws.log == old(ws.log) + frames[..i]
      invariant old(ws.broken) ==> i == 0 && ws.broken
      invariant !old(ws.broken) ==> !ws.broken
    {
      var ok := ws.WriteMessage(buf[i][..]);
      if !ok { break; }
      i := i + 1;
    }
  }

  class RelaySession {
    var agent: Conn?
    var browser: Conn?
    var buffer: seq<array<bv8>>
    var bufBytes: nat
    var agentToken: Token
    var viewerToken: Token
    var agentBound: bool
    var viewerBound: bool
    var created: int
    var lastUsed: int

    ghost function View(): Session<Conn, Payload>
      reads this, buffer
    {
      Session(OfConn(agent), OfConn(browser), Payloads(buffer), bufBytes, agentToken, viewerToken,
              agentBound, viewerBound, created, lastUsed)
    }

    ghost predicate Valid()
      reads this, buffer
    {
      && bufBytes == TotalBytes(Payloads(buffer)) <= MAX_BUFFER_BYTES
      && |buffer| <= MAX_BUFFER_ITEMS
      && (browser != null ==> buffer == [])
      && created <= lastUsed
    }

    constructor (agentToken: Token, viewerToken: Token, now: int)
      ensures Valid() && View() == NewSession(agentToken, viewerToken, now)
    {
      agent, browser, buffer, bufBytes := null, null, [], 0;
      this.agentToken, this.viewerToken := agentToken, viewerToken;
      agentBound, viewerBound := false, false;
      created, lastUsed := now, now;
    }

    method Reserve(role: Role, token: Token, now: int) returns (ok: bool)
      requires lastUsed <= now
      modifies this
      ensures old(Valid()) ==> Valid()
      ensures ok == old(View()).CanReserve(role, token, now)
      ensures ok <==> now - created <= SESSION_TTL
                      && ((role == Agent && !old(agentBound) && token == agentToken)
                          || (role == Viewer && !old(viewerBound) && token == viewerToken))
      ensures View() == old(View()).Reserve(role, token, now)
      ensures agentBound == (old(agentBound) || (ok && role == Agent))
      ensures viewerBound == (old(viewerBound) || (ok && role == Viewer))
    {
      if now - created > SESSION_TTL {
        return false;
      }
      match role {
        case Agent =>
          if agentBound || token != agentToken { return false; }
          agentBound := true;
        case Viewer =>
          if viewerBound || token != viewerToken { return false; }
          viewerBound := true;
        case Unknown =>
          return false;
      }
      lastUsed := now;
      return true;
    }

    method Release(role: Role)
      requires Valid()
      modifies this
      ensures Valid() && View() == old(View()).Release(role)
    {
      if role == Agent && agent == null { agentBound := false; }
      if role == Viewer && browser == null { viewerBound := false; }
    }

    method SetAgent(ws: Conn, now: int)
      requires Valid() && lastUsed <= now
      modifies this
      ensures Valid() && View() == old(View()).SetAgent(ws, now)
    {
      agent := ws;
      lastUsed := now;
    }

    /** Publishes the viewer, then writes the buffered frames to it in order until a write fails. */
    method SetBrowserAndFlush(ws: Conn, now: int)
      requires Valid() && lastUsed <= now
      modifies this, ws
      ensures Valid() && View() == old(View()).Attach(ws, now)
      ensures old(ws.log) <= ws.log && ws.log[|old(ws.log)|..] <= old(Payloads(buffer))
      ensures ws.broken || ws.log == old(ws.log) + old(Payloads(buffer))
      ensures old(ws.broken) ==> ws.broken && ws.log == old(ws.log)
    {
      browser := ws;
      lastUsed := now;
      var buf := buffer;
      buffer := [];
      bufBytes := 0;
      Flush(ws, buf);
    }

    /** Keeps a copy of msg if it fits; the copy shares nothing with msg. */
    method BufferCopy(msg: array<bv8>)
      requires Valid() && browser == null && Admits(|buffer|, bufBytes, msg.Length)
      modifies this`buffer, this`bufBytes
      ensures Payloads(buffer) == old(Payloads(buffer)) + [msg[..]] && bufBytes == old(bufBytes) + msg.Length
      ensures Valid()
      ensures old(buffer) < buffer && fresh(buffer[|old(buffer)|])
    {
      var copyMsg := Copy(msg);
      ghost var before := Payloads(buffer);
      TotalBytesGrows(before, msg[..]);
      PayloadsGrow(buffer, copyMsg);
      buffer := buffer + [copyMsg];
      bufBytes := bufBytes + copyMsg.Length;
    }

    /** What Forward does while there is no viewer: keep a copy of msg if it fits, drop it otherwise. */
    method KeepOrDrop(msg: array<bv8>)
      requires Valid() && browser == null
      modifies this`buffer, this`bufBytes
      ensures Valid() && View() == old(View()).Offer(msg[..], msg.Length, lastUsed)
      ensures buffer == old(buffer) || (old(buffer) < buffer && fresh(buffer[|old(buffer)|]))
    {
      if |buffer| < MAX_BUFFER_ITEMS && bufBytes + msg.Length <= MAX_BUFFER_BYTES {
        BufferCopy(msg);
      }
    }

    /** Writes msg to the viewer, or keeps a copy of it while there is none and it fits. */
    method Forward(msg: array<bv8>, now: int)
      requires Valid() && lastUsed <= now
      modifies this, if browser == null then {} else {browser}
      ensures Valid() && View() == old(View()).Offer(msg[..], msg.Length, now)
      ensures buffer == old(buffer) || (old(buffer) < buffer && fresh(buffer[|old(buffer)|]))
      ensures browser != null ==>
                (browser.log == old(browser.log) + [msg[..]] && !old(browser.broken) && !browser.broken)
                || (browser.log == old(browser.log) && browser.broken)
    {
      lastUsed := now;
      assert View() == old(View()).Touch(now);
      if browser == null {
        KeepOrDrop(msg);
      } else {
        var _ := browser.WriteMessage(msg[..]);
        assert Payloads(buffer) == [] && View() == old(View()).Touch(now);
      }
    }

    method Touch(now: int)
      requires Valid() && lastUsed <= now
      modifies this
      ensures Valid() && View() == old(View()).Touch(now)
    {
      lastUsed := now;
    }

    predicate IsExpired(now: int)
      reads this
    {
      now - created > SESSION_TTL || now - lastUsed > SESSION_TTL
    }

    method CloseBoth()
      modifies this, Conns()
      ensures old(Valid()) ==> Valid()
      ensures View() == old(View()).Close() && Cleared()
      ensures old(agent) != null ==> old(agent).broken && old(agent).log == old(agent.log)
      ensures old(browser) != null ==> old(browser).broken && old(browser).log == old(browser.log)
    {
      var a, b := agent, browser;
      agent, browser, buffer, bufBytes := null, null, [], 0;
      agentToken, viewerToken := "", "";
      if a != null { a.Close(); }
      if b != null { b.Close(); }
    }

    /** Nothing of the connections, credentials and frames is left. */
    predicate Cleared()
      reads this
    {
      agent == null && browser == null && buffer == [] && bufBytes == 0 && agentToken == "" && viewerToken == ""
    }

    /** The open connections of the session. */
    function Conns(): set<Conn>
      reads this
    {
      (if agent == null then {} else {agent}) + (if browser == null then {} else {browser})
    }
  }
}
