/** The session store of internal/pcap/session.go, run sequentially. */
module RelayStore {
  import opened RelaySpec
  import opened RelayHeap

  predicate IsHex(c: char) {
    '0' <= c <= '9' || 'a' <= c <= 'f' || 'A' <= c <= 'F'
  }

  predicate ValidSessionID(id: string) {
    |id| == 32 && forall i :: 0 <= i < |id| ==> IsHex(id[i])
  }

  const HEX := "0123456789abcdef"

  /** hex.EncodeToString: two digits a byte. */
  function Hex(bytes: seq<bv8>): string {
    if bytes == [] then "" else
      Hex(bytes[..|bytes| - 1]) + [HEX[bytes[|bytes| - 1] as int / 16], HEX[bytes[|bytes| - 1] as int % 16]]
  }

  lemma {:induction false} HexDigits(bytes: seq<bv8>)
    ensures |Hex(bytes)| == 2 * |bytes| && forall i :: 0 <= i < |Hex(bytes)| ==> IsHex(Hex(bytes)[i])
  {
    if bytes != [] {
      HexDigits(bytes[..|bytes| - 1]);
      assert forall d :: 0 <= d < 16 ==> IsHex(HEX[d]);
    }
  }

  /** The IDs Create draws, sixteen random bytes in hexadecimal, are well formed. */
  lemma RandomIDIsValid(bytes: seq<bv8>)
    requires |bytes| == 16
    ensures ValidSessionID(Hex(bytes))
  {
    HexDigits(bytes);
  }

  class SessionStore {
    var sessions: map<string, RelaySession>

    ghost predicate Valid()
      reads this, sessions.Values
    {
      Separate(sessions)
    }

    ghost function AllConns(): set<Conn>
      reads this, sessions.Values
    {
      set id, c | id in sessions && c in sessions[id].Conns() :: c
    }

    constructor ()
      ensures Valid() && sessions == map[]
    {
      sessions := map[];
    }

    /** id and the tokens are what the random generator delivers; id is new. */
    method Create(id: string, agentToken: Token, viewerToken: Token, now: int)
      requires Valid() && id !in sessions
      modifies this
      ensures Valid()
      ensures id in sessions && fresh(sessions[id]) && sessions == old(sessions)[id := sessions[id]]
      ensures sessions[id].Valid() && sessions[id].View() == NewSession(agentToken, viewerToken, now)
    {
      var sess := new RelaySession(agentToken, viewerToken, now);
      sessions := sessions[id := sess];
    }

    method Reserve(id: string, role: Role, token: Token, now: int) returns (sess: RelaySession?)
      requires Valid() && (id in sessions ==> sessions[id].lastUsed <= now)
      modifies if id in sessions then {sessions[id]} else {}
      ensures Valid()
      ensures sess != null <==>
              && ValidSessionID(id) && token != "" && id in sessions
              && old(sessions[id].View()).CanReserve(role, token, now)
      ensures sess != null ==> sess == sessions[id] && sess.View() == old(sessions[id].View()).Reserve(role, token, now)
      ensures sess == null && id in sessions ==> sessions[id].View() == old(sessions[id].View())
    {
      if !ValidSessionID(id) || token == "" || id !in sessions {
        return null;
      }
      var ok := sessions[id].Reserve(role, token, now);
      if !ok {
        return null;
      }
      return sessions[id];
    }

    method Delete(id: string)
      requires Valid()
      modifies this
      modifies if id in sessions then {sessions[id]} else {}
      modifies if id in sessions then sessions[id].Conns() else {}
      ensures Valid()
      ensures sessions == old(sessions) - {id}
      ensures id in old(sessions) ==>
                old(sessions)[id].View() == old(sessions[id].View()).Close() && Down(old(sessions[id].Conns()))
    {
      if id in sessions {
        var sess := sessions[id];
        ghost var before := sessions;
        sessions := sessions - {id};
        KeptApart(before, sessions, [id], [sess]);
        sess.CloseBoth();
      }
    }

    /**
     The first pass of cleanup: the expired sessions leave the store and are listed in stale.
     gone holds their IDs.
    */
    method TakeStale(now: int) returns (stale: seq<RelaySession>, ghost gone: seq<string>)
      modifies this
      ensures forall id :: id in sessions <==> id in old(sessions) && !old(sessions)[id].IsExpired(now)
      ensures forall id :: id in sessions ==> sessions[id] == old(sessions)[id]
      ensures Lists(old(sessions), gone, stale)
      ensures forall id :: id in gone <==> id in old(sessions) && old(sessions)[id].IsExpired(now)
    {
      ghost var before := sessions;
      var todo := sessions.Keys;
      stale, gone := [], [];
      while todo != {}
        invariant todo <= before.Keys
        invariant forall id :: id in sessions <==> id in before && (id in todo || !before[id].IsExpired(now))
        invariant forall id :: id in sessions ==> sessions[id] == before[id]
        invariant Lists(before, gone, stale)
        invariant forall id :: id in gone <==> id in before && id !in todo && before[id].IsExpired(now)
      {
        var id :| id in todo;
        todo := todo - {id};
        if sessions[id].IsExpired(now) {
          stale := stale + [sessions[id]];
          sessions := sessions - {id};
          gone := gone + [id];
        }
      }
    }

    /**
     One run of cleanup: no expired session stays in the store and each one removed is closed; the
     unexpired sessions and their connections are untouched.
    */
    method Cleanup(now: int)
      requires Valid()
      modifies this, sessions.Values, AllConns()
      ensures Valid()
      ensures forall id :: id in sessions <==> id in old(sessions) && !old(sessions[id].IsExpired(now))
      ensures forall id :: id in sessions ==> sessions[id] == old(sessions[id]) && unchanged(sessions[id])
      ensures forall id, c :: id in sessions && c in sessions[id].Conns() ==> unchanged(c)
      ensures forall id :: id in old(sessions) && id !in sessions ==>
                old(sessions)[id].Cleared() && Down(old(sessions[id].Conns()))
    {
      ghost var before := sessions;
      var stale, gone := TakeStale(now);
      CloseStale(stale, gone, before, sessions);
    }
  }

  /** stale are the sessions known as gone, each listed once. */
  ghost predicate Lists(sessions: map<string, RelaySession>, gone: seq<string>, stale: seq<RelaySession>) {
    && |gone| == |stale|
    && (forall i :: 0 <= i < |gone| ==> gone[i] in sessions && stale[i] == sessions[gone[i]])
    && (forall i, j :: 0 <= i < j < |gone| ==> gone[i] != gone[j])
  }

  ghost predicate Down(conns: set<Conn>)
    reads conns
  {
    forall c :: c in conns ==> c.broken
  }

  ghost function ConnsOf(stale: seq<RelaySession>): set<Conn>
    reads stale
  {
    set i, c | 0 <= i < |stale| && c in stale[i].Conns() :: c
  }

  /** The sessions kept in the store, and their connections, are none of the stale ones. */
  lemma KeptApart(before: map<string, RelaySession>, kept: map<string, RelaySession>,
                  gone: seq<string>, stale: seq<RelaySession>)
    requires Separate(before) && Lists(before, gone, stale)
    requires forall id :: id in kept ==> id in before && kept[id] == before[id] && id !in gone
    ensures forall id :: id in kept ==> kept[id] !in stale && kept[id].Conns() !! ConnsOf(stale)
  {
    forall id | id in kept ensures kept[id] !in stale && kept[id].Conns() !! ConnsOf(stale) {
      forall i | 0 <= i < |stale| ensures kept[id] != stale[i] && kept[id].Conns() !! stale[i].Conns() {
        assert gone[i] in before && gone[i] != id;
      }
    }
  }

  /** Different IDs lead to different sessions, which share no connection. */
  ghost predicate Separate(sessions: map<string, RelaySession>)
    reads sessions.Values
  {
    forall id, other :: id in sessions && other in sessions && id != other ==>
      sessions[id] != sessions[other] && sessions[id].Conns() !! sessions[other].Conns()
  }

  /** The second pass of cleanup. */
  method CloseAll(stale: seq<RelaySession>, ghost gone: seq<string>, ghost before: map<string, RelaySession>)
    requires Lists(before, gone, stale)
    requires Separate(before)
    modifies stale, ConnsOf(stale)
    ensures forall id :: id in gone ==> before[id].Cleared() && Down(old(before[id].Conns()))
  {
    for k := 0 to |stale|
      invariant forall i :: 0 <= i < k ==> stale[i].Cleared() && Down(old(stale[i].Conns()))
      invariant forall i :: k <= i < |stale| ==> unchanged(stale[i])
    {
      assert stale[k].Conns() == old(stale[k].Conns());
      stale[k].CloseBoth();
    }
    forall id | id in gone ensures before[id].Cleared() && Down(old(before[id].Conns())) {
      var i :| 0 <= i < |gone| && gone[i] == id;
      assert stale[i] == before[id];
    }
  }

  /** It leaves the sessions that stay in the store, and their connections, alone. */
  method CloseStale(stale: seq<RelaySession>, ghost gone: seq<string>, ghost before: map<string, RelaySession>,
                    ghost kept: map<string, RelaySession>)
    requires Lists(before, gone, stale)
    requires Separate(before)
    requires forall id :: id in kept ==> id in before && kept[id] == before[id] && id !in gone
    modifies stale, ConnsOf(stale)
    ensures forall id :: id in gone ==> before[id].Cleared() && Down(old(before[id].Conns()))
    ensures forall id :: id in kept ==> unchanged(kept[id])
    ensures forall id, c :: id in kept && c in kept[id].Conns() ==> unchanged(c)
    ensures Separate(kept)
  {
    KeptApart(before, kept, gone, stale);
    CloseAll(stale, gone, before);
  }
}
