/**
 The connection management of frontend/pcap/app.js: one current socket, one reconnect timer, a bounded
 number of first attempts in relay mode and endless quiet retries in local mode.
*/
module Reconnect {
  import opened Bits
  import opened Options

  const MAX_INITIAL_RELAY_ATTEMPTS: nat := 3

  datatype ReadyState = CONNECTING | OPEN | CLOSING | CLOSED

  datatype Status = Starting | Connecting | Connected | LocalUnavailable | RelayEnded | RelayUnavailable

  /** What the browser delivers. Sockets and timers are numbered in order of creation. */
  datatype Event =
    | Opened(socket: nat)
    | Closing(socket: nat)
    | Failed(socket: nat)
    | Closed(socket: nat)
    | Fired(timer: nat)

  function Min(a: int, b: int): int {
    if a <= b then a else b
  }

  /** The delay in milliseconds before local attempt number n. */
  function LocalDelay(n: nat): int
    requires n > 0
  {
    Min(3000 * Pow2(Min(n - 1, 4)), 30000)
  }

  function RelayDelay(n: nat): int {
    Min(3000 * n, 15000)
  }

  lemma LocalDelaysGrow(n: nat)
    requires n > 0
    ensures 3000 <= LocalDelay(n) <= LocalDelay(n + 1) <= 30000
    ensures LocalDelay(n) == 3000 <==> n == 1
    ensures n >= 5 ==> LocalDelay(n) == 30000
  {
    assert Pow2(0) == 1 && Pow2(1) == 2 && Pow2(2) == 4 && Pow2(3) == 8 && Pow2(4) == 16;
    if n <= 1 {} else if n == 2 {} else if n == 3 {} else if n == 4 {}
  }

  lemma {:induction false} LocalDelaysMonotone(m: nat, n: nat)
    requires 0 < m <= n
    ensures 3000 <= LocalDelay(m) <= LocalDelay(n) <= 30000
    decreases n - m
  {
    LocalDelaysGrow(m);
    if m < n { LocalDelaysMonotone(m + 1, n); }
  }

  /** In relay mode the first attempts are 3 and 6 seconds apart; any later one would wait up to 15. */
  lemma RelayDelays(n: nat)
    ensures RelayDelay(1) == 3000 && RelayDelay(2) == 6000
    ensures RelayDelay(n) == if n <= 5 then 3000 * n else 15000
  {
  }

  /** In local mode the delays double from 3 seconds on and stay at 30. */
  lemma LocalDelays(n: nat)
    requires n > 0
    ensures LocalDelay(n) == if n == 1 then 3000 else if n == 2 then 6000 else if n == 3 then 12000
                             else if n == 4 then 24000 else 30000
  {
    LocalDelaysGrow(n);
    assert Pow2(1) == 2 && Pow2(2) == 4 && Pow2(3) == 8;
  }

  // ----- the life of a connection, without sockets and timers -----

  datatype Stage = HasSocket | HasTimer | Ended

  /**
   How many sockets and timers there have been, how many retries since the last open, whether a relay has
   opened, and what there is now: the newest socket, the newest timer, or neither.
  */
  datatype Life = Life(sockets: nat, timers: nat, retries: nat, hasOpened: bool, stage: Stage)

  const BORN := Life(1, 0, 0, false, HasSocket)

  /** Only the newest socket and the newest timer can still do something. */
  function Next(relay: bool, l: Life, e: Event): Life {
    match e
    case Opened(i) =>
      if l.stage == HasSocket && i + 1 == l.sockets then l.(retries := 0, hasOpened := relay) else l
    case Closed(i) =>
      if l.stage != HasSocket || i + 1 != l.sockets then l
      else if relay && (l.hasOpened || l.sockets >= MAX_INITIAL_RELAY_ATTEMPTS) then l.(stage := Ended)
      else l.(stage := HasTimer, timers := l.timers + 1, retries := l.retries + 1)
    case Fired(k) =>
      if l.stage == HasTimer && k + 1 == l.timers then l.(stage := HasSocket, sockets := l.sockets + 1) else l
    case _ => l
  }

  function LifeAfter(relay: bool, l: Life, events: seq<Event>): Life {
    if events == [] then l else Next(relay, LifeAfter(relay, l, events[..|events| - 1]), events[|events| - 1])
  }

  /** The event is the pending timer firing. */
  predicate Fires(l: Life, e: Event) {
    e.Fired? && l.stage == HasTimer && e.timer + 1 == l.timers
  }

  /** How many of the events are the pending timer firing. */
  function FiredIn(relay: bool, l: Life, events: seq<Event>): nat {
    if events == [] then 0 else
      var before := events[..|events| - 1];
      FiredIn(relay, l, before) + if Fires(LifeAfter(relay, l, before), events[|events| - 1]) then 1 else 0
  }

  /** Every timer that fires constructs one socket, and nothing else does. */
  lemma {:induction false} SocketsAreFired(relay: bool, l: Life, events: seq<Event>)
    ensures LifeAfter(relay, l, events).sockets == l.sockets + FiredIn(relay, l, events)
  {
    if events != [] { SocketsAreFired(relay, l, events[..|events| - 1]); }
  }

  /**
   In local mode a connection never ends: it has a socket whose close sets the next timer, or a timer that
   constructs the next socket when it fires.
  */
  lemma {:induction false} AlwaysReconnects(events: seq<Event>)
    ensures var l := LifeAfter(false, BORN, events);
            && l.stage != Ended && l.sockets > 0 && (l.stage == HasTimer ==> l.timers > 0)
            && (l.stage == HasTimer ==>
                  LifeAfter(false, BORN, events + [Fired(l.timers - 1)])
                  == l.(stage := HasSocket, sockets := l.sockets + 1))
            && (l.stage == HasSocket ==>
                  LifeAfter(false, BORN, events + [Closed(l.sockets - 1)] + [Fired(l.timers)])
                  == l.(sockets := l.sockets + 1, timers := l.timers + 1, retries := l.retries + 1))
  {
    if events != [] { AlwaysReconnects(events[..|events| - 1]); }
    var l := LifeAfter(false, BORN, events);
    if l.stage == HasTimer {
      assert (events + [Fired(l.timers - 1)])[..|events|] == events;
    } else {
      var more := events + [Closed(l.sockets - 1)];
      assert more[..|events|] == events && (more + [Fired(l.timers)])[..|more|] == more;
    }
  }

  /** In relay mode it ends for good, with at most three sockets, and with the one that opened if one did. */
  lemma {:induction false} RelayLife(events: seq<Event>)
    ensures var l := LifeAfter(true, BORN, events);
            && 1 <= l.sockets <= 3 && (l.hasOpened ==> l.stage != HasTimer)
            && (l.stage == HasTimer ==> l.sockets < 3)
            && (l.stage == Ended ==> l.hasOpened || l.sockets == 3)
            && forall e :: (l.stage == Ended ==> Next(true, l, e) == l)
                        && (l.hasOpened ==> Next(true, l, e).sockets == l.sockets && Next(true, l, e).hasOpened)
  {
    if events != [] { RelayLife(events[..|events| - 1]); }
  }

  class Connection {
    const relay: bool                 // SESSION_ID is set
    var ws: Option<nat>               // the current socket
    var sockets: seq<ReadyState>      // every socket constructed so far
    var reconnectTimer: Option<nat>
    var pending: set<nat>             // timers of the browser that have neither fired nor been cleared
    var timersSet: nat
    var reconnectAttempts: nat
    var relayConnectionAttempts: nat
    var relayOpened: bool
    var status: Status
    ghost var delays: seq<int>        // the delays of the retries since the last open, oldest first
    ghost var openedWith: Option<nat> // how many sockets had been constructed when one first opened

    ghost predicate Live()
      reads this
    {
      ws.Some?
    }

    ghost predicate Waiting()
      reads this
    {
      reconnectTimer.Some?
    }

    ghost predicate Terminal()
      reads this
    {
      relay && ws.None? && reconnectTimer.None?
    }

    ghost predicate Valid()
      reads this
    {
      && (ws.Some? ==> ws.value < |sockets| && sockets[ws.value] != CLOSED)
      && (forall i :: 0 <= i < |sockets| && ws != Some(i) ==> sockets[i] == CLOSED)
      && (ws.Some? ==> ws.value == |sockets| - 1)
      && (reconnectTimer.Some? ==> reconnectTimer.value == timersSet - 1)
      && pending == (if reconnectTimer.Some? then {reconnectTimer.value} else {})
      && (reconnectTimer.Some? ==> reconnectTimer.value < timersSet)
      && !(ws.Some? && reconnectTimer.Some?)
      && (!relay ==> ws.Some? || reconnectTimer.Some?)
      && (relay ==> |sockets| == relayConnectionAttempts <= MAX_INITIAL_RELAY_ATTEMPTS)
      && (relay && Terminal() ==> if relayOpened then status == RelayEnded
                                  else status == RelayUnavailable && |sockets| == MAX_INITIAL_RELAY_ATTEMPTS)
      && (relayOpened ==> relay && reconnectTimer.None?)
      && (relay ==> (relayOpened <==> openedWith.Some?) && (relayOpened ==> openedWith == Some(|sockets|)))
      && (relay && reconnectTimer.Some? ==> relayConnectionAttempts < MAX_INITIAL_RELAY_ATTEMPTS)
      && |delays| == reconnectAttempts
      && (forall i :: 0 <= i < |delays| ==> delays[i] == if relay then RelayDelay(i + 1) else LocalDelay(i + 1))
    }

    ghost function LifeNow(): Life
      reads this
    {
      Life(|sockets|, timersSet, reconnectAttempts, relayOpened,
           if ws.Some? then HasSocket else if reconnectTimer.Some? then HasTimer else Ended)
    }

    /** The browser can deliver the event: the socket is not closed yet, the timer is pending. */
    predicate Deliverable(e: Event)
      reads this
    {
      match e
      case Opened(i) => i < |sockets| && sockets[i] != CLOSED
      case Closing(i) => i < |sockets| && sockets[i] != CLOSED
      case Failed(i) => i < |sockets| && sockets[i] != CLOSED
      case Closed(i) => i < |sockets| && sockets[i] != CLOSED
      case Fired(k) => k in pending
    }

    constructor (relay: bool)
      ensures Valid() && this.relay == relay && LifeNow() == BORN && openedWith == None
    {
      this.relay := relay;
      ws, sockets, reconnectTimer, pending, timersSet := None, [], None, {}, 0;
      reconnectAttempts, relayConnectionAttempts, relayOpened := 0, 0, false;
      status, delays, openedWith := Starting, [], None;
      new;
      Connect();
    }

    /** The browser's timers once the reconnect timer is cleared. */
    function PendingWithoutTimer(): set<nat>
      reads this
    {
      if reconnectTimer.Some? then pending - {reconnectTimer.value} else pending
    }

    method ClearTimer()
      modifies this`pending, this`reconnectTimer
      ensures reconnectTimer == None
      ensures pending == old(PendingWithoutTimer())
    {
      if reconnectTimer.Some? { pending := pending - {reconnectTimer.value}; }
      reconnectTimer := None;
    }

    method SetTimer()
      modifies this`pending, this`reconnectTimer, this`timersSet
      ensures reconnectTimer == Some(old(timersSet)) && timersSet == old(timersSet) + 1
      ensures pending == old(pending) + {old(timersSet)}
    {
      reconnectTimer := Some(timersSet);
      pending := pending + {timersSet};
      timersSet := timersSet + 1;
    }

    predicate HasLiveSocket()
      reads this
    {
      ws.Some? && ws.value < |sockets| && (sockets[ws.value] == OPEN || sockets[ws.value] == CONNECTING)
    }

    /** Constructs a socket, unless there is a live one or relay mode rules it out. */
    method Connect()
      modifies this`ws, this`sockets, this`reconnectTimer, this`pending, this`relayConnectionAttempts, this`status
      ensures var blocked := old(HasLiveSocket()) || (relay && relayOpened)
                             || (relay && old(relayConnectionAttempts) >= MAX_INITIAL_RELAY_ATTEMPTS);
              if blocked then
                && status == (if old(HasLiveSocket()) || (relay && relayOpened) then old(status) else RelayUnavailable)
                && ws == old(ws) && sockets == old(sockets) && reconnectTimer == old(reconnectTimer)
                && pending == old(pending) && relayConnectionAttempts == old(relayConnectionAttempts)
              else
                && status == (if relay || reconnectAttempts == 0 then Connecting else old(status))
                && ws == Some(|old(sockets)|) && sockets == old(sockets) + [CONNECTING] && reconnectTimer == None
                && pending == old(PendingWithoutTimer())
                && relayConnectionAttempts == old(relayConnectionAttempts) + if relay then 1 else 0
    {
      if HasLiveSocket() { return; }
      if relay && relayOpened { return; }
      if relay && relayConnectionAttempts >= MAX_INITIAL_RELAY_ATTEMPTS {
        status := RelayUnavailable;
        return;
      }
      if reconnectTimer.Some? { ClearTimer(); }
      if relay || reconnectAttempts == 0 { status := Connecting; }
      if relay { relayConnectionAttempts := relayConnectionAttempts + 1; }
      ws := Some(|sockets|);
      sockets := sockets + [CONNECTING];
    }

    method ScheduleLocalReconnect()
      modifies this`reconnectAttempts, this`delays, this`reconnectTimer, this`pending, this`timersSet
      ensures if old(reconnectTimer).Some? then
                && reconnectTimer == old(reconnectTimer) && pending == old(pending) && timersSet == old(timersSet)
                && reconnectAttempts == old(reconnectAttempts) && delays == old(delays)
              else
                && reconnectTimer == Some(old(timersSet)) && pending == old(pending) + {old(timersSet)}
                && timersSet == old(timersSet) + 1 && reconnectAttempts == old(reconnectAttempts) + 1
                && delays == old(delays) + [LocalDelay(reconnectAttempts)]
    {
      if reconnectTimer.Some? { return; }
      reconnectAttempts := reconnectAttempts + 1;
      var delay := Min(3000 * Pow2(Min(reconnectAttempts - 1, 4)), 30000);
      delays := delays + [delay];
      SetTimer();
    }

    method ScheduleRelayReconnect()
      modifies this`reconnectAttempts, this`delays, this`reconnectTimer, this`pending, this`timersSet, this`status
      ensures if relayConnectionAttempts >= MAX_INITIAL_RELAY_ATTEMPTS then
                && reconnectTimer == None && status == RelayUnavailable && timersSet == old(timersSet)
                && pending == old(PendingWithoutTimer())
                && reconnectAttempts == old(reconnectAttempts) && delays == old(delays)
              else if old(reconnectTimer).Some? then
                && reconnectTimer == old(reconnectTimer) && pending == old(pending) && timersSet == old(timersSet)
                && reconnectAttempts == old(reconnectAttempts) && delays == old(delays) && status == old(status)
              else
                && reconnectTimer == Some(old(timersSet)) && pending == old(pending) + {old(timersSet)}
                && timersSet == old(timersSet) + 1 && reconnectAttempts == old(reconnectAttempts) + 1
                && delays == old(delays) + [RelayDelay(reconnectAttempts)] && status == old(status)
    {
      if relayConnectionAttempts >= MAX_INITIAL_RELAY_ATTEMPTS {
        ClearTimer();
        status := RelayUnavailable;
        return;
      }
      if reconnectTimer.Some? { return; }
      reconnectAttempts := reconnectAttempts + 1;
      var delay := Min(3000 * reconnectAttempts, 15000);
      delays := delays + [delay];
      SetTimer();
    }

    method OnOpen(socket: nat)
      requires Valid() && socket < |sockets| && sockets[socket] != CLOSED
      modifies this
      ensures Valid() && |sockets| == |old(sockets)|
      ensures old(ws) == Some(socket) == ws && Live() && delays == [] && (relayOpened <==> relay) && status == Connected
      ensures openedWith == if old(openedWith).Some? then old(openedWith) else Some(|sockets|)
      ensures LifeNow() == Next(relay, old(LifeNow()), Opened(socket))
    {
      if openedWith.None? { openedWith := Some(|sockets|); }
      sockets := sockets[socket := OPEN];
      if ws != Some(socket) { return; }
      ClearTimer();
      reconnectAttempts := 0;
      delays := [];
      relayOpened := relay;
      status := Connected;
    }

    method OnClose(socket: nat)
      requires Valid() && socket < |sockets|
      modifies this
      ensures Valid() && |sockets| == |old(sockets)| && openedWith == old(openedWith)
      ensures old(ws) == Some(socket) && !relay ==> Waiting() && status == LocalUnavailable
      ensures old(ws) == Some(socket) && relay ==>
                if relayOpened then Terminal() && status == RelayEnded
                else if |sockets| == MAX_INITIAL_RELAY_ATTEMPTS then Terminal() && status == RelayUnavailable
                else Waiting()
      ensures old(ws) != Some(socket) ==> ws == old(ws) && reconnectTimer == old(reconnectTimer)
      ensures LifeNow() == Next(relay, old(LifeNow()), Closed(socket))
    {
      sockets := sockets[socket := CLOSED];
      if ws != Some(socket) { return; }
      ws := None;
      if relay {
        if relayOpened {
          ClearTimer();
          status := RelayEnded;
          return;
        }
        ScheduleRelayReconnect();
        return;
      }
      status := LocalUnavailable;
      ScheduleLocalReconnect();
    }

    /** A pending timer fires: the browser forgets it, its callback reconnects. */
    method OnTimer(timer: nat)
      requires Valid() && timer in pending
      modifies this
      ensures Valid() && Live() && |sockets| == |old(sockets)| + 1 && openedWith == old(openedWith)
      ensures pending == {} && LifeNow() == Next(relay, old(LifeNow()), Fired(timer))
    {
      pending := pending - {timer};
      reconnectTimer := None;
      Connect();
    }

    /** One event; an event the browser cannot deliver changes nothing. */
    method Handle(e: Event)
      requires Valid()
      modifies this
      ensures Valid() && LifeNow() == Next(relay, old(LifeNow()), e)
      ensures !old(Deliverable(e)) ==> unchanged(this)
      ensures e.Fired? && old(Deliverable(e)) ==> Live() && |sockets| == |old(sockets)| + 1 && pending == {}
      ensures !e.Fired? ==> |sockets| == |old(sockets)|
      ensures e.Opened? && old(Deliverable(e)) ==>
                ws == old(ws) == Some(e.socket) && delays == [] && status == Connected && openedWith.Some?
      ensures e.Closed? && old(Deliverable(e)) ==>
                && old(ws) == Some(e.socket)
                && if !relay then Waiting() && status == LocalUnavailable
                   else if relayOpened then Terminal() && status == RelayEnded
                   else if |sockets| == 3 then Terminal() && status == RelayUnavailable
                   else Waiting()
      ensures old(openedWith).Some? ==> openedWith == old(openedWith)
      ensures old(Terminal()) ==> Terminal() && |sockets| == |old(sockets)|
    {
      match e {
        case Opened(socket) => if socket < |sockets| && sockets[socket] != CLOSED { OnOpen(socket); }
        case Closing(socket) =>
          if socket < |sockets| && sockets[socket] != CLOSED { sockets := sockets[socket := ReadyState.CLOSING]; }
        case Failed(socket) =>
        case Closed(socket) => if socket < |sockets| && sockets[socket] != CLOSED { OnClose(socket); }
        case Fired(timer) => if timer in pending { OnTimer(timer); }
      }
    }

    /**
     After any sequence of events there is exactly one of a current socket, a pending timer or, in relay
     mode only, a final state; every socket but the current one is closed; relay mode has constructed at most
     three sockets and none since one first opened; delays since the last open stay within 3 and 30 seconds
     and never shrink.
    */
    method Run(events: seq<Event>)
      requires Valid()
      modifies this
      ensures Valid() && LifeNow() == LifeAfter(relay, old(LifeNow()), events)
      ensures |sockets| == |old(sockets)| + FiredIn(relay, old(LifeNow()), events)
      ensures (Live() || Waiting() || Terminal()) && !(Live() && Waiting())
      ensures pending == if Waiting() then {reconnectTimer.value} else {}
      ensures relay ==> |sockets| <= MAX_INITIAL_RELAY_ATTEMPTS
      ensures forall i :: 0 <= i < |sockets| && ws != Some(i) ==> sockets[i] == CLOSED
      ensures relay && openedWith.Some? ==> openedWith == Some(|sockets|)
      ensures old(openedWith).Some? ==> openedWith == old(openedWith)
      ensures old(Terminal()) ==> Terminal() && |sockets| == |old(sockets)|
      ensures !relay ==> !Terminal()
      ensures forall i, j :: 0 <= i <= j < |delays| && !relay ==> 3000 <= delays[i] <= delays[j] <= 30000
      ensures !relay && |delays| > 0 ==> delays[0] == 3000
    {
      for i := 0 to |events|
        invariant Valid() && LifeNow() == LifeAfter(relay, old(LifeNow()), events[..i])
        invariant old(openedWith).Some? ==> openedWith == old(openedWith)
        invariant old(Terminal()) ==> Terminal() && |sockets| == |old(sockets)|
      {
        Handle(events[i]);
        assert events[..i + 1][..i] == events[..i];
      }
      assert events[..|events|] == events;
      SocketsAreFired(relay, old(LifeNow()), events);
      forall i, j | 0 <= i <= j < |delays| && !relay ensures 3000 <= delays[i] <= delays[j] <= 30000 {
        LocalDelaysMonotone(i + 1, j + 1);
      }
      if !relay && |delays| > 0 { LocalDelaysGrow(1); }
    }
  }
}
