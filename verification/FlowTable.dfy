/**
 The live flow table of frontend/pcap/app.js: rows are shown newest first; while the user has paused
 the table, new flows wait in a second bounded list and are merged on resuming.
*/
module FlowTable {
  import opened Lists
  import opened Options

  const MAX_FLOWS: nat := 200
  const MAX_PENDING_FLOWS: nat := MAX_FLOWS
  const FLOW_FOLLOW_THRESHOLD: real := 16.0

  function Reverse<F>(flows: seq<F>): (r: seq<F>)
    ensures |r| == |flows| && forall i :: 0 <= i < |r| ==> r[i] == flows[|flows| - 1 - i]
  {
    seq(|flows|, i requires 0 <= i < |flows| => flows[|flows| - 1 - i])
  }

  /** The specification of the whole table: the newest 200 of all flows received, newest first. */
  function Newest<F>(received: seq<F>): (r: seq<F>)
    ensures |r| == if |received| <= 200 then |received| else 200
    ensures forall i :: 0 <= i < |r| ==> r[i] == received[|received| - 1 - i]
  {
    Cap(Reverse(received), MAX_FLOWS)
  }

  lemma NewestGrows<F>(received: seq<F>, flow: F)
    ensures Newest(received + [flow]) == Cap([flow] + Newest(received), MAX_FLOWS)
  {
    assert Reverse(received + [flow]) == [flow] + Reverse(received);
  }

  /** Dropping the oldest waiting flow of a full list loses nothing that could still be shown. */
  lemma PendingGrows<F>(pending: seq<F>, rows: seq<F>, flow: F, kept: seq<F>)
    requires |pending| <= MAX_PENDING_FLOWS
    requires kept == if |pending| == MAX_PENDING_FLOWS then (pending + [flow])[1..] else pending + [flow]
    ensures Cap(Reverse(kept) + rows, MAX_FLOWS) == Cap([flow] + Cap(Reverse(pending) + rows, MAX_FLOWS), MAX_FLOWS)
  {
    var all := Reverse(pending + [flow]) + rows;
    assert all == [flow] + (Reverse(pending) + rows);
    assert Cap(Reverse(kept) + rows, MAX_FLOWS) == Cap(all, MAX_FLOWS);
  }

  lemma MergeGrows<F>(buffered: seq<F>, i: nat, rows: seq<F>)
    requires i < |buffered|
    ensures Cap([buffered[i]] + Cap(Reverse(buffered[..i]) + rows, MAX_FLOWS), MAX_FLOWS) ==
            Cap(Reverse(buffered[..i + 1]) + rows, MAX_FLOWS)
  {
    var merged := Reverse(buffered[..i]) + rows;
    assert Reverse(buffered[..i + 1]) + rows == [buffered[i]] + merged;
  }

  /** The waiting flows with one more: the newest 200, oldest first. */
  function Waiting<F>(pending: seq<F>, flow: F): seq<F> {
    var all := pending + [flow];
    if |all| <= 200 then all else all[|all| - 200..]
  }

  datatype Event<F> =
    | FlowMessage(flow: F)
    | Scrolled(top: real)        // the browser moves the viewport, then reports a scroll event
    | Moved(top: real)           // the viewport moves and the scroll event is still to come
    | Wheel(deltaY: real)
    | TouchStart(touchY: Option<real>)
    | TouchMove(touchY: Option<real>)
    | TouchEnd
    | JumpToLive

  function FlowsOf<F>(events: seq<Event<F>>): seq<F> {
    if events == [] then [] else
      var before, e := FlowsOf(events[..|events| - 1]), events[|events| - 1];
      if e.FlowMessage? then before + [e.flow] else before
  }

  class FlowPanel<F> {
    const hasContainer: bool     // the element flow-scroll exists
    var scrollTop: real
    var rows: seq<F>             // children of the element flow-body
    var pendingFlows: seq<F>
    var pendingFlowCount: nat
    var followingFlows: bool
    var flowTouchStartY: Option<real>
    var lastFlowScrollTop: real
    ghost var received: seq<F>   // every flow message so far, oldest first

    ghost predicate Valid()
      reads this
    {
      && |rows| <= MAX_FLOWS
      && |pendingFlows| <= MAX_PENDING_FLOWS
      && pendingFlowCount == |pendingFlows|
      && (followingFlows ==> pendingFlows == [])
      && Cap(Reverse(pendingFlows) + rows, MAX_FLOWS) == Newest(received)
    }

    constructor (hasContainer: bool)
      ensures Valid() && received == [] && followingFlows
    {
      this.hasContainer := hasContainer;
      scrollTop, lastFlowScrollTop := 0.0, 0.0;
      rows, pendingFlows, pendingFlowCount, followingFlows := [], [], 0, true;
      flowTouchStartY := None;
      received := [];
    }

    /** The viewport shows the newest rows, as far as there is one. */
    predicate AtTop(before: real)
      reads this
    {
      lastFlowScrollTop == 0.0 && scrollTop == if hasContainer then 0.0 else before
    }

    method RenderFlow(flow: F)
      requires |rows| <= MAX_FLOWS
      modifies this`rows
      ensures rows == Cap([flow] + old(rows), MAX_FLOWS)
    {
      rows := [flow] + rows;
      while |rows| > MAX_FLOWS
        invariant Cap(rows, MAX_FLOWS) == Cap([flow] + old(rows), MAX_FLOWS) && |rows| >= |Cap(rows, MAX_FLOWS)|
      {
        rows := rows[..|rows| - 1];
      }
    }

    method MergePendingFlows()
      requires |rows| <= MAX_FLOWS && pendingFlowCount == |pendingFlows|
      modifies this`rows, this`pendingFlows, this`pendingFlowCount
      ensures rows == Cap(Reverse(old(pendingFlows)) + old(rows), MAX_FLOWS)
      ensures pendingFlows == [] && pendingFlowCount == 0
    {
      if |pendingFlows| == 0 {
        assert Reverse(pendingFlows) + rows == rows;
        return;
      }
      var buffered := pendingFlows;
      pendingFlows := [];
      pendingFlowCount := 0;
      var i := 0;
      assert Reverse(buffered[..0]) + rows == rows;
      while i < |buffered|
        invariant 0 <= i <= |buffered| && |rows| <= MAX_FLOWS
        invariant rows == Cap(Reverse(buffered[..i]) + old(rows), MAX_FLOWS)
        modifies this`rows
      {
        MergeGrows(buffered, i, old(rows));
        RenderFlow(buffered[i]);
        i := i + 1;
      }
      assert buffered[..i] == buffered;
    }

    /** Renders the flow while following at the top; otherwise pauses and lets it wait. */
    method AddFlow(flow: F)
      requires Valid()
      modifies this
      ensures Valid() && received == old(received) + [flow]
      ensures followingFlows == (old(followingFlows) && (!hasContainer || old(scrollTop) <= FLOW_FOLLOW_THRESHOLD))
      ensures if followingFlows then
                && rows == Cap([flow] + old(rows), MAX_FLOWS) && pendingFlows == []
                && AtTop(old(scrollTop))
              else
                && rows == old(rows) && pendingFlows == Waiting(old(pendingFlows), flow)
                && scrollTop == old(scrollTop) && lastFlowScrollTop == old(lastFlowScrollTop)
      ensures flowTouchStartY == old(flowTouchStartY)
    {
      NewestGrows(received, flow);
      received := received + [flow];
      var atTop := !hasContainer || scrollTop <= FLOW_FOLLOW_THRESHOLD;
      if !followingFlows || !atTop {
        followingFlows := false;
        ghost var before := pendingFlows;
        pendingFlows := pendingFlows + [flow];
        if |pendingFlows| > MAX_PENDING_FLOWS { pendingFlows := pendingFlows[1..]; }
        pendingFlowCount := |pendingFlows|;
        assert pendingFlows == Waiting(before, flow);
        PendingGrows(before, rows, flow, pendingFlows);
        return;
      }
      assert followingFlows;  // so the merge the source guards with !followingFlows never happens here
      assert Reverse(pendingFlows) + rows == rows;
      RenderFlow(flow);
      followingFlows := true;
      pendingFlowCount := 0;
      if hasContainer { scrollTop := 0.0; }
      lastFlowScrollTop := 0.0;
      assert Reverse(pendingFlows) + rows == rows;
    }

    /** Scrolling down pauses; scrolling up to the top resumes and shows what waited. */
    method HandleFlowScroll()
      requires Valid()
      modifies this
      ensures Valid() && received == old(received)
      ensures var down := old(scrollTop) > old(lastFlowScrollTop);
              var resumes := !old(followingFlows) && old(scrollTop) <= FLOW_FOLLOW_THRESHOLD
                             && old(scrollTop) < old(lastFlowScrollTop);
              if !hasContainer then
                followingFlows == old(followingFlows) && rows == old(rows) && pendingFlows == old(pendingFlows)
              else if resumes then
                followingFlows && rows == Newest(received) && scrollTop == lastFlowScrollTop == 0.0
              else
                && followingFlows == (old(followingFlows) && !down)
                && rows == old(rows) && pendingFlows == old(pendingFlows)
                && scrollTop == lastFlowScrollTop == old(scrollTop)
      ensures !hasContainer ==> scrollTop == old(scrollTop) && lastFlowScrollTop == old(lastFlowScrollTop)
      ensures flowTouchStartY == old(flowTouchStartY)
    {
      if !hasContainer { return; }
      var top := scrollTop;
      var pausedThisEvent := false;
      if followingFlows && top > lastFlowScrollTop {
        followingFlows := false;
        pausedThisEvent := true;
      }
      if !followingFlows && !pausedThisEvent && top <= FLOW_FOLLOW_THRESHOLD && top < lastFlowScrollTop {
        MergePendingFlows();
        followingFlows := true;
        scrollTop := 0.0;
        assert Reverse(pendingFlows) + rows == rows;
      }
      lastFlowScrollTop := scrollTop;
    }

    method PauseFlowLive()
      requires Valid()
      modifies this`followingFlows
      ensures Valid() && !followingFlows
    {
      if !followingFlows { return; }
      followingFlows := false;
    }

    method HandleFlowWheel(deltaY: real)
      requires Valid()
      modifies this`followingFlows
      ensures Valid()
      ensures followingFlows == (old(followingFlows) && deltaY <= 0.0)
    {
      if deltaY > 0.0 { PauseFlowLive(); }
    }

    method HandleFlowTouchStart(touchY: Option<real>)
      requires Valid()
      modifies this`flowTouchStartY
      ensures Valid() && flowTouchStartY == touchY
    {
      flowTouchStartY := touchY;
    }

    method HandleFlowTouchMove(touchY: Option<real>)
      requires Valid()
      modifies this`followingFlows
      ensures Valid()
      ensures followingFlows == (old(followingFlows)
                && !(touchY.Some? && flowTouchStartY.Some? && touchY.value < flowTouchStartY.value))
    {
      if touchY.Some? && flowTouchStartY.Some? && touchY.value < flowTouchStartY.value { PauseFlowLive(); }
    }

    method HandleFlowTouchEnd()
      requires Valid()
      modifies this`flowTouchStartY
      ensures Valid() && flowTouchStartY == None
    {
      flowTouchStartY := None;
    }

    method JumpToLive()
      requires Valid()
      modifies this
      ensures Valid() && received == old(received)
      ensures followingFlows && rows == Newest(received) && AtTop(old(scrollTop))
      ensures flowTouchStartY == old(flowTouchStartY)
    {
      MergePendingFlows();
      followingFlows := true;
      pendingFlowCount := 0;
      if hasContainer { scrollTop := 0.0; }
      lastFlowScrollTop := 0.0;
      assert Reverse(pendingFlows) + rows == rows;
    }

    method Handle(e: Event<F>)
      requires Valid()
      modifies this
      ensures Valid() && received == old(received) + FlowsOf([e])
      // a flow is shown at once only while following at the top; otherwise it waits and following ends
      ensures e.FlowMessage? ==>
                && followingFlows == (old(followingFlows) && (!hasContainer || old(scrollTop) <= 16.0))
                && (followingFlows ==> rows == Newest(received) && AtTop(old(scrollTop)))
                && (!followingFlows ==> rows == old(rows) && pendingFlows == Waiting(old(pendingFlows), e.flow))
      // scrolling down pauses, scrolling up to the top resumes with everything
      ensures e.Scrolled? && hasContainer && old(followingFlows) ==>
                followingFlows == (e.top <= old(lastFlowScrollTop)) && rows == old(rows)
      ensures e.Scrolled? && hasContainer && !old(followingFlows) ==>
                followingFlows == (e.top <= 16.0 && e.top < old(lastFlowScrollTop))
      ensures e.Scrolled? && followingFlows && !old(followingFlows) ==> rows == Newest(received) && scrollTop == 0.0
      ensures e.Scrolled? && hasContainer ==>
                lastFlowScrollTop == scrollTop == if followingFlows && !old(followingFlows) then 0.0 else e.top
      ensures e.Moved? ==> scrollTop == e.top && followingFlows == old(followingFlows)
      ensures e.Wheel? ==> followingFlows == (old(followingFlows) && e.deltaY <= 0.0)
      ensures e.TouchStart? ==> flowTouchStartY == e.touchY && followingFlows == old(followingFlows)
      ensures e.TouchMove? && e.touchY.Some? && old(flowTouchStartY).Some? ==>
                followingFlows == (old(followingFlows) && e.touchY.value >= old(flowTouchStartY).value)
      ensures e.TouchMove? && (e.touchY.None? || old(flowTouchStartY).None?) ==> followingFlows == old(followingFlows)
      ensures e.TouchEnd? ==> flowTouchStartY == None && followingFlows == old(followingFlows)
      ensures e.JumpToLive? ==> followingFlows && rows == Newest(received) && AtTop(old(scrollTop))
      ensures !e.TouchStart? && !e.TouchEnd? ==> flowTouchStartY == old(flowTouchStartY)
      ensures e.Moved? || e.Wheel? || e.TouchStart? || e.TouchMove? || e.TouchEnd? ==>
                rows == old(rows) && pendingFlows == old(pendingFlows) && lastFlowScrollTop == old(lastFlowScrollTop)
    {
      assert [e][..0] == [];
      match e
      case FlowMessage(flow) => AddFlow(flow);
      case Scrolled(top) => scrollTop := top; HandleFlowScroll();
      case Moved(top) => scrollTop := top;
      case Wheel(dy) => HandleFlowWheel(dy);
      case TouchStart(y) => HandleFlowTouchStart(y);
      case TouchMove(y) => HandleFlowTouchMove(y);
      case TouchEnd => HandleFlowTouchEnd();
      case JumpToLive => JumpToLive();
    }

    /**
     Pausing is invisible: after any sequence of events the waiting flows on top of the rows are the
     newest 200 flows ever received, newest first; while following, the rows alone are.
    */
    method Run(events: seq<Event<F>>)
      requires Valid()
      modifies this
      ensures Valid() && received == old(received) + FlowsOf(events)
      ensures Cap(Reverse(pendingFlows) + rows, MAX_FLOWS) == Newest(old(received) + FlowsOf(events))
      ensures followingFlows ==> pendingFlows == [] && rows == Newest(old(received) + FlowsOf(events))
      ensures pendingFlowCount == |pendingFlows|
    {
      for i := 0 to |events|
        invariant Valid() && received == old(received) + FlowsOf(events[..i])
      {
        Handle(events[i]);
        assert events[..i + 1][..i] == events[..i] && [events[i]][..0] == [];
      }
      assert events[..|events|] == events;
      if followingFlows { assert Reverse(pendingFlows) + rows == rows; }
    }
  }
}
