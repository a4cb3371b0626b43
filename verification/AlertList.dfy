/**
 The alert panel of frontend/pcap/app.js: a list of at most 50 entries, newest insertion first, and an
 index from alert ID to entry through which a repeated alert updates its entry in place.
*/
module AlertList {
  import opened Lists
  import opened Options

  const MAX_ALERTS: nat := 50

  /** An alert message. id is None when the field is not a string; missing text fields are empty. */
  datatype Message = Message(
    id: Option<string>,
    alertType: string,
    subtype: string,
    src: string,
    dst: string,
    dstPort: string,
    severity: Option<string>,
    detail: string)

  /** What an entry displays: the severity class, and the message its text and time come from. */
  datatype Shown = Shown(severity: string, message: Message)

  datatype ID = ID(text: string)

  /** A message as addAlert uses it. */
  datatype Alert = Alert(id: ID, shown: Shown)

  function AlertID(msg: Message): ID {
    if msg.id.Some? && msg.id.value != "" then ID(msg.id.value)
    else ID("legacy|" + msg.alertType + "|" + msg.subtype + "|" + msg.src + "|" + msg.dst + "|" + msg.dstPort)
  }

  function ToLower(s: string): (r: string)
    ensures |r| == |s|
    ensures forall i :: 0 <= i < |r| && 'A' <= s[i] <= 'Z' ==> r[i] as int == s[i] as int + 32
    ensures forall i :: 0 <= i < |r| && !('A' <= s[i] <= 'Z') ==> r[i] == s[i]
  {
    seq(|s|, i requires 0 <= i < |s| => if 'A' <= s[i] <= 'Z' then s[i] - 'A' + 'a' else s[i])
  }

  function NormalizeSeverity(severity: Option<string>): (r: string)
    ensures r in {"info", "notice", "warning", "critical"}
  {
    var value := if severity.Some? then ToLower(severity.value) else "info";
    if value in ["info", "notice", "warning", "critical"] then value else "info"
  }

  /** A known severity is kept in lower case; anything else is "info". */
  lemma SeverityKept(severity: Option<string>)
    ensures NormalizeSeverity(severity) ==
            if severity.Some? && ToLower(severity.value) in {"notice", "warning", "critical"}
            then ToLower(severity.value) else "info"
  {
  }

  function Parse(msg: Message): Alert {
    Alert(AlertID(msg), Shown(NormalizeSeverity(msg.severity), msg))
  }

  function ParseAll(msgs: seq<Message>): seq<Alert> {
    if msgs == [] then [] else [Parse(msgs[0])] + ParseAll(msgs[1..])
  }

  // ----- specification -----

  /** An entry of the list; at is the number of alerts before the one that inserted it. */
  datatype Item = Item(id: ID, shown: Shown, at: nat)

  ghost predicate HasID(list: seq<Item>, id: ID) {
    exists i :: 0 <= i < |list| && list[i].id == id
  }

  ghost function IndexOf(list: seq<Item>, id: ID): (i: nat)
    requires HasID(list, id)
    ensures i < |list| && list[i].id == id
  {
    var i :| 0 <= i < |list| && list[i].id == id; i
  }

  /** If the ID is present update its entry in place, else prepend one. */
  ghost function Entered(list: seq<Item>, a: Alert, at: nat): seq<Item> {
    if HasID(list, a.id) then var i := IndexOf(list, a.id); list[i := list[i].(shown := a.shown)]
    else [Item(a.id, a.shown, at)] + list
  }

  /** Entered, then cut to 50. */
  ghost function Upsert(list: seq<Item>, a: Alert, at: nat): seq<Item> {
    Cap(Entered(list, a, at), MAX_ALERTS)
  }

  ghost function Listed(alerts: seq<Alert>): seq<Item> {
    if alerts == [] then [] else Upsert(Listed(alerts[..|alerts| - 1]), alerts[|alerts| - 1], |alerts| - 1)
  }

  /** The positions of the alerts that inserted an entry, newest first. */
  ghost function Insertions(alerts: seq<Alert>): seq<nat> {
    if alerts == [] then [] else
      var before, n := alerts[..|alerts| - 1], |alerts| - 1;
      if HasID(Listed(before), alerts[n].id) then Insertions(before) else [n] + Insertions(before)
  }

  function Positions(list: seq<Item>): (r: seq<nat>)
    ensures |r| == |list| && forall i :: 0 <= i < |r| ==> r[i] == list[i].at
  {
    seq(|list|, i requires 0 <= i < |list| => list[i].at)
  }

  predicate DistinctIDs(list: seq<Item>) {
    forall i, j :: 0 <= i < j < |list| ==> list[i].id != list[j].id
  }

  predicate NewestFirst(positions: seq<nat>, n: nat) {
    && (forall i :: 0 <= i < |positions| ==> positions[i] < n)
    && (forall i, j :: 0 <= i < j < |positions| ==> positions[i] > positions[j])
  }

  /** item was inserted by alert number at and shows the latest alert with its ID. */
  ghost predicate ShowsLatest(item: Item, alerts: seq<Alert>) {
    && item.at < |alerts| && alerts[item.at].id == item.id
    && exists l :: item.at <= l < |alerts| && IsLatest(item, alerts, l)
  }

  ghost predicate AllShowLatest(list: seq<Item>, alerts: seq<Alert>) {
    forall i :: 0 <= i < |list| ==> ShowsLatest(list[i], alerts)
  }

  predicate IsLatest(item: Item, alerts: seq<Alert>, l: nat)
    requires l < |alerts|
  {
    && alerts[l] == Alert(item.id, item.shown)
    && forall k :: l < k < |alerts| ==> alerts[k].id != item.id
  }

  lemma CapOfCap(n: nat, insertions: seq<nat>)
    ensures Cap([n] + Cap(insertions, MAX_ALERTS), MAX_ALERTS) == Cap([n] + insertions, MAX_ALERTS)
  {
  }

  lemma UpsertPositions(list: seq<Item>, a: Alert, at: nat, insertions: seq<nat>)
    requires Positions(list) == Cap(insertions, MAX_ALERTS)
    ensures Positions(Upsert(list, a, at)) ==
            Cap(if HasID(list, a.id) then insertions else [at] + insertions, MAX_ALERTS)
  {
    if HasID(list, a.id) {
      assert Positions(Upsert(list, a, at)) == Positions(list);
    } else {
      CapOfCap(at, insertions);
      assert Positions(Upsert(list, a, at)) == Cap([at] + Positions(list), MAX_ALERTS);
    }
  }

  lemma StillLatest(item: Item, before: seq<Alert>, a: Alert)
    requires ShowsLatest(item, before) && item.id != a.id
    ensures ShowsLatest(item, before + [a])
  {
    var l :| item.at <= l < |before| && IsLatest(item, before, l);
    assert IsLatest(item, before + [a], l);
  }

  /** An entry that a has just inserted or updated. */
  lemma ShowsNewest(item: Item, before: seq<Alert>, a: Alert)
    requires item.id == a.id && item.shown == a.shown && item.at <= |before|
    requires item.at < |before| ==> before[item.at].id == a.id
    ensures ShowsLatest(item, before + [a])
  {
    assert IsLatest(item, before + [a], |before|);
  }

  lemma UpsertShows(list: seq<Item>, a: Alert, before: seq<Alert>, k: nat)
    requires DistinctIDs(list) && k < |Upsert(list, a, |before|)|
    requires AllShowLatest(list, before)
    ensures ShowsLatest(Upsert(list, a, |before|)[k], before + [a])
  {
    var list' := Upsert(list, a, |before|);
    if list'[k].id == a.id {
      if HasID(list, a.id) { assert ShowsLatest(list[IndexOf(list, a.id)], before); }
      ShowsNewest(list'[k], before, a);
    } else {
      var k' := if HasID(list, a.id) then k else k - 1;
      assert list'[k] == list[k'];
      StillLatest(list[k'], before, a);
    }
  }

  lemma UpsertDistinct(list: seq<Item>, a: Alert, at: nat)
    requires DistinctIDs(list) && |list| <= MAX_ALERTS
    ensures DistinctIDs(Upsert(list, a, at)) && |Upsert(list, a, at)| <= MAX_ALERTS
  {
  }

  lemma UpsertAllShow(list: seq<Item>, a: Alert, before: seq<Alert>)
    requires DistinctIDs(list) && AllShowLatest(list, before)
    ensures AllShowLatest(Upsert(list, a, |before|), before + [a])
  {
    forall k | 0 <= k < |Upsert(list, a, |before|)|
      ensures ShowsLatest(Upsert(list, a, |before|)[k], before + [a])
    {
      UpsertShows(list, a, before, k);
    }
  }

  lemma ListedNext(before: seq<Alert>, a: Alert)
    ensures Listed(before + [a]) == Upsert(Listed(before), a, |before|)
    ensures Insertions(before + [a]) ==
            if HasID(Listed(before), a.id) then Insertions(before) else [|before|] + Insertions(before)
  {
    assert (before + [a])[..|before|] == before;
  }

  lemma {:induction false} ListedPositions(alerts: seq<Alert>)
    ensures Positions(Listed(alerts)) == Cap(Insertions(alerts), MAX_ALERTS)
  {
    if alerts != [] {
      var before, a := alerts[..|alerts| - 1], alerts[|alerts| - 1];
      assert alerts == before + [a];
      ListedPositions(before);
      ListedNext(before, a);
      UpsertPositions(Listed(before), a, |before|, Insertions(before));
    }
  }

  lemma {:induction false} InsertionsNewestFirst(alerts: seq<Alert>)
    ensures NewestFirst(Insertions(alerts), |alerts|)
  {
    if alerts != [] { InsertionsNewestFirst(alerts[..|alerts| - 1]); }
  }

  lemma {:induction false} ListedDistinct(alerts: seq<Alert>)
    ensures DistinctIDs(Listed(alerts)) && |Listed(alerts)| <= MAX_ALERTS
  {
    if alerts != [] {
      var before, a := alerts[..|alerts| - 1], alerts[|alerts| - 1];
      assert alerts == before + [a];
      ListedDistinct(before);
      ListedNext(before, a);
      UpsertDistinct(Listed(before), a, |before|);
    }
  }

  lemma {:induction false} ListedShows(alerts: seq<Alert>)
    ensures AllShowLatest(Listed(alerts), alerts)
  {
    if alerts != [] {
      var before, a := alerts[..|alerts| - 1], alerts[|alerts| - 1];
      assert alerts == before + [a];
      ListedShows(before);
      ListedNext(before, a);
      ListedDistinct(before);
      UpsertAllShow(Listed(before), a, before);
    }
  }

  /**
   After any sequence of alerts the list holds the 50 newest insertions, newest first, each ID at
   most once, and each entry shows the latest alert with its ID.
  */
  lemma ListedIsNewest(alerts: seq<Alert>)
    ensures Positions(Listed(alerts)) == Cap(Insertions(alerts), 50)
    ensures DistinctIDs(Listed(alerts)) && |Listed(alerts)| <= MAX_ALERTS
    ensures AllShowLatest(Listed(alerts), alerts)
    ensures NewestFirst(Insertions(alerts), |alerts|)
  {
    ListedPositions(alerts);
    InsertionsNewestFirst(alerts);
    ListedDistinct(alerts);
    ListedShows(alerts);
  }

  /** What a panel displays, the number of alerts so far and the number of those that inserted an entry. */
  datatype View = View(list: seq<Item>, seen: nat, inserted: nat)

  ghost function Place(v: View, a: Alert): View {
    View(Upsert(v.list, a, v.seen), v.seen + 1, v.inserted + if HasID(v.list, a.id) then 0 else 1)
  }

  ghost function PlaceAll(v: View, alerts: seq<Alert>): View
    decreases |alerts|
  {
    if alerts == [] then v else PlaceAll(Place(v, alerts[0]), alerts[1..])
  }

  lemma {:induction false} OneMore(v: View, alerts: seq<Alert>, a: Alert)
    ensures PlaceAll(v, alerts + [a]) == Place(PlaceAll(v, alerts), a)
    decreases |alerts|
  {
    if alerts == [] {
      assert [] + [a] == [a];
    } else {
      assert (alerts + [a])[1..] == alerts[1..] + [a];
      OneMore(Place(v, alerts[0]), alerts[1..], a);
    }
  }

  lemma {:induction false} PlaceAllIsListed(alerts: seq<Alert>)
    ensures PlaceAll(View([], 0, 0), alerts) == View(Listed(alerts), |alerts|, |Insertions(alerts)|)
  {
    if alerts != [] {
      var before, a := alerts[..|alerts| - 1], alerts[|alerts| - 1];
      assert alerts == before + [a];
      PlaceAllIsListed(before);
      ListedNext(before, a);
      OneMore(View([], 0, 0), before, a);
    }
  }

  // ----- the panel -----

  /** The identity of a created list element. */
  type Node = nat

  /** The index leads from exactly the IDs of the list to the element in the same place. */
  ghost predicate Indexed(list: seq<Item>, children: seq<Node>, index: map<ID, Node>) {
    && |children| == |list| && DistinctIDs(list)
    && (forall i, j :: 0 <= i < j < |children| ==> children[i] != children[j])
    && (forall i :: 0 <= i < |list| ==> list[i].id in index && index[list[i].id] == children[i])
    && (forall id {:trigger HasID(list, id)} :: id in index ==> HasID(list, id))
  }

  lemma IndexFinds(list: seq<Item>, children: seq<Node>, index: map<ID, Node>, id: ID)
    requires Indexed(list, children, index)
    ensures id in index <==> HasID(list, id)
  {
    if HasID(list, id) { assert list[IndexOf(list, id)].id in index; }
  }

  lemma IndexedGrows(list: seq<Item>, children: seq<Node>, index: map<ID, Node>, item: Item, entry: Node)
    requires Indexed(list, children, index) && item.id !in index
    requires forall i :: 0 <= i < |children| ==> children[i] != entry
    ensures Indexed([item] + list, [entry] + children, index[item.id := entry])
  {
    var list', index' := [item] + list, index[item.id := entry];
    forall id | id in index' ensures HasID(list', id) {
      assert list'[if id == item.id then 0 else IndexOf(list, id) + 1].id == id;
    }
  }

  lemma IndexedShrinks(list: seq<Item>, children: seq<Node>, index: map<ID, Node>, index': map<ID, Node>)
    requires Indexed(list, children, index) && |list| > 0
    requires forall id :: id in index' <==> id in index && index[id] != children[|children| - 1]
    requires forall id :: id in index' ==> index'[id] == index[id]
    ensures Indexed(list[..|list| - 1], children[..|children| - 1], index')
  {
    var list' := list[..|list| - 1];
    forall i | 0 <= i < |list'| ensures list'[i].id in index' && index'[list'[i].id] == children[i] {
      assert index[list[i].id] == children[i] != children[|children| - 1];
    }
    forall id | id in index' ensures HasID(list', id) {
      assert list'[IndexOf(list, id)].id == id;
    }
  }

  /** Updating what an entry shows moves nothing. */
  lemma IndexedStays(list: seq<Item>, children: seq<Node>, index: map<ID, Node>, i: nat, shown: Shown)
    requires Indexed(list, children, index) && i < |list|
    ensures Indexed(list[i := list[i].(shown := shown)], children, index)
  {
    var list' := list[i := list[i].(shown := shown)];
    forall id | id in index ensures HasID(list', id) {
      assert list'[IndexOf(list, id)].id == id;
    }
  }

  /** Each element shows what the list says. */
  predicate Shows(list: seq<Item>, children: seq<Node>, content: map<Node, Shown>) {
    && |children| == |list|
    && forall i :: 0 <= i < |list| ==> children[i] in content && content[children[i]] == list[i].shown
  }

  lemma ContentStays(list: seq<Item>, children: seq<Node>, content: map<Node, Shown>, i: nat, shown: Shown)
    requires Shows(list, children, content) && i < |list|
    requires forall k, l :: 0 <= k < l < |children| ==> children[k] != children[l]
    ensures Shows(list[i := list[i].(shown := shown)], children, content[children[i] := shown])
  {
  }

  /** The index and the content for list; element numbers from created on are free. */
  ghost predicate Panel(list: seq<Item>, children: seq<Node>, index: map<ID, Node>, content: map<Node, Shown>,
                        created: Node)
  {
    && Indexed(list, children, index)
    && Shows(list, children, content)
    && forall i :: 0 <= i < |children| ==> children[i] < created
  }

  lemma PanelUpdates(list: seq<Item>, children: seq<Node>, index: map<ID, Node>, content: map<Node, Shown>,
                     created: Node, i: nat, shown: Shown)
    requires Panel(list, children, index, content, created) && i < |list|
    ensures list[i].id in index
    ensures Panel(list[i := list[i].(shown := shown)], children, index, content[index[list[i].id] := shown], created)
  {
    IndexedStays(list, children, index, i, shown);
    ContentStays(list, children, content, i, shown);
  }

  lemma PanelInserts(list: seq<Item>, children: seq<Node>, index: map<ID, Node>, content: map<Node, Shown>,
                     created: Node, item: Item)
    requires Panel(list, children, index, content, created) && item.id !in index
    ensures Panel([item] + list, [created] + children, index[item.id := created], content[created := item.shown],
                  created + 1)
  {
    IndexedGrows(list, children, index, item, created);
  }

  class AlertPanel {
    var placeholder: bool                    // the "no alerts detected" element is still there
    var children: seq<Node>                  // the other children of the element alerts-list
    var content: map<Node, Shown>            // class name and texts of each created element
    var renderedAlerts: map<ID, Node>
    var alerts: nat                          // statsData.alerts
    var created: Node                        // the next element to be created
    ghost var view: View                     // the list it displays and the counts so far

    /** The panel shows the entries of list, in order, and finds each of them by its ID. */
    ghost predicate Displays(list: seq<Item>)
      reads `children, `content, `renderedAlerts, `created
    {
      Panel(list, children, renderedAlerts, content, created)
    }

    ghost predicate Valid()
      reads this
    {
      Displays(view.list) && alerts == view.inserted && (view.seen > 0 ==> !placeholder)
    }

    constructor ()
      ensures Valid() && view == View([], 0, 0)
    {
      placeholder, children, content, renderedAlerts, alerts, created := true, [], map[], map[], 0, 0;
      view := View([], 0, 0);
    }

    /** The loop over the index that forgets a removed element. */
    method Forget(removed: Node)
      modifies this`renderedAlerts
      ensures forall id :: id in renderedAlerts <==> id in old(renderedAlerts) && old(renderedAlerts)[id] != removed
      ensures forall id :: id in renderedAlerts ==> renderedAlerts[id] == old(renderedAlerts)[id]
    {
      var index := renderedAlerts;
      var todo := renderedAlerts.Keys;
      while todo != {}
        invariant todo <= index.Keys
        invariant forall id :: id in renderedAlerts <==> id in index && (id in todo || index[id] != removed)
        invariant forall id :: id in renderedAlerts ==> renderedAlerts[id] == index[id]
      {
        var id :| id in todo;
        todo := todo - {id};
        if renderedAlerts[id] == removed { renderedAlerts := renderedAlerts - {id}; }
      }
    }

    method RemoveLast(ghost list: seq<Item>)
      requires Displays(list) && |list| > 0
      modifies this`children, this`renderedAlerts
      ensures Displays(list[..|list| - 1]) && children == old(children)[..|list| - 1]
    {
      ghost var index, elements := renderedAlerts, children;
      Forget(children[|children| - 1]);
      IndexedShrinks(list, elements, index, renderedAlerts);
      children := children[..|children| - 1];
    }

    method Trim(ghost list: seq<Item>)
      requires Displays(list)
      modifies this`children, this`renderedAlerts
      ensures Displays(Cap(list, MAX_ALERTS))
    {
      ghost var shorter := list;
      while |children| > MAX_ALERTS
        invariant Displays(shorter) && Cap(shorter, MAX_ALERTS) == Cap(list, MAX_ALERTS)
        decreases |children|
      {
        RemoveLast(shorter);
        shorter := shorter[..|shorter| - 1];
      }
    }

    method Insert(a: Alert, ghost list: seq<Item>, ghost at: nat)
      requires Displays(list) && a.id !in renderedAlerts
      modifies this`children, this`renderedAlerts, this`content, this`created
      ensures Displays([Item(a.id, a.shown, at)] + list)
    {
      var entry := created;
      PanelInserts(list, children, renderedAlerts, content, created, Item(a.id, a.shown, at));
      created := created + 1;
      renderedAlerts := renderedAlerts[a.id := entry];
      children := [entry] + children;
      content := content[entry := a.shown];
    }

    method Update(a: Alert, ghost list: seq<Item>, ghost i: nat)
      requires Displays(list) && i < |list| && list[i].id == a.id
      modifies this`content
      ensures Displays(list[i := list[i].(shown := a.shown)])
    {
      PanelUpdates(list, children, renderedAlerts, content, created, i, a.shown);
      content := content[renderedAlerts[a.id] := a.shown];
    }

    /** Updates the entry of a known ID in place, else prepends one and counts it. */
    method Enter(a: Alert, ghost list: seq<Item>, ghost at: nat)
      requires Displays(list)
      modifies this`children, this`renderedAlerts, this`content, this`created, this`alerts
      ensures Displays(Entered(list, a, at))
      ensures alerts == old(alerts) + if HasID(list, a.id) then 0 else 1
    {
      IndexFinds(list, children, renderedAlerts, a.id);
      if a.id !in renderedAlerts {
        Insert(a, list, at);
        alerts := alerts + 1;
      } else {
        Update(a, list, IndexOf(list, a.id));
      }
    }

    /** One alert: enter it, then cut the list to 50. */
    method Receive(a: Alert)
      requires Valid()
      modifies this
      ensures Valid() && view == Place(old(view), a)
    {
      placeholder := false;
      Enter(a, view.list, view.seen);
      Trim(Entered(view.list, a, view.seen));
      view := Place(view, a);
    }

    method AddAlert(msg: Message)
      requires Valid()
      modifies this
      ensures Valid() && view == Place(old(view), Parse(msg))
    {
      Receive(Parse(msg));
    }

    method Run(msgs: seq<Message>)
      requires Valid()
      modifies this
      ensures Valid() && view == PlaceAll(old(view), ParseAll(msgs))
      decreases |msgs|
    {
      if msgs != [] {
        assert ParseAll(msgs)[1..] == ParseAll(msgs[1..]);
        AddAlert(msgs[0]);
        Run(msgs[1..]);
      }
    }
  }

  /** After any sequence of messages a panel displays what Listed says and has counted the insertions. */
  method Show(msgs: seq<Message>) returns (panel: AlertPanel)
    ensures panel.Displays(Listed(ParseAll(msgs))) && panel.alerts == |Insertions(ParseAll(msgs))|
    ensures msgs != [] ==> !panel.placeholder
  {
    panel := new AlertPanel();
    panel.Run(msgs);
    PlaceAllIsListed(ParseAll(msgs));
  }
}
