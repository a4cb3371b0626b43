/** Which alert messages share an entry of the panel, and what an entry shows of its messages. */
module AlertIdentity {
  import opened Options
  import opened AlertList

  predicate HasGivenID(m: Message) {
    m.id.Some? && m.id.value != ""
  }

  predicate SameFields(m: Message, n: Message) {
    && m.alertType == n.alertType && m.subtype == n.subtype && m.src == n.src && m.dst == n.dst
    && m.dstPort == n.dstPort
  }

  predicate PipeFree(s: string) {
    '|' !in s
  }

  /** None of the five fields that make up the ID contains the separator. */
  predicate Unambiguous(m: Message) {
    PipeFree(m.alertType) && PipeFree(m.subtype) && PipeFree(m.src) && PipeFree(m.dst) && PipeFree(m.dstPort)
  }

  /** The two parts around the first separator. */
  function Joined(a: string, rest: string): string {
    a + "|" + rest
  }

  function Fields(m: Message): string {
    Joined(m.alertType, Joined(m.subtype, Joined(m.src, Joined(m.dst, m.dstPort))))
  }

  lemma LegacyID(m: Message)
    requires !HasGivenID(m)
    ensures AlertID(m).text == Joined("legacy", Fields(m))
  {
    var a, b, c, d, e := m.alertType, m.subtype, m.src, m.dst, m.dstPort;
    assert "legacy|" == "legacy" + "|";
    assert a + "|" + b + "|" + c + "|" + d + "|" + e == Fields(m);
    assert "legacy|" + a + "|" + b + "|" + c + "|" + d + "|" + e
        == "legacy|" + (a + "|" + b + "|" + c + "|" + d + "|" + e);
  }

  lemma JoinedAlike(a: string, rest: string, a': string, rest': string)
    requires Joined(a, rest) == Joined(a', rest') && PipeFree(a) && PipeFree(a')
    ensures a == a' && rest == rest'
  {
    var s := Joined(a, rest);
    assert forall i :: 0 <= i < |a| ==> s[i] == a[i];
    assert forall i :: 0 <= i < |a'| ==> s[i] == a'[i];
    assert s[|a|] == '|' == s[|a'|];
    assert a == s[..|a|] && a' == s[..|a'|];
    assert rest == s[|a| + 1..] && rest' == s[|a'| + 1..];
  }

  function Pipes(s: string): nat {
    if s == "" then 0 else Pipes(s[1..]) + if s[0] == '|' then 1 else 0
  }

  lemma {:induction false} PipesAdd(s: string, t: string)
    ensures Pipes(s + t) == Pipes(s) + Pipes(t)
  {
    if s == "" {
      assert s + t == t;
    } else {
      assert (s + t)[1..] == s[1..] + t;
      PipesAdd(s[1..], t);
    }
  }

  lemma {:induction false} NoPipes(s: string)
    ensures Pipes(s) == 0 <==> PipeFree(s)
  {
    if s != "" {
      NoPipes(s[1..]);
      assert s == [s[0]] + s[1..];
    }
  }

  lemma PipesJoined(a: string, rest: string)
    ensures Pipes(Joined(a, rest)) == Pipes(a) + 1 + Pipes(rest)
  {
    PipesAdd(a, "|");
    PipesAdd(a + "|", rest);
    assert Pipes("|") == 1;
  }

  lemma PipesOfFields(m: Message)
    ensures Pipes(Fields(m)) == 4 + Pipes(m.alertType) + Pipes(m.subtype) + Pipes(m.src) + Pipes(m.dst)
                                  + Pipes(m.dstPort)
    ensures Unambiguous(m) <==> Pipes(Fields(m)) == 4
  {
    PipesJoined(m.dst, m.dstPort);
    PipesJoined(m.src, Joined(m.dst, m.dstPort));
    PipesJoined(m.subtype, Joined(m.src, Joined(m.dst, m.dstPort)));
    PipesJoined(m.alertType, Joined(m.subtype, Joined(m.src, Joined(m.dst, m.dstPort))));
    NoPipes(m.alertType);
    NoPipes(m.subtype);
    NoPipes(m.src);
    NoPipes(m.dst);
    NoPipes(m.dstPort);
  }

  lemma FieldsAlike(m: Message, n: Message)
    requires Unambiguous(m) && Fields(m) == Fields(n)
    ensures SameFields(m, n)
  {
    PipesOfFields(m);
    PipesOfFields(n);
    JoinedAlike(m.alertType, Joined(m.subtype, Joined(m.src, Joined(m.dst, m.dstPort))),
                n.alertType, Joined(n.subtype, Joined(n.src, Joined(n.dst, n.dstPort))));
    JoinedAlike(m.subtype, Joined(m.src, Joined(m.dst, m.dstPort)),
                n.subtype, Joined(n.src, Joined(n.dst, n.dstPort)));
    JoinedAlike(m.src, Joined(m.dst, m.dstPort), n.src, Joined(n.dst, n.dstPort));
    JoinedAlike(m.dst, m.dstPort, n.dst, n.dstPort);
  }

  /** A field with a separator, split there. */
  lemma SplitAt(s: string) returns (k: nat)
    requires !PipeFree(s)
    ensures k < |s| && s == Joined(s[..k], s[k + 1..]) && s[..k] != s && s[k + 1..] != s
  {
    k :| 0 <= k < |s| && s[k] == '|';
    assert s == s[..k] + [s[k]] + s[k + 1..];
  }

  lemma JoinedMoves(a: string, b: string, c: string)
    ensures Joined(Joined(a, b), c) == Joined(a, Joined(b, c))
  {
  }

  /** Another message with the same ID, its fields split elsewhere. */
  lemma Ambiguous(m: Message) returns (n: Message)
    requires !Unambiguous(m)
    ensures n == m.(alertType := n.alertType, subtype := n.subtype, src := n.src, dst := n.dst, dstPort := n.dstPort)
    ensures Fields(n) == Fields(m) && !SameFields(m, n)
  {
    var a, b, c, d, e := m.alertType, m.subtype, m.src, m.dst, m.dstPort;
    if !PipeFree(a) {
      var k := SplitAt(a);
      JoinedMoves(a[..k], a[k + 1..], Joined(b, Joined(c, Joined(d, e))));
      n := m.(alertType := a[..k], subtype := a[k + 1..], src := b, dst := c, dstPort := Joined(d, e));
    } else if !PipeFree(b) {
      var k := SplitAt(b);
      JoinedMoves(b[..k], b[k + 1..], Joined(c, Joined(d, e)));
      n := m.(subtype := b[..k], src := b[k + 1..], dst := c, dstPort := Joined(d, e));
    } else if !PipeFree(c) {
      var k := SplitAt(c);
      JoinedMoves(c[..k], c[k + 1..], Joined(d, e));
      n := m.(src := c[..k], dst := c[k + 1..], dstPort := Joined(d, e));
    } else if !PipeFree(d) {
      var k := SplitAt(d);
      JoinedMoves(d[..k], d[k + 1..], e);
      n := m.(dst := d[..k], dstPort := Joined(d[k + 1..], e));
    } else {
      var k := SplitAt(e);
      JoinedMoves(a, b, Joined(c, Joined(d, e)));
      n := m.(alertType := Joined(a, b), subtype := c, src := d, dst := e[..k], dstPort := e[k + 1..]);
    }
  }

  lemma JoinedEqual(a: string, rest: string, rest': string)
    ensures Joined(a, rest) == Joined(a, rest') <==> rest == rest'
  {
    if Joined(a, rest) == Joined(a, rest') {
      assert rest == Joined(a, rest)[|a| + 1..] && rest' == Joined(a, rest')[|a| + 1..];
    }
  }

  /** Two messages that name an ID share an entry exactly if they name the same one. */
  lemma GivenIDsShare(m: Message, n: Message)
    requires HasGivenID(m) && HasGivenID(n)
    ensures AlertID(m) == AlertID(n) <==> m.id == n.id
  {
  }

  /** A message that names an ID shares the entry of one that does not only if it names just what that one makes up. */
  lemma MixedShare(m: Message, n: Message)
    requires HasGivenID(m) && !HasGivenID(n)
    ensures AlertID(m) == AlertID(n) <==> m.id.value == Joined("legacy", Fields(n))
  {
    LegacyID(n);
  }

  /**
   Of the messages that name none, those with the same five fields share an entry; and they are the only ones
   that do, exactly if no field of the message contains the separator.
  */
  lemma LegacyShareIff(m: Message)
    requires !HasGivenID(m)
    ensures forall n :: !HasGivenID(n) && SameFields(m, n) ==> AlertID(n) == AlertID(m)
    ensures (forall n :: !HasGivenID(n) && AlertID(n) == AlertID(m) ==> SameFields(m, n)) <==> Unambiguous(m)
  {
    LegacyID(m);
    forall n | !HasGivenID(n) ensures AlertID(n) == AlertID(m) <==> Fields(n) == Fields(m) {
      LegacyID(n);
      JoinedEqual("legacy", Fields(m), Fields(n));
    }
    if Unambiguous(m) {
      forall n | !HasGivenID(n) && AlertID(n) == AlertID(m) ensures SameFields(m, n) { FieldsAlike(m, n); }
    } else {
      var n := Ambiguous(m);
      assert !HasGivenID(n) && AlertID(n) == AlertID(m);
    }
  }

  /** The input: a source "a|b" without destination is taken for source "a" with destination "b|". */
  lemma MayCollide()
    ensures var m := Message(None, "scan", "", "a|b", "", "22", None, "");
            var n := m.(src := "a", dst := "b|");
            AlertID(m) == AlertID(n) && !SameFields(m, n)
  {
    var m := Message(None, "scan", "", "a|b", "", "22", None, "");
    var n := m.(src := "a", dst := "b|");
    LegacyID(m);
    LegacyID(n);
    assert Joined("a|b", Joined("", "22")) == Joined("a", Joined("b|", "22"));
  }

  // ----- what an entry shows -----

  lemma {:induction false} ParsedAt(msgs: seq<Message>, i: nat)
    requires i < |msgs|
    ensures |ParseAll(msgs)| == |msgs| && ParseAll(msgs)[i] == Parse(msgs[i])
  {
    if i > 0 {
      ParsedAt(msgs[1..], i - 1);
    } else if |msgs| > 1 {
      ParsedAt(msgs[1..], 0);
    }
  }

  lemma {:induction false} ParsedLength(msgs: seq<Message>)
    ensures |ParseAll(msgs)| == |msgs|
  {
    if msgs != [] { ParsedLength(msgs[1..]); }
  }

  /**
   Each entry of the panel shows the latest message with its ID, and as severity that of the message in lower
   case if it is one of the four, "info" otherwise.
  */
  lemma EntryShowsLatest(msgs: seq<Message>, k: nat)
    requires k < |Listed(ParseAll(msgs))|
    ensures var item := Listed(ParseAll(msgs))[k];
            exists l :: 0 <= l < |msgs| && AlertID(msgs[l]) == item.id && item.shown.message == msgs[l]
              && (forall i :: l < i < |msgs| ==> AlertID(msgs[i]) != item.id)
              && item.shown.severity ==
                 if msgs[l].severity.Some?
                    && ToLower(msgs[l].severity.value) in {"info", "notice", "warning", "critical"}
                 then ToLower(msgs[l].severity.value) else "info"
  {
    var alerts := ParseAll(msgs);
    var item := Listed(alerts)[k];
    ListedIsNewest(alerts);
    ParsedLength(msgs);
    assert ShowsLatest(item, alerts);
    var l :| item.at <= l < |alerts| && IsLatest(item, alerts, l);
    ParsedAt(msgs, l);
    forall i | l < i < |msgs| ensures AlertID(msgs[i]) != item.id { ParsedAt(msgs, i); }
    SeverityKept(msgs[l].severity);
  }
}
