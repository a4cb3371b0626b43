/**
 The goroutines of the enrichment handlers internal/enrichment/handlers/domain.go, url.go and hash.go: each
 looks up one source and, holding a mutex, stores the answer in its own variable and appends its metadata
 to the shared list. The handler waits for all of them and then judges.
*/
module FanOut {
  import opened Options
  import opened Sources
  import opened Verdicts
  import Cache = CacheHistory

  /** What a lookup stores; Nothing is a nil pointer, Other is data no verdict reads. */
  datatype Evidence =
    | Nothing
    | Other
    | VotesFound(votes: Votes)
    | HashFound(hashVotes: HashVotes)
    | Pulses(count: Option<int>)
    | SafeBrowsing(isSafe: Option<bool>)
    | Scanned(malicious: Option<bool>)
    | BazaarFound(entry: Bazaar)

  /** A goroutine's lookup: its metadata, and what it stores in the variable of that source. */
  datatype Fetch = Fetch(meta: Source, evidence: Evidence)

  function Metas(fetches: seq<Fetch>): (m: seq<Source>)
    ensures |m| == |fetches| && forall i :: 0 <= i < |m| ==> m[i] == fetches[i].meta
  {
    seq(|fetches|, i requires 0 <= i < |fetches| => fetches[i].meta)
  }

  /** The handler's variables after the goroutines stored their answers in this order; the others stay nil. */
  function Stored(order: seq<Fetch>): map<SourceName, Evidence> {
    if order == [] then map[] else
      var f := order[|order| - 1];
      Stored(order[..|order| - 1])[f.meta.name := f.evidence]
  }

  /** Every goroutine has finished, in some order. */
  ghost predicate Gathered(fetches: seq<Fetch>, vars: map<SourceName, Evidence>, sources: seq<Source>) {
    exists order :: multiset(order) == multiset(fetches) && vars == Stored(order) && sources == Metas(order)
  }

  /** The goroutines get the mutex in whatever order; the wait group lets the handler go on after the last. */
  method Gather(fetches: seq<Fetch>) returns (vars: map<SourceName, Evidence>, sources: seq<Source>)
    ensures Gathered(fetches, vars, sources)
  {
    vars, sources := map[], [];
    var running := fetches;
    ghost var order := [];
    while running != []
      invariant multiset(order) + multiset(running) == multiset(fetches)
      invariant vars == Stored(order) && sources == Metas(order)
      decreases |running|
    {
      var i :| 0 <= i < |running|;
      var f := running[i];
      assert running == running[..i] + [f] + running[i + 1..];
      running := running[..i] + running[i + 1..];
      assert (order + [f])[..|order|] == order;
      order := order + [f];
      vars := vars[f.meta.name := f.evidence];
      sources := sources + [f.meta];
    }
  }

  // ----- the order does not matter -----

  function Var(vars: map<SourceName, Evidence>, name: SourceName): Evidence {
    if name in vars then vars[name] else Nothing
  }

  ghost predicate Distinct(fetches: seq<Fetch>) {
    forall i, j :: 0 <= i < j < |fetches| ==> fetches[i].meta.name != fetches[j].meta.name
  }

  /** A variable holds what the goroutine of its source stored, and stays nil when there is none. */
  lemma {:induction false} StoredHolds(order: seq<Fetch>, name: SourceName)
    requires Distinct(order)
    ensures forall f :: f in order && f.meta.name == name ==> Var(Stored(order), name) == f.evidence
    ensures (forall f :: f in order ==> f.meta.name != name) ==> Var(Stored(order), name) == Nothing
  {
    if order != [] {
      var before := order[..|order| - 1];
      assert order == before + [order[|order| - 1]];
      StoredHolds(before, name);
    }
  }

  lemma ReorderedDistinct(a: seq<Fetch>, b: seq<Fetch>)
    requires Distinct(a) && multiset(a) == multiset(b)
    ensures Distinct(b)
  {
    forall i, j | 0 <= i < j < |b| ensures b[i].meta.name != b[j].meta.name {
      if b[i].meta.name == b[j].meta.name {
        assert b[i] in multiset(a) && b[j] in multiset(a);
        var k :| 0 <= k < |a| && a[k] == b[i];
        var l :| 0 <= l < |a| && a[l] == b[j];
        assert k == l;
        OccursTwice(b, i, j);
        OccursOnce(a, b[i]);
      }
    }
  }

  lemma MetasDistinct(order: seq<Fetch>)
    requires Distinct(order)
    ensures DistinctNames(Metas(order))
  {
  }

  lemma SourceOf(order: seq<Fetch>, f: Fetch)
    requires Distinct(order) && f in order
    ensures SourceSucceeded(Metas(order), f.meta.name) == f.meta.success
    ensures Var(Stored(order), f.meta.name) == f.evidence
  {
    StoredHolds(order, f.meta.name);
    MetasDistinct(order);
    SucceededIsMembership(Metas(order), f.meta.name);
    var k :| 0 <= k < |order| && order[k] == f;
    assert Metas(order)[k] == f.meta;
  }

  lemma NoSource(order: seq<Fetch>, name: SourceName)
    requires Distinct(order) && forall f :: f in order ==> f.meta.name != name
    ensures !SourceSucceeded(Metas(order), name) && Var(Stored(order), name) == Nothing
  {
    StoredHolds(order, name);
    MetasDistinct(order);
    SucceededIsMembership(Metas(order), name);
  }

  lemma Moves(a: seq<Fetch>, b: seq<Fetch>, i: nat) returns (j: nat)
    requires multiset(a) == multiset(b) && i < |a|
    ensures j < |b| && b[j] == a[i]
  {
    assert a[i] in multiset(b);
    j :| 0 <= j < |b| && b[j] == a[i];
  }

  ghost predicate HasOutcome(sources: seq<Source>, success: bool) {
    exists i :: 0 <= i < |sources| && sources[i].success == success
  }

  lemma OutcomesMove(a: seq<Fetch>, b: seq<Fetch>, success: bool)
    requires multiset(a) == multiset(b) && HasOutcome(Metas(a), success)
    ensures HasOutcome(Metas(b), success)
  {
    var i :| 0 <= i < |Metas(a)| && Metas(a)[i].success == success;
    var j := Moves(a, b, i);
    assert Metas(b)[j].success == success;
  }

  lemma TTLByOutcomes(sources: seq<Source>)
    ensures Cache.TTL(sources) == if sources != [] && !HasOutcome(sources, true) then 0
                                  else if HasOutcome(sources, false) then Cache.TTL_PARTIAL else Cache.TTL_FULL
  {
  }

  lemma SameTTL(a: seq<Fetch>, b: seq<Fetch>)
    requires multiset(a) == multiset(b)
    ensures Cache.TTL(Metas(a)) == Cache.TTL(Metas(b))
  {
    assert |a| == |multiset(a)| == |multiset(b)| == |b|;
    TTLByOutcomes(Metas(a));
    TTLByOutcomes(Metas(b));
    if HasOutcome(Metas(a), true) { OutcomesMove(a, b, true); }
    if HasOutcome(Metas(b), true) { OutcomesMove(b, a, true); }
    if HasOutcome(Metas(a), false) { OutcomesMove(a, b, false); }
    if HasOutcome(Metas(b), false) { OutcomesMove(b, a, false); }
  }

  /**
   Whatever the order, every variable and every outcome a verdict reads, and the TTL, are those of the
   goroutines finishing in the order they were started.
  */
  lemma OrderIrrelevant(fetches: seq<Fetch>, vars: map<SourceName, Evidence>, sources: seq<Source>, name: SourceName)
    requires Distinct(fetches) && Gathered(fetches, vars, sources)
    ensures Var(vars, name) == Var(Stored(fetches), name)
    ensures SourceSucceeded(sources, name) == SourceSucceeded(Metas(fetches), name)
    ensures Cache.TTL(sources) == Cache.TTL(Metas(fetches))
  {
    var order :| multiset(order) == multiset(fetches) && vars == Stored(order) && sources == Metas(order);
    ReorderedDistinct(fetches, order);
    SameTTL(order, fetches);
    if f: Fetch :| f in fetches && f.meta.name == name {
      assert f in multiset(order);
      SourceOf(order, f);
      SourceOf(fetches, f);
    } else {
      forall f: Fetch | f in order ensures f.meta.name != name { assert f in multiset(fetches); }
      NoSource(order, name);
      NoSource(fetches, name);
    }
  }

  // ----- the three handlers -----

  /** What the lookups of one request deliver: whether each succeeded, and the data the verdict reads. */
  datatype Lookups =
    | DomainLookups(whois: bool, dns: bool, ssl: bool, vt: bool, votes: Option<Votes>, otx: bool, pulses: Option<int>)
    | URLLookups(sb: bool, isSafe: Option<bool>, submitted: bool, scan: bool, malicious: Option<bool>,
                 vt: bool, votes: Option<Votes>)
    | HashLookups(vt: bool, hashVotes: Option<HashVotes>, mb: bool, bazaar: Option<Bazaar>, circl: bool)
  {
    /** The goroutines in the order they are started; the URL scan only on request. */
    function Fetches(): seq<Fetch> {
      match this
      case DomainLookups(_, _, _, _, _, _, _) =>
        [ Fetch(Source(Whois, whois), Other), Fetch(Source(Dns, dns), Other), Fetch(Source(Ssl, ssl), Other),
          Fetch(Source(VirusTotal, vt), if votes.Some? then VotesFound(votes.value) else Nothing),
          Fetch(Source(AlienVaultOTX, otx), Pulses(pulses))]
      case URLLookups(_, _, _, _, _, _, _) =>
        [Fetch(Source(GoogleSafeBrowsing, sb), SafeBrowsing(isSafe))]
        + (if submitted then [Fetch(Source(URLScan, scan), Scanned(malicious))] else [])
        + [Fetch(Source(VirusTotal, vt), if votes.Some? then VotesFound(votes.value) else Nothing)]
      case HashLookups(_, _, _, _, _) =>
        [ Fetch(Source(VirusTotal, vt), if hashVotes.Some? then HashFound(hashVotes.value) else Nothing),
          Fetch(Source(MalwareBazaar, mb), if bazaar.Some? then BazaarFound(bazaar.value) else Nothing),
          Fetch(Source(CIRCLHashlookup, circl), Other)]
    }

    /** The handler's verdict on its variables and list. */
    function Judge(vars: map<SourceName, Evidence>, sources: seq<Source>): Verdict {
      var vtVar := Var(vars, VirusTotal);
      var found := if vtVar.VotesFound? then Some(vtVar.votes) else None;
      match this
      case DomainLookups(_, _, _, _, _, _, _) =>
        var p := Var(vars, AlienVaultOTX);
        DomainVerdict(found, if p.Pulses? then p.count else None, sources)
      case URLLookups(_, _, _, _, _, _, _) =>
        var s, u := Var(vars, GoogleSafeBrowsing), Var(vars, URLScan);
        URLVerdict(if s.SafeBrowsing? then s.isSafe else None, if u.Scanned? then u.malicious else None, found, sources)
      case HashLookups(_, _, _, _, _) =>
        var b := Var(vars, MalwareBazaar);
        HashVerdict(if vtVar.HashFound? then Some(vtVar.hashVotes) else None,
                    if b.BazaarFound? then Some(b.entry) else None, sources)
    }

    /** The same handler, the same outcomes, and the same data wherever the lookup succeeded. */
    predicate AgreesOnSuccesses(other: Lookups) {
      match (this, other)
      case (DomainLookups(_, _, _, v, d, o, p), DomainLookups(_, _, _, _, d', _, p')) =>
        && whois == other.whois && dns == other.dns && ssl == other.ssl && vt == other.vt && otx == other.otx
        && (v ==> d == d') && (o ==> p == p')
      case (URLLookups(_, i, _, u, m, v, d), URLLookups(_, i', _, _, m', _, d')) =>
        && sb == other.sb && submitted == other.submitted && scan == other.scan && vt == other.vt
        && (sb ==> i == i') && (u ==> m == m') && (v ==> d == d')
      case (HashLookups(v, d, m, b, _), HashLookups(_, d', _, b', _)) =>
        && vt == other.vt && mb == other.mb && circl == other.circl
        && (v ==> d == d') && (m ==> b == b')
      case (_, _) => false
    }
  }

  lemma FetchesDistinct(l: Lookups)
    ensures Distinct(l.Fetches())
  {
  }

  /** What a verdict reads of a source. */
  ghost predicate ReadAlike(vars: map<SourceName, Evidence>, sources: seq<Source>,
                            vars': map<SourceName, Evidence>, sources': seq<Source>, name: SourceName) {
    Var(vars, name) == Var(vars', name) && SourceSucceeded(sources, name) == SourceSucceeded(sources', name)
  }

  lemma JudgeReads(l: Lookups, vars: map<SourceName, Evidence>, sources: seq<Source>,
                   vars': map<SourceName, Evidence>, sources': seq<Source>)
    requires ReadAlike(vars, sources, vars', sources', VirusTotal)
    requires ReadAlike(vars, sources, vars', sources', AlienVaultOTX)
    requires ReadAlike(vars, sources, vars', sources', GoogleSafeBrowsing)
    requires ReadAlike(vars, sources, vars', sources', URLScan)
    requires ReadAlike(vars, sources, vars', sources', MalwareBazaar)
    ensures l.Judge(vars, sources) == l.Judge(vars', sources')
  {
  }

  lemma JudgedAlike(l: Lookups, fetches: seq<Fetch>, vars: map<SourceName, Evidence>, sources: seq<Source>)
    requires Distinct(fetches) && Gathered(fetches, vars, sources)
    ensures l.Judge(vars, sources) == l.Judge(Stored(fetches), Metas(fetches))
    ensures Cache.TTL(sources) == Cache.TTL(Metas(fetches))
  {
    OrderIrrelevant(fetches, vars, sources, VirusTotal);
    OrderIrrelevant(fetches, vars, sources, AlienVaultOTX);
    OrderIrrelevant(fetches, vars, sources, GoogleSafeBrowsing);
    OrderIrrelevant(fetches, vars, sources, URLScan);
    OrderIrrelevant(fetches, vars, sources, MalwareBazaar);
    JudgeReads(l, vars, sources, Stored(fetches), Metas(fetches));
  }

  lemma SourceAt(fetches: seq<Fetch>, i: nat)
    requires Distinct(fetches) && i < |fetches|
    ensures SourceSucceeded(Metas(fetches), fetches[i].meta.name) == fetches[i].meta.success
    ensures Var(Stored(fetches), fetches[i].meta.name) == fetches[i].evidence
  {
    SourceOf(fetches, fetches[i]);
  }

  /** The verdict on the outcomes and the data of the lookups themselves. */
  function Outcome(l: Lookups, sources: seq<Source>): Verdict {
    match l
    case DomainLookups(_, _, _, _, votes, _, pulses) => DomainVerdict(votes, pulses, sources)
    case URLLookups(_, isSafe, submitted, _, malicious, _, votes) =>
      URLVerdict(isSafe, if submitted then malicious else None, votes, sources)
    case HashLookups(_, hashVotes, _, bazaar, _) => HashVerdict(hashVotes, bazaar, sources)
  }

  /** The handlers hand each answer to the verdict that is about it. */
  lemma JudgesOutcome(l: Lookups)
    ensures l.Judge(Stored(l.Fetches()), Metas(l.Fetches())) == Outcome(l, Metas(l.Fetches()))
  {
    var fetches := l.Fetches();
    FetchesDistinct(l);
    match l {
      case DomainLookups(_, _, _, _, _, _, _) => SourceAt(fetches, 3); SourceAt(fetches, 4);
      case URLLookups(_, _, submitted, _, _, _, _) =>
        SourceAt(fetches, 0);
        SourceAt(fetches, 1);
        if submitted { SourceAt(fetches, 2); } else { NoSource(fetches, URLScan); }
      case HashLookups(_, _, _, _, _) => SourceAt(fetches, 0); SourceAt(fetches, 1);
    }
  }

  lemma FailuresIgnored(l: Lookups, m: Lookups)
    requires l.AgreesOnSuccesses(m)
    ensures Metas(l.Fetches()) == Metas(m.Fetches())
    ensures Outcome(l, Metas(l.Fetches())) == Outcome(m, Metas(m.Fetches()))
  {
    var fetches, sources := l.Fetches(), Metas(l.Fetches());
    FetchesDistinct(l);
    assert sources == Metas(m.Fetches());
    match l {
      case DomainLookups(_, _, _, _, _, _, _) => SourceAt(fetches, 3); SourceAt(fetches, 4);
      case URLLookups(sb, _, submitted, scan, _, vt, _) =>
        assert SourceSucceeded(sources, GoogleSafeBrowsing) == sb by { SourceAt(fetches, 0); }
        if submitted {
          assert SourceSucceeded(sources, URLScan) == scan by { SourceAt(fetches, 1); }
          assert SourceSucceeded(sources, VirusTotal) == vt by { SourceAt(fetches, 2); }
        } else {
          assert SourceSucceeded(sources, VirusTotal) == vt by { SourceAt(fetches, 1); }
        }
      case HashLookups(_, _, _, _, _) => SourceAt(fetches, 0); SourceAt(fetches, 1);
    }
  }

  /**
   For every order in which the goroutines finish the verdict and the TTL are the same, and the data of a
   failed lookup makes no difference to either.
  */
  lemma VerdictOfSuccesses(l: Lookups, m: Lookups, vars: map<SourceName, Evidence>, sources: seq<Source>,
                           vars': map<SourceName, Evidence>, sources': seq<Source>)
    requires l.AgreesOnSuccesses(m) && Gathered(l.Fetches(), vars, sources) && Gathered(m.Fetches(), vars', sources')
    ensures l.Judge(vars, sources) == m.Judge(vars', sources') == Outcome(l, Metas(l.Fetches()))
    ensures Cache.TTL(sources) == Cache.TTL(sources')
  {
    FetchesDistinct(l);
    FetchesDistinct(m);
    JudgedAlike(l, l.Fetches(), vars, sources);
    JudgedAlike(m, m.Fetches(), vars', sources');
    JudgesOutcome(l);
    JudgesOutcome(m);
    FailuresIgnored(l, m);
  }
}
