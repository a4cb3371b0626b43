/**
 What the enrichment handlers answer, in terms of their lookups alone: which ones succeeded and what they
 found, whatever the order in which the goroutines finish.
*/
module LookupVerdicts {
  import opened Options
  import opened Sources
  import opened Verdicts
  import opened FanOut
  import Cache = CacheHistory

  /** More than half of all votes are malicious, none of the four counts missing. */
  predicate Majority(v: Votes) {
    && v.malicious.Some? && v.harmless.Some? && v.suspicious.Some? && v.undetected.Some?
    && 2 * v.malicious.value
       > v.malicious.value + v.harmless.value + v.suspicious.value + v.undetected.value
  }

  predicate AnyMalicious(v: Votes) {
    v.malicious.Some? && v.malicious.value > 0
  }

  predicate AnySuspicious(v: Votes) {
    v.suspicious.Some? && v.suspicious.value > 0
  }

  lemma MajorityIsConsensus(v: Votes)
    ensures Majority(v) <==> HasStrongConsensus(v)
  {
  }

  /** The answer is the tier with no score, and malicious exactly if the tier is high. */
  predicate Answers(v: Verdict, high: bool, review: bool) {
    && v.score == None && (v.isMalicious <==> high)
    && (v.tier == High <==> high) && (v.tier == Review <==> !high && review) && (v.tier == Clean <==> !high && !review)
  }

  lemma SameAnswer(l: Lookups, vars: map<SourceName, Evidence>, sources: seq<Source>)
    requires Gathered(l.Fetches(), vars, sources)
    ensures l.Judge(vars, sources) == Outcome(l, Metas(l.Fetches()))
    ensures Cache.TTL(sources) == Cache.TTL(Metas(l.Fetches()))
  {
    FetchesDistinct(l);
    JudgedAlike(l, l.Fetches(), vars, sources);
    JudgesOutcome(l);
  }

  lemma DomainSources(l: Lookups)
    requires l.DomainLookups?
    ensures var m := Metas(l.Fetches());
            SourceSucceeded(m, VirusTotal) == l.vt && SourceSucceeded(m, AlienVaultOTX) == l.otx
  {
    FetchesDistinct(l);
    SourceAt(l.Fetches(), 3);
    SourceAt(l.Fetches(), 4);
  }

  lemma URLSources(l: Lookups)
    requires l.URLLookups?
    ensures var m := Metas(l.Fetches());
            && SourceSucceeded(m, GoogleSafeBrowsing) == l.sb && SourceSucceeded(m, VirusTotal) == l.vt
            && SourceSucceeded(m, URLScan) == (l.submitted && l.scan)
  {
    var fetches := l.Fetches();
    FetchesDistinct(l);
    SourceAt(fetches, 0);
    SourceAt(fetches, 1);
    if l.submitted { SourceAt(fetches, 2); } else { NoSource(fetches, URLScan); }
  }

  lemma HashSources(l: Lookups)
    requires l.HashLookups?
    ensures var m := Metas(l.Fetches());
            SourceSucceeded(m, VirusTotal) == l.vt && SourceSucceeded(m, MalwareBazaar) == l.mb
  {
    FetchesDistinct(l);
    SourceAt(l.Fetches(), 0);
    SourceAt(l.Fetches(), 1);
  }

  lemma DomainTier(votes: Option<Votes>, pulses: Option<int>, m: seq<Source>)
    ensures var voted := SourceSucceeded(m, VirusTotal) && votes.Some?;
            var pulsed := SourceSucceeded(m, AlienVaultOTX) && pulses.Some? && pulses.value > 0;
            Answers(DomainVerdict(votes, pulses, m), voted && Majority(votes.value) && pulsed,
                    (voted && AnyMalicious(votes.value)) || pulsed)
  {
    if votes.Some? { MajorityIsConsensus(votes.value); }
  }

  lemma URLTier(isSafe: Option<bool>, malicious: Option<bool>, votes: Option<Votes>, m: seq<Source>)
    ensures var voted := SourceSucceeded(m, VirusTotal) && votes.Some?;
            Answers(URLVerdict(isSafe, malicious, votes, m),
                    (SourceSucceeded(m, GoogleSafeBrowsing) && isSafe == Some(false))
                      || (SourceSucceeded(m, URLScan) && malicious == Some(true)) || (voted && Majority(votes.value)),
                    voted && (AnyMalicious(votes.value) || AnySuspicious(votes.value)))
  {
    if votes.Some? { MajorityIsConsensus(votes.value); }
  }

  /** A text with a character that is not white space. */
  predicate Says(text: Option<string>) {
    text.Some? && exists i :: 0 <= i < |text.value| && !IsSpace(text.value[i])
  }

  lemma HashTier(vt: Option<HashVotes>, bazaar: Option<Bazaar>, m: seq<Source>)
    ensures var voted := SourceSucceeded(m, VirusTotal) && vt.Some?;
            var entered := SourceSucceeded(m, MalwareBazaar) && bazaar.Some?
                           && (Says(bazaar.value.signature) || Says(bazaar.value.fileName));
            Answers(HashVerdict(vt, bazaar, m),
                    entered || (voted && (Says(vt.value.threatLabel) || Majority(vt.value.votes))),
                    voted && (AnyMalicious(vt.value.votes) || AnySuspicious(vt.value.votes)))
  {
    assert HasBazaarEvidence(bazaar) <==>
           bazaar.Some? && (Says(bazaar.value.signature) || Says(bazaar.value.fileName));
    if vt.Some? {
      assert HasText(vt.value.threatLabel) <==> Says(vt.value.threatLabel);
      MajorityIsConsensus(vt.value.votes);
    }
  }

  /**
   A domain is malicious exactly on a voting majority together with a pulse, for review on any malicious vote
   or any pulse short of that, and clean otherwise; only lookups that succeeded count.
  */
  lemma DomainAnswer(l: Lookups, vars: map<SourceName, Evidence>, sources: seq<Source>)
    requires l.DomainLookups? && Gathered(l.Fetches(), vars, sources)
    ensures var voted, pulsed := l.vt && l.votes.Some?, l.otx && l.pulses.Some? && l.pulses.value > 0;
            Answers(l.Judge(vars, sources), voted && Majority(l.votes.value) && pulsed,
                    (voted && AnyMalicious(l.votes.value)) || pulsed)
  {
    SameAnswer(l, vars, sources);
    DomainSources(l);
    DomainTier(l.votes, l.pulses, Metas(l.Fetches()));
  }

  /**
   A URL is malicious exactly if Safe Browsing calls it unsafe, a scan that was asked for calls it malicious, or
   the votes have a malicious majority; for review on any malicious or suspicious vote short of that.
  */
  lemma URLAnswer(l: Lookups, vars: map<SourceName, Evidence>, sources: seq<Source>)
    requires l.URLLookups? && Gathered(l.Fetches(), vars, sources)
    ensures var voted := l.vt && l.votes.Some?;
            Answers(l.Judge(vars, sources),
                    (l.sb && l.isSafe == Some(false)) || (l.submitted && l.scan && l.malicious == Some(true))
                      || (voted && Majority(l.votes.value)),
                    voted && (AnyMalicious(l.votes.value) || AnySuspicious(l.votes.value)))
  {
    SameAnswer(l, vars, sources);
    URLSources(l);
    URLTier(l.isSafe, if l.submitted then l.malicious else None, l.votes, Metas(l.Fetches()));
  }

  /**
   A hash is malicious exactly on a MalwareBazaar entry with a signature or a file name, a threat label, or a
   voting majority; for review on any malicious or suspicious vote short of that. CIRCL does not count.
  */
  lemma HashAnswer(l: Lookups, vars: map<SourceName, Evidence>, sources: seq<Source>)
    requires l.HashLookups? && Gathered(l.Fetches(), vars, sources)
    ensures var voted := l.vt && l.hashVotes.Some?;
            var entered := l.mb && l.bazaar.Some? && (Says(l.bazaar.value.signature) || Says(l.bazaar.value.fileName));
            Answers(l.Judge(vars, sources),
                    entered || (voted && (Says(l.hashVotes.value.threatLabel) || Majority(l.hashVotes.value.votes))),
                    voted && (AnyMalicious(l.hashVotes.value.votes) || AnySuspicious(l.hashVotes.value.votes)))
  {
    SameAnswer(l, vars, sources);
    HashSources(l);
    HashTier(l.hashVotes, l.bazaar, Metas(l.Fetches()));
  }

  /** The outcomes of the lookups that are made. */
  function Outcomes(l: Lookups): (o: seq<bool>)
    ensures |o| > 0
  {
    match l
    case DomainLookups(whois, dns, ssl, vt, _, otx, _) => [whois, dns, ssl, vt, otx]
    case URLLookups(sb, _, submitted, scan, _, vt, _) => [sb] + (if submitted then [scan] else []) + [vt]
    case HashLookups(vt, _, mb, _, circl) => [vt, mb, circl]
  }

  lemma OutcomesAre(l: Lookups)
    ensures var m, o := Metas(l.Fetches()), Outcomes(l);
            |m| == |o| && forall i :: 0 <= i < |m| ==> m[i].success == o[i]
  {
  }

  lemma CachedByOutcomes(m: seq<Source>, o: seq<bool>)
    requires |m| == |o| > 0 && forall i :: 0 <= i < |m| ==> m[i].success == o[i]
    ensures Cache.TTL(m) == if false !in o then 60 * 60 else if true !in o then 0 else 15 * 60
  {
    TTLByOutcomes(m);
    if HasOutcome(m, true) {
      var i :| 0 <= i < |m| && m[i].success == true;
      assert o[i] in o;
    }
    if HasOutcome(m, false) {
      var i :| 0 <= i < |m| && m[i].success == false;
      assert o[i] in o;
    }
    if true in o {
      var i :| 0 <= i < |o| && o[i] == true;
      assert m[i].success == true;
    }
    if false in o {
      var i :| 0 <= i < |o| && o[i] == false;
      assert m[i].success == false;
    }
    assert o[0] in o;
  }

  /** An answer is cached for an hour if all lookups succeeded, not at all if all failed, else for 15 minutes. */
  lemma CachedFor(l: Lookups, vars: map<SourceName, Evidence>, sources: seq<Source>)
    requires Gathered(l.Fetches(), vars, sources)
    ensures Cache.TTL(sources) ==
            if false !in Outcomes(l) then 60 * 60 else if true !in Outcomes(l) then 0 else 15 * 60
  {
    SameAnswer(l, vars, sources);
    OutcomesAre(l);
    CachedByOutcomes(Metas(l.Fetches()), Outcomes(l));
  }
}
