/** The evidence tiers of internal/enrichment/models/verdict.go. */
module Verdicts {
  import opened Options
  import opened Sources

  /** Weakest to strongest, as internal/enrichment/models/threat.go lists them. */
  datatype Tier = Clean | Low | Medium | Review | High | Critical {
    function Rank(): nat {
      match this
      case Clean => 0
      case Low => 1
      case Medium => 2
      case Review => 3
      case High => 4
      case Critical => 5
    }
  }

  function IsMaliciousTier(tier: Tier): bool {
    tier == High || tier == Critical
  }

  datatype Verdict = Verdict(tier: Tier, score: Option<int>, isMalicious: bool)

  function NewVerdict(tier: Tier, score: Option<int>): Verdict {
    Verdict(tier, score, IsMaliciousTier(tier))
  }

  /** The vote counts of one VirusTotal answer; each may be missing. */
  datatype Votes = Votes(
    malicious: Option<int>,
    harmless: Option<int>,
    suspicious: Option<int>,
    undetected: Option<int>)

  datatype HashVotes = HashVotes(votes: Votes, threatLabel: Option<string>)

  datatype Bazaar = Bazaar(fileName: Option<string>, signature: Option<string>)

  predicate Positive(value: Option<int>) {
    value.Some? && value.value > 0
  }

  predicate HasStrongConsensus(v: Votes) {
    && v.malicious.Some? && v.harmless.Some? && v.suspicious.Some? && v.undetected.Some?
    && v.malicious.value > v.harmless.value + v.suspicious.value + v.undetected.value
  }

  /** White space as strings.TrimSpace knows it, for the characters of Latin-1. */
  predicate IsSpace(c: char) {
    c in {'\t', '\n', ' ', '\r'} || (c as int) in {0x0b, 0x0c, 0x85, 0xa0}
  }

  /** strings.TrimSpace leaves something. */
  predicate HasText(text: Option<string>) {
    text.Some? && exists i :: 0 <= i < |text.value| && !IsSpace(text.value[i])
  }

  predicate HasBazaarEvidence(data: Option<Bazaar>) {
    data.Some? && (HasText(data.value.signature) || HasText(data.value.fileName))
  }

  /** A data pointer is None when the lookup delivered nothing; pulses is the OTX pulse count. */
  function DomainVerdict(vt: Option<Votes>, pulses: Option<int>, sources: seq<Source>): Verdict {
    var vtSucceeded, otxSucceeded := SourceSucceeded(sources, VirusTotal), SourceSucceeded(sources, AlienVaultOTX);
    if vtSucceeded && otxSucceeded && vt.Some? && HasStrongConsensus(vt.value) && Positive(pulses) then
      NewVerdict(High, None)
    else if vtSucceeded && vt.Some? && Positive(vt.value.malicious) then NewVerdict(Review, None)
    else if otxSucceeded && Positive(pulses) then NewVerdict(Review, None)
    else NewVerdict(Clean, None)
  }

  /** isSafe and malicious are None when the answer or its field is missing. */
  function URLVerdict(isSafe: Option<bool>, malicious: Option<bool>, vt: Option<Votes>, sources: seq<Source>): Verdict {
    if SourceSucceeded(sources, GoogleSafeBrowsing) && isSafe == Some(false) then NewVerdict(High, None)
    else if SourceSucceeded(sources, URLScan) && malicious == Some(true) then NewVerdict(High, None)
    else if SourceSucceeded(sources, VirusTotal) && vt.Some? && HasStrongConsensus(vt.value) then NewVerdict(High, None)
    else if SourceSucceeded(sources, VirusTotal) && vt.Some?
            && (Positive(vt.value.malicious) || Positive(vt.value.suspicious)) then NewVerdict(Review, None)
    else NewVerdict(Clean, None)
  }

  /** The answer of CIRCL does not enter: known-good data must not erase other evidence. */
  function HashVerdict(vt: Option<HashVotes>, bazaar: Option<Bazaar>, sources: seq<Source>): Verdict {
    if SourceSucceeded(sources, MalwareBazaar) && HasBazaarEvidence(bazaar) then NewVerdict(High, None)
    else if SourceSucceeded(sources, VirusTotal) && vt.Some? then
      if HasText(vt.value.threatLabel) then NewVerdict(High, None)
      else if HasStrongConsensus(vt.value.votes) then NewVerdict(High, None)
      else if Positive(vt.value.votes.malicious) || Positive(vt.value.votes.suspicious) then NewVerdict(Review, None)
      else NewVerdict(Clean, None)
    else NewVerdict(Clean, None)
  }

  // ----- more malicious votes never lower the tier -----

  /** The same answer with at least as many malicious votes. */
  predicate MoreMalicious(v: Votes, w: Votes) {
    && w == v.(malicious := w.malicious)
    && v.malicious.Some? && w.malicious.Some? && v.malicious.value <= w.malicious.value
  }

  lemma DomainMonotone(v: Votes, w: Votes, pulses: Option<int>, sources: seq<Source>)
    requires MoreMalicious(v, w)
    ensures DomainVerdict(Some(v), pulses, sources).tier.Rank() <= DomainVerdict(Some(w), pulses, sources).tier.Rank()
    ensures DomainVerdict(Some(v), pulses, sources).isMalicious ==> DomainVerdict(Some(w), pulses, sources).isMalicious
  {
    assert HasStrongConsensus(v) ==> HasStrongConsensus(w);
  }

  lemma URLMonotone(v: Votes, w: Votes, isSafe: Option<bool>, malicious: Option<bool>, sources: seq<Source>)
    requires MoreMalicious(v, w)
    ensures URLVerdict(isSafe, malicious, Some(v), sources).tier.Rank()
         <= URLVerdict(isSafe, malicious, Some(w), sources).tier.Rank()
  {
    assert HasStrongConsensus(v) ==> HasStrongConsensus(w);
  }

  lemma HashMonotone(v: HashVotes, w: HashVotes, bazaar: Option<Bazaar>, sources: seq<Source>)
    requires MoreMalicious(v.votes, w.votes) && v.threatLabel == w.threatLabel
    ensures HashVerdict(Some(v), bazaar, sources).tier.Rank() <= HashVerdict(Some(w), bazaar, sources).tier.Rank()
  {
    assert HasStrongConsensus(v.votes) ==> HasStrongConsensus(w.votes);
  }

  // ----- more suspicious votes can lower it -----

  /** The same answer with at least as many suspicious votes. */
  predicate MoreSuspicious(v: Votes, w: Votes) {
    && w == v.(suspicious := w.suspicious)
    && v.suspicious.Some? && w.suspicious.Some? && v.suspicious.value <= w.suspicious.value
  }

  /** More suspicious votes break a consensus, never make one. */
  lemma SuspicionBreaksConsensus(v: Votes, w: Votes)
    requires MoreSuspicious(v, w)
    ensures HasStrongConsensus(w) ==> HasStrongConsensus(v)
  {
  }

  /** The tier of a URL does not fall exactly if another source has it, there was no consensus, or it survives. */
  lemma URLSuspicion(v: Votes, w: Votes, isSafe: Option<bool>, malicious: Option<bool>, sources: seq<Source>)
    requires MoreSuspicious(v, w)
    ensures var finding := (SourceSucceeded(sources, GoogleSafeBrowsing) && isSafe == Some(false))
                           || (SourceSucceeded(sources, URLScan) && malicious == Some(true));
            var before := URLVerdict(isSafe, malicious, Some(v), sources);
            var after := URLVerdict(isSafe, malicious, Some(w), sources);
            before.tier.Rank() <= after.tier.Rank() <==>
            finding || !SourceSucceeded(sources, VirusTotal) || !HasStrongConsensus(v) || HasStrongConsensus(w)
  {
    SuspicionBreaksConsensus(v, w);
  }

  /** The tier of a hash: likewise, with a MalwareBazaar entry or a threat label as the other evidence. */
  lemma HashSuspicion(v: HashVotes, w: HashVotes, bazaar: Option<Bazaar>, sources: seq<Source>)
    requires MoreSuspicious(v.votes, w.votes) && v.threatLabel == w.threatLabel
    ensures var finding := (SourceSucceeded(sources, MalwareBazaar) && HasBazaarEvidence(bazaar))
                           || HasText(v.threatLabel);
            var before, after := HashVerdict(Some(v), bazaar, sources), HashVerdict(Some(w), bazaar, sources);
            before.tier.Rank() <= after.tier.Rank() <==>
            || finding || !SourceSucceeded(sources, VirusTotal)
            || !HasStrongConsensus(v.votes) || HasStrongConsensus(w.votes)
  {
    SuspicionBreaksConsensus(v.votes, w.votes);
  }

  /** The tier of a domain falls exactly when the consensus that a pulse had made malicious breaks. */
  lemma DomainSuspicion(v: Votes, w: Votes, pulses: Option<int>, sources: seq<Source>)
    requires MoreSuspicious(v, w)
    ensures var before, after := DomainVerdict(Some(v), pulses, sources), DomainVerdict(Some(w), pulses, sources);
            before.tier.Rank() <= after.tier.Rank() <==>
            !SourceSucceeded(sources, VirusTotal) || !SourceSucceeded(sources, AlienVaultOTX) || !Positive(pulses)
            || !HasStrongConsensus(v) || HasStrongConsensus(w)
  {
    SuspicionBreaksConsensus(v, w);
  }

  /** Five malicious votes alone are a consensus, with five suspicious ones no more: all three verdicts fall. */
  lemma SuspicionMayLower()
    ensures var v := Votes(Some(5), Some(0), Some(0), Some(0));
            var w := v.(suspicious := Some(5));
            var ok := [Source(VirusTotal, true), Source(AlienVaultOTX, true)];
            && MoreSuspicious(v, w)
            && URLVerdict(None, None, Some(v), ok).tier == High && URLVerdict(None, None, Some(w), ok).tier == Review
            && HashVerdict(Some(HashVotes(v, None)), None, ok).tier == High
            && HashVerdict(Some(HashVotes(w, None)), None, ok).tier == Review
            && DomainVerdict(Some(v), Some(1), ok).tier == High && DomainVerdict(Some(w), Some(1), ok).tier == Review
  {
  }
}
