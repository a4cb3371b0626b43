/** Outcomes of the external lookups of one enrichment request: SourceMetadata of internal/shared/cache.go. */
module Sources {
  /** The name each service client puts into its metadata. */
  datatype SourceName =
    | Whois
    | Dns
    | Ssl
    | VirusTotal
    | AlienVaultOTX
    | GoogleSafeBrowsing
    | URLScan
    | MalwareBazaar
    | CIRCLHashlookup

  datatype Source = Source(name: SourceName, success: bool)

  ghost predicate DistinctNames(sources: seq<Source>) {
    forall i, j :: 0 <= i < j < |sources| ==> sources[i].name != sources[j].name
  }

  /** sourceSucceeded: the first entry of that name decides. */
  function SourceSucceeded(sources: seq<Source>, name: SourceName): bool {
    if sources == [] then false
    else if sources[0].name == name then sources[0].success
    else SourceSucceeded(sources[1..], name)
  }

  /** With distinct names the search does not depend on the order. */
  lemma {:induction false} SucceededIsMembership(sources: seq<Source>, name: SourceName)
    requires DistinctNames(sources)
    ensures SourceSucceeded(sources, name) <==> Source(name, true) in sources
  {
    if sources != [] {
      SucceededIsMembership(sources[1..], name);
      assert sources == [sources[0]] + sources[1..];
    }
  }

  lemma OccursTwice<T>(s: seq<T>, i: int, j: int)
    requires 0 <= i < j < |s| && s[i] == s[j]
    ensures multiset(s)[s[i]] >= 2
  {
    assert s == s[..j] + s[j..];
    assert s[i] in s[..j] && s[i] in s[j..];
  }

  lemma {:induction false} OccursOnce<T>(s: seq<T>, x: T)
    requires forall i, j :: 0 <= i < j < |s| ==> s[i] != s[j]
    ensures multiset(s)[x] <= 1
  {
    if s != [] {
      OccursOnce(s[1..], x);
      assert s == [s[0]] + s[1..];
    }
  }
}
