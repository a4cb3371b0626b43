/**
 The composite IP score of internal/enrichment/models/threat.go, over exact reals: the source computes in
 float64.
*/
module Score {
  import opened Options
  import opened Verdicts

  datatype Abuse = Abuse(score: Option<int>, reports: Option<int>)

  function Or0(value: Option<int>): int {
    if value.Some? then value.value else 0
  }

  /** All votes, when there is a malicious count. */
  function Total(v: Votes): int {
    Or0(v.malicious) + Or0(v.harmless) + Or0(v.suspicious) + Or0(v.undetected)
  }

  /** The share of malicious votes in percent, unless there are none to count. */
  function VTComponent(vt: Option<Votes>): Option<real> {
    if vt.Some? && vt.value.malicious.Some? && Total(vt.value) > 0 then
      Some(vt.value.malicious.value as real / Total(vt.value) as real * 100.0)
    else None
  }

  function AbuseComponent(abuse: Option<Abuse>): Option<real> {
    if abuse.Some? && abuse.value.score.Some? then Some(abuse.value.score.value as real) else None
  }

  /** The score before the modifiers. */
  function Base(a: Option<real>, v: Option<real>): Option<real> {
    match (a, v)
    case (Some(x), Some(y)) => Some(0.6 * x + 0.4 * y)
    case (Some(x), None) => Some(x)
    case (None, Some(y)) => Some(y)
    case (None, None) => None
  }

  function Modifiers(abuse: Option<Abuse>, isTor: bool): real {
    (if AbuseComponent(abuse).Some? && abuse.value.reports.Some? then
       if abuse.value.reports.value >= 1000 then 15.0 else if abuse.value.reports.value >= 100 then 5.0 else 0.0
     else 0.0)
    + if isTor then 10.0 else 0.0
  }

  function Clamped(score: real): real {
    if score > 100.0 then 100.0 else if score < 0.0 then 0.0 else score
  }

  /** Rounded half up: the source truncates score + 0.5, which is not negative. */
  function Rounded(score: real): int {
    (score + 0.5).Floor
  }

  function TierOf(rounded: int): Tier {
    if rounded >= 80 then Critical
    else if rounded >= 50 then High
    else if rounded >= 25 then Medium
    else if rounded >= 10 then Low
    else Clean
  }

  /** The score ScoreIPThreat is specified to deliver: 0 without any evidence. */
  function ScoreOf(abuse: Option<Abuse>, vt: Option<Votes>, isTor: bool): int {
    var base := Base(AbuseComponent(abuse), VTComponent(vt));
    if base == None then 0 else Rounded(Clamped(base.value + Modifiers(abuse, isTor)))
  }

  /** The vote counting of ScoreIPThreat. */
  method CountVotes(vt: Option<Votes>) returns (haveVT: bool, vtComponent: real)
    ensures VTComponent(vt) == if haveVT then Some(vtComponent) else None
  {
    haveVT, vtComponent := false, 0.0;
    if vt.Some? && vt.value.malicious.Some? {
      var total := vt.value.malicious.value;
      if vt.value.harmless.Some? { total := total + vt.value.harmless.value; }
      if vt.value.suspicious.Some? { total := total + vt.value.suspicious.value; }
      if vt.value.undetected.Some? { total := total + vt.value.undetected.value; }
      if total > 0 {
        haveVT := true;
        vtComponent := vt.value.malicious.value as real / total as real * 100.0;
      }
    }
  }

  method ScoreIPThreat(abuse: Option<Abuse>, vt: Option<Votes>, isTor: bool) returns (rounded: int, tier: Tier)
    ensures rounded == ScoreOf(abuse, vt, isTor) && tier == TierOf(rounded)
    ensures 0 <= rounded <= 100
    ensures tier == Critical <==> rounded >= 80
    ensures tier == High <==> 50 <= rounded < 80
    ensures tier == Medium <==> 25 <= rounded < 50
    ensures tier == Low <==> 10 <= rounded < 25
    ensures tier == Clean <==> rounded < 10
  {
    var abuseComponent := 0.0;
    var haveAbuse := abuse.Some? && abuse.value.score.Some?;
    if haveAbuse {
      abuseComponent := abuse.value.score.value as real;
    }
    var haveVT, vtComponent := CountVotes(vt);
    assert AbuseComponent(abuse) == if haveAbuse then Some(abuseComponent) else None;
    ghost var base := Base(AbuseComponent(abuse), VTComponent(vt));
    var score;
    if haveAbuse && haveVT {
      score := 0.6 * abuseComponent + 0.4 * vtComponent;
    } else if haveAbuse {
      score := abuseComponent;
    } else if haveVT {
      score := vtComponent;
    } else {
      return 0, Clean;
    }
    assert base == Some(score);
    if haveAbuse && abuse.value.reports.Some? {
      if abuse.value.reports.value >= 1000 {
        score := score + 15.0;
      } else if abuse.value.reports.value >= 100 {
        score := score + 5.0;
      }
    }
    if isTor { score := score + 10.0; }
    assert score == base.value + Modifiers(abuse, isTor);
    if score > 100.0 { score := 100.0; }
    if score < 0.0 { score := 0.0; }
    assert score == Clamped(base.value + Modifiers(abuse, isTor));
    rounded := (score + 0.5).Floor;
    if rounded >= 80 {
      tier := Critical;
    } else if rounded >= 50 {
      tier := High;
    } else if rounded >= 25 {
      tier := Medium;
    } else if rounded >= 10 {
      tier := Low;
    } else {
      tier := Clean;
    }
  }

  /** IPVerdict of verdict.go: the score with its tier, malicious from 50 on. */
  method IPVerdict(abuse: Option<Abuse>, vt: Option<Votes>, isTor: bool) returns (verdict: Verdict)
    ensures verdict.score == Some(ScoreOf(abuse, vt, isTor)) && verdict.tier == TierOf(verdict.score.value)
    ensures verdict.isMalicious <==> verdict.score.value >= 50
  {
    var score, tier := ScoreIPThreat(abuse, vt, isTor);
    verdict := NewVerdict(tier, Some(score));
  }

  // ----- bounds -----

  lemma BaseBetween(a: real, v: real)
    ensures var b := Base(Some(a), Some(v)).value; (a <= b <= v || v <= b <= a)
  {
  }

  predicate Counts(v: Votes) {
    Or0(v.malicious) >= 0 && Or0(v.harmless) >= 0 && Or0(v.suspicious) >= 0 && Or0(v.undetected) >= 0
  }

  lemma ShareInRange(m: int, total: int)
    requires 0 <= m <= total && total > 0
    ensures 0.0 <= m as real / total as real * 100.0 <= 100.0
  {
    var q := m as real / total as real;
    assert q * total as real == m as real;
  }

  /** With counts that are not negative the detection ratio is a percentage. */
  lemma VTInRange(vt: Option<Votes>)
    requires vt.Some? ==> Counts(vt.value)
    ensures VTComponent(vt).Some? ==> 0.0 <= VTComponent(vt).value <= 100.0
  {
    if VTComponent(vt).Some? { ShareInRange(vt.value.malicious.value, Total(vt.value)); }
  }

  // ----- monotonicity -----

  lemma RoundedMonotone(x: real, y: real)
    requires x <= y
    ensures Rounded(Clamped(x)) <= Rounded(Clamped(y))
    ensures TierOf(Rounded(Clamped(x))).Rank() <= TierOf(Rounded(Clamped(y))).Rank()
  {
  }

  /** Score and tier together: the first is no stronger than the second. */
  predicate NoStronger(score: int, other: int) {
    score <= other && TierOf(score).Rank() <= TierOf(other).Rank()
  }

  lemma AbuseScoreMonotone(abuse: Abuse, more: int, vt: Option<Votes>, isTor: bool)
    requires abuse.score.Some? && abuse.score.value <= more
    ensures NoStronger(ScoreOf(Some(abuse), vt, isTor), ScoreOf(Some(abuse.(score := Some(more))), vt, isTor))
  {
    var other := abuse.(score := Some(more));
    RoundedMonotone(Base(AbuseComponent(Some(abuse)), VTComponent(vt)).value + Modifiers(Some(abuse), isTor),
                    Base(AbuseComponent(Some(other)), VTComponent(vt)).value + Modifiers(Some(other), isTor));
  }

  lemma ReportsMonotone(abuse: Abuse, more: int, vt: Option<Votes>, isTor: bool)
    requires Or0(abuse.reports) <= more
    ensures NoStronger(ScoreOf(Some(abuse), vt, isTor), ScoreOf(Some(abuse.(reports := Some(more))), vt, isTor))
  {
    var base := Base(AbuseComponent(Some(abuse)), VTComponent(vt));
    if base.Some? {
      RoundedMonotone(base.value + Modifiers(Some(abuse), isTor),
                      base.value + Modifiers(Some(abuse.(reports := Some(more))), isTor));
    }
  }

  lemma TorMonotone(abuse: Option<Abuse>, vt: Option<Votes>)
    ensures NoStronger(ScoreOf(abuse, vt, false), ScoreOf(abuse, vt, true))
  {
    var base := Base(AbuseComponent(abuse), VTComponent(vt));
    if base.Some? { RoundedMonotone(base.value + Modifiers(abuse, false), base.value + Modifiers(abuse, true)); }
  }

  lemma ShareMonotone(m: int, n: int, rest: int)
    requires 0 <= m <= n && rest >= 0 && m + rest > 0
    ensures m as real / (m + rest) as real <= n as real / (n + rest) as real
  {
    var p, q := m as real / (m + rest) as real, n as real / (n + rest) as real;
    assert p * (m + rest) as real == m as real;
    assert q * (n + rest) as real == n as real;
    CrossMultiplied(m as real, n as real, rest as real, p, q);
  }

  lemma Cancel(p: real, q: real, d: real)
    requires d > 0.0 && p * d <= q * d
    ensures p <= q
  {
  }

  lemma CrossMultiplied(m: real, n: real, rest: real, p: real, q: real)
    requires 0.0 <= m <= n && rest >= 0.0 && m + rest > 0.0
    requires p * (m + rest) == m && q * (n + rest) == n
    ensures p <= q
  {
    assert q <= 1.0 by { Cancel(q, 1.0, n + rest); }
    assert q * (m + rest) == m + (n - m) * (1.0 - q);
    assert (n - m) * (1.0 - q) >= 0.0;
    Cancel(p, q, m + rest);
  }

  /** More malicious votes never lower the VirusTotal component; the first votes of all put it at 100. */
  lemma ShareGrows(v: Votes, more: int)
    requires Counts(v) && v.malicious.Some? && v.malicious.value <= more
    ensures var x, y := VTComponent(Some(v)), VTComponent(Some(v.(malicious := Some(more))));
            if x.Some? then y.Some? && x.value <= y.value else y.Some? ==> y.value == 100.0
  {
    var rest := Total(v) - v.malicious.value;
    if v.malicious.value + rest > 0 {
      ShareMonotone(v.malicious.value, more, rest);
    } else if more > 0 {
      Whole(more as real);
    }
  }

  lemma Whole(n: real)
    requires n > 0.0
    ensures n / n * 100.0 == 100.0
  {
    assert n / n == 1.0;
  }

  /** More malicious votes never lower the score, not even where the first vote brings VirusTotal into it. */
  lemma MaliciousMonotone(abuse: Option<Abuse>, v: Votes, more: int, isTor: bool)
    requires Counts(v) && v.malicious.Some? && v.malicious.value <= more
    ensures NoStronger(ScoreOf(abuse, Some(v), isTor), ScoreOf(abuse, Some(v.(malicious := Some(more))), isTor))
  {
    var w := v.(malicious := Some(more));
    var a, m := AbuseComponent(abuse), Modifiers(abuse, isTor);
    var x, y := VTComponent(Some(v)), VTComponent(Some(w));
    ShareGrows(v, more);
    if x.Some? {
      RoundedMonotone(Base(a, x).value + m, Base(a, y).value + m);
    } else if y.Some? {
      FirstVotes(a, m);
    }
  }

  /** Adding a component of 100 to a clamped score. */
  lemma FirstVotes(a: Option<real>, m: real)
    requires m >= 0.0
    ensures Base(a, None).Some? ==>
              NoStronger(Rounded(Clamped(Base(a, None).value + m)), Rounded(Clamped(Base(a, Some(100.0)).value + m)))
    ensures NoStronger(0, Rounded(Clamped(Base(a, Some(100.0)).value + m)))
  {
    if a.Some? {
      if a.value <= 100.0 {
        RoundedMonotone(a.value + m, 0.6 * a.value + 40.0 + m);
      } else {
        RoundedMonotone(100.0, 0.6 * a.value + 40.0 + m);
      }
    }
  }
}
