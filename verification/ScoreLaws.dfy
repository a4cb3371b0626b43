/**
 What the composite IP score is, in whole numbers: the weights, the modifiers, the cut and the rounding. For
 votes m out of t the score is compared in units of 1 / (10 t).
*/
module ScoreLaws {
  import opened Options
  import opened Verdicts
  import opened Score

  /** r is x / n, rounded half up. */
  predicate Nearest(r: int, x: int, n: int) {
    2 * x - n < 2 * (n * r) <= 2 * x + n
  }

  function Cut(x: int, top: int): int {
    if x > top then top else if x < 0 then 0 else x
  }

  /** What reports and Tor add, in points. */
  function Bonus(reports: Option<int>, isTor: bool): int {
    (if reports.None? || reports.value < 100 then 0 else if reports.value < 1000 then 5 else 15)
    + if isTor then 10 else 0
  }

  /** The votes of all four categories; a missing count is none. */
  function AllVotes(v: Votes): int {
    (if v.malicious.Some? then v.malicious.value else 0) + (if v.harmless.Some? then v.harmless.value else 0)
    + (if v.suspicious.Some? then v.suspicious.value else 0) + if v.undetected.Some? then v.undetected.value else 0
  }

  /** VirusTotal has something to say. */
  predicate Counted(vt: Option<Votes>) {
    vt.Some? && vt.value.malicious.Some? && AllVotes(vt.value) > 0
  }

  lemma Times(x: real, y: real, n: real)
    requires n > 0.0 && x <= y
    ensures x * n <= y * n && (x < y ==> x * n < y * n)
  {
  }

  lemma Plus(x: real, y: real, n: real)
    ensures (x + y) * n == x * n + y * n
  {
  }

  lemma IntTimes(n: int, r: int)
    ensures r as real * n as real == (n * r) as real
  {
  }

  lemma AtLeast(score: real, r: real, n: real)
    requires n > 0.0 && r <= score + 0.5
    ensures r * n <= score * n + 0.5 * n
  {
    Times(r, score + 0.5, n);
    Plus(score, 0.5, n);
  }

  lemma Below(score: real, r: real, n: real)
    requires n > 0.0 && score + 0.5 < r + 1.0
    ensures score * n + 0.5 * n < r * n + n
  {
    Times(score + 0.5, r + 1.0, n);
    Plus(score, 0.5, n);
    Plus(r, 1.0, n);
  }

  /** rn and sn are what r and the score are when multiplied by n. */
  lemma Bracket(score: real, r: real, n: real, rn: real, sn: real)
    requires n > 0.0 && r <= score + 0.5 < r + 1.0 && rn == r * n && sn == score * n
    ensures rn <= sn + 0.5 * n < rn + n
  {
    calc {
      rn;
    ==
      r * n;
    <= { AtLeast(score, r, n); }
      score * n + 0.5 * n;
    ==
      sn + 0.5 * n;
    }
    calc {
      sn + 0.5 * n;
    ==
      score * n + 0.5 * n;
    < { Below(score, r, n); }
      r * n + n;
    ==
      rn + n;
    }
  }

  lemma Halves(x: int, y: int, n: int)
    requires y as real <= x as real + 0.5 * n as real < y as real + n as real
    ensures 2 * x - n < 2 * y <= 2 * x + n
  {
  }

  /** A score in range: r <= score + 1 / 2 < r + 1, times n. */
  lemma RoundsInside(score: real, r: int, x: int, y: int, n: int)
    requires n > 0 && score * n as real == x as real && r as real <= score + 0.5 < r as real + 1.0
    requires y as real == r as real * n as real
    ensures 2 * x - n < 2 * y <= 2 * x + n
  {
    Bracket(score, r as real, n as real, y as real, x as real);
    Halves(x, y, n);
  }

  lemma Above(score: real, x: int, n: int)
    requires n > 0 && score * n as real == x as real && score > 100.0
    ensures x > 100 * n
  {
    Times(100.0, score, n as real);
    assert (100 * n) as real == 100.0 * n as real;
  }

  lemma Negative(score: real, x: int, n: int)
    requires n > 0 && score * n as real == x as real && score < 0.0
    ensures x < 0
  {
    Times(score, 0.0, n as real);
  }

  lemma Inside(score: real, x: int, n: int)
    requires n > 0 && score * n as real == x as real && 0.0 <= score <= 100.0
    ensures 0 <= x <= 100 * n
  {
    Times(0.0, score, n as real);
    Times(score, 100.0, n as real);
    assert (100 * n) as real == 100.0 * n as real;
  }

  lemma Ends(n: int)
    requires n > 0
    ensures Nearest(100, 100 * n, n) && Nearest(0, 0, n)
    ensures Rounded(100.0) == 100 && Rounded(0.0) == 0
  {
  }

  /** Whatever is x / n is cut and rounded as the score is. */
  lemma RoundsTo(score: real, x: int, n: int)
    requires n > 0 && score * n as real == x as real
    ensures Nearest(Rounded(Clamped(score)), Cut(x, 100 * n), n)
  {
    Ends(n);
    if score > 100.0 {
      Above(score, x, n);
    } else if score < 0.0 {
      Negative(score, x, n);
    } else {
      Inside(score, x, n);
      IntTimes(n, Rounded(score));
      RoundsInside(score, Rounded(score), x, n * Rounded(score), n);
    }
  }

  lemma Share(m: int, t: int)
    requires t > 0
    ensures m as real / t as real * 100.0 * t as real == 100.0 * m as real
  {
    var q := m as real / t as real;
    assert q * t as real == m as real;
    assert q * 100.0 * t as real == 100.0 * (q * t as real);
  }

  lemma Weights(a: int, p: real, m: int, t: int, bonus: int)
    requires t > 0 && p * t as real == 100.0 * m as real
    ensures (0.6 * a as real + 0.4 * p + bonus as real) * (10 * t) as real
         == (6 * (a * t) + 400 * m + 10 * (t * bonus)) as real
  {
    var n := t as real;
    IntTimes(t, a);
    IntTimes(t, bonus);
    Plus(0.6 * a as real + 0.4 * p, bonus as real, n);
    Plus(0.6 * a as real, 0.4 * p, n);
    Tenths(a as real, 6.0, n);
    Tenths(p, 4.0, n);
    Tenfold(0.6 * a as real + 0.4 * p + bonus as real, n);
    assert (10 * t) as real == 10.0 * n;
  }

  lemma Tenths(x: real, k: real, n: real)
    ensures k / 10.0 * x * n == k * (x * n) / 10.0
  {
  }

  lemma Tenfold(x: real, n: real)
    ensures x * (10.0 * n) == 10.0 * (x * n)
  {
  }

  /** With both sources: six tenths of the abuse score, four tenths of the share of malicious votes, the bonus. */
  lemma BothSources(a: int, reports: Option<int>, v: Votes, isTor: bool)
    requires Counted(Some(v))
    ensures var t, m := AllVotes(v), v.malicious.value;
            Nearest(ScoreOf(Some(Abuse(Some(a), reports)), Some(v), isTor),
                    Cut(6 * (a * t) + 400 * m + 10 * (t * Bonus(reports, isTor)), 1000 * t), 10 * t)
  {
    var t, m, b := AllVotes(v), v.malicious.value, Bonus(reports, isTor);
    var p := VTComponent(Some(v)).value;
    assert p * t as real == 100.0 * m as real by { Share(m, t); }
    ScoreFrom(Some(Abuse(Some(a), reports)), Some(v), isTor, a as real, p);
    RoundsWeighted(a, p, m, t, b);
  }

  lemma RoundsWeighted(a: int, p: real, m: int, t: int, b: int)
    requires t > 0 && p * t as real == 100.0 * m as real
    ensures Nearest(Rounded(Clamped(0.6 * a as real + 0.4 * p + b as real)),
                    Cut(6 * (a * t) + 400 * m + 10 * (t * b), 1000 * t), 10 * t)
  {
    Weights(a, p, m, t, b);
    RoundsTo(0.6 * a as real + 0.4 * p + b as real, 6 * (a * t) + 400 * m + 10 * (t * b), 10 * t);
  }

  lemma ScoreFrom(abuse: Option<Abuse>, vt: Option<Votes>, isTor: bool, a: real, p: real)
    requires AbuseComponent(abuse) == Some(a) && VTComponent(vt) == Some(p)
    ensures ScoreOf(abuse, vt, isTor)
         == Rounded(Clamped(0.6 * a + 0.4 * p + Bonus(abuse.value.reports, isTor) as real))
  {
  }

  /** Without VirusTotal: the abuse score and the bonus. */
  lemma AbuseOnly(a: int, reports: Option<int>, vt: Option<Votes>, isTor: bool)
    requires !Counted(vt)
    ensures ScoreOf(Some(Abuse(Some(a), reports)), vt, isTor) == Cut(a + Bonus(reports, isTor), 100)
  {
    var abuse := Some(Abuse(Some(a), reports));
    assert VTComponent(vt) == None;
    assert Modifiers(abuse, isTor) == Bonus(reports, isTor) as real;
    RoundsTo(a as real + Bonus(reports, isTor) as real, a + Bonus(reports, isTor), 1);
  }

  /** Without AbuseIPDB: the share of malicious votes in percent and the bonus for Tor; reports do not count. */
  lemma VotesOnly(abuse: Option<Abuse>, v: Votes, isTor: bool)
    requires Counted(Some(v)) && (abuse.Some? ==> abuse.value.score.None?)
    ensures var t, m := AllVotes(v), v.malicious.value;
            Nearest(ScoreOf(abuse, Some(v), isTor), Cut(100 * m + t * (if isTor then 10 else 0), 100 * t), t)
  {
    var t, m, b := AllVotes(v), v.malicious.value, if isTor then 10 else 0;
    var p := m as real / t as real * 100.0;
    assert VTComponent(Some(v)) == Some(p);
    Share(m, t);
    assert (p + b as real) * t as real == p * t as real + b as real * t as real;
    assert b as real * t as real == (t * b) as real;
    RoundsTo(p + b as real, 100 * m + t * b, t);
  }

  lemma NoSources(abuse: Option<Abuse>, vt: Option<Votes>, isTor: bool)
    requires !Counted(vt) && (abuse.Some? ==> abuse.value.score.None?)
    ensures ScoreOf(abuse, vt, isTor) == 0
  {
  }

  lemma Divided(r: int, x: int, t: int)
    requires t > 0 && Nearest(r, x * t, 10 * t)
    ensures 2 * x - 10 < 20 * r <= 2 * x + 10
  {
    if 20 * r <= 2 * x - 10 { TimesInt(20 * r, 2 * x - 10, t); }
    if 20 * r > 2 * x + 10 { TimesInt(2 * x + 11, 20 * r, t); }
    assert 2 * (10 * t * r) == 20 * r * t && (2 * x - 10) * t == 2 * (x * t) - 10 * t;
    assert (2 * x + 11) * t == 2 * (x * t) + 10 * t + t;
  }

  lemma TimesInt(x: int, y: int, n: int)
    requires n > 0 && x <= y
    ensures x * n <= y * n
  {
  }

  lemma SixTenths(a: int, t: int, r: int)
    requires 0 <= a <= 100 && t > 0 && Nearest(r, Cut(6 * (a * t), 1000 * t), 10 * t)
    ensures 12 * a - 10 < 20 * r <= 12 * a + 10
  {
    assert 6 * (a * t) == (6 * a) * t;
    TimesInt(0, 6 * a, t);
    TimesInt(6 * a, 1000, t);
    Divided(r, 6 * a, t);
  }

  /** Against any number of votes none of which is malicious six tenths of the abuse score remain: of 100, 60. */
  lemma OnlyCleanVotes(a: int, v: Votes)
    requires 0 <= a <= 100 && Counted(Some(v)) && v.malicious == Some(0)
    ensures var r := ScoreOf(Some(Abuse(Some(a), None)), Some(v), false);
            6 * a - 5 < 10 * r <= 6 * a + 5 && (a == 100 ==> r == 60)
  {
    BothSources(a, None, v, false);
    SixTenths(a, AllVotes(v), ScoreOf(Some(Abuse(Some(a), None)), Some(v), false));
  }
}
