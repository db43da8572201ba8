/**
 * The normality rule: the series is tested against its OWN population mean and
 * standard deviation (not the chart's centre line), and is flagged when fewer
 * than 70% of its points lie within one of those standard deviations.
 */
module Normality {
  import opened Series

  /** The rule fires when the share of points within 1 sigma is below this percentage. */
  const NormalityThresholdPct: nat := 70

  /** The sum of f over the points (a `reduce` with initial value 0). */
  function SumOf(s: seq<Point>, f: Point -> real): real
  {
    if s == [] then 0.0 else f(s[0]) + SumOf(s[1..], f)
  }

  /** Population mean of the values. */
  function Mean(s: seq<Point>): real
    requires |s| > 0
  {
    SumOf(s, (p: Point) => p.value) / |s| as real
  }

  function SquaredDeviation(m: real): Point -> real
  {
    (p: Point) => (p.value - m) * (p.value - m)
  }

  /** Population variance of the values (divided by n, not n - 1). */
  function Variance(s: seq<Point>): real
    requires |s| > 0
  {
    SumOf(s, SquaredDeviation(Mean(s))) / |s| as real
  }

  /**
   * |value - m| <= sqrt(variance), stated without the square root: the two
   * agree because the root is non-negative (see WithinSigmaIffSquared).
   */
  function WithinSpread(m: real, variance: real): Point -> bool
  {
    (p: Point) => (p.value - m) * (p.value - m) <= variance
  }

  /** The number of points within one of the series' own standard deviations of its own mean. */
  function WithinCount(s: seq<Point>): nat
    requires |s| > 0
  {
    CountIn(s, WithinSpread(Mean(s), Variance(s)))
  }

  /** The rule's verdict: false on an empty series, otherwise "percentage within 1 sigma < 70". */
  function NormalityViolated(s: seq<Point>): bool
  {
    if |s| == 0 then false
    else (WithinCount(s) as real / |s| as real) * 100.0 < NormalityThresholdPct as real
  }

  lemma {:induction false} SumOfConcat(a: seq<Point>, b: seq<Point>, f: Point -> real)
    ensures SumOf(a + b, f) == SumOf(a, f) + SumOf(b, f)
  {
    if a == [] {
      assert a + b == b;
    } else {
      assert (a + b)[1..] == a[1..] + b;
      SumOfConcat(a[1..], b, f);
    }
  }

  lemma SumOfRemove(b: seq<Point>, j: nat, f: Point -> real)
    requires j < |b|
    ensures SumOf(b, f) == SumOf(b[..j] + b[j + 1..], f) + f(b[j])
  {
    assert b == b[..j] + b[j..];
    SumOfConcat(b[..j], b[j..], f);
    assert b[j..][1..] == b[j + 1..];
    assert SumOf(b[j..], f) == f(b[j]) + SumOf(b[j + 1..], f);
    SumOfConcat(b[..j], b[j + 1..], f);
  }

  /** Summing does not depend on the order of the points. */
  lemma {:induction false} SumOfPermutation(a: seq<Point>, b: seq<Point>, f: Point -> real)
    requires multiset(a) == multiset(b)
    ensures SumOf(a, f) == SumOf(b, f)
    decreases |a|
  {
    if a == [] {
      assert |b| == |multiset(b)| == 0;
    } else {
      var j := MatchFirst(a, b);
      SumOfPermutation(a[1..], b[..j] + b[j + 1..], f);
      SumOfRemove(b, j, f);
    }
  }

  /** The verdict depends only on which values occur, not on their order. */
  lemma NormalityOrderIndependent(s: seq<Point>, t: seq<Point>)
    requires multiset(s) == multiset(t)
    ensures NormalityViolated(s) == NormalityViolated(t)
  {
    assert |s| == |multiset(s)| == |multiset(t)| == |t|;
    if |s| > 0 {
      SumOfPermutation(s, t, (p: Point) => p.value);
      assert Mean(s) == Mean(t);
      SumOfPermutation(s, t, SquaredDeviation(Mean(s)));
      assert Variance(s) == Variance(t);
      CountInPermutation(s, t, WithinSpread(Mean(s), Variance(s)));
    }
  }

  lemma {:induction false} SumOfNonNegative(s: seq<Point>, f: Point -> real)
    requires forall p :: f(p) >= 0.0
    ensures SumOf(s, f) >= 0.0
  {
    if s != [] {
      SumOfNonNegative(s[1..], f);
    }
  }

  /** The population variance is never negative, so its square root exists. */
  lemma VarianceNonNegative(s: seq<Point>)
    requires |s| > 0
    ensures Variance(s) >= 0.0
  {
    var f := SquaredDeviation(Mean(s));
    forall p
      ensures f(p) >= 0.0
    {
      var d := p.value - Mean(s);
      assert f(p) == d * d;
    }
    SumOfNonNegative(s, f);
  }

  /** Squares of non-negative numbers keep their order. */
  lemma SquareMonotone(x: real, y: real)
    requires 0.0 <= x <= y
    ensures x * x <= y * y
  {
    var gap := y - x;
    assert y * y == x * x + gap * (x + y);
    assert gap * (x + y) >= 0.0;
  }

  lemma SquareStrictlyMonotone(x: real, y: real)
    requires 0.0 <= x < y
    ensures x * x < y * y
  {
    var gap := y - x;
    assert y * y == x * x + gap * (x + y);
    assert gap * (x + y) > 0.0;
  }

  lemma AbsSquared(d: real)
    ensures Abs(d) * Abs(d) == d * d
  {
    if d < 0.0 {
      assert Abs(d) == -d;
      assert (-d) * (-d) == d * d;
    }
  }

  /**
   * Comparing the squared deviation with the variance is the same as comparing
   * the deviation with the standard deviation, for the non-negative root.
   */
  lemma WithinSigmaIffSquared(d: real, sd: real, variance: real)
    requires sd >= 0.0 && sd * sd == variance
    ensures Abs(d) <= sd <==> d * d <= variance
  {
    AbsSquared(d);
    if Abs(d) <= sd {
      SquareMonotone(Abs(d), sd);
    } else {
      SquareStrictlyMonotone(sd, Abs(d));
    }
  }

  /** Whole-number form of "w out of n is below pct percent". */
  lemma PercentageBelow(w: nat, n: nat, pct: nat)
    requires n > 0
    ensures (w as real / n as real) * 100.0 < pct as real <==> 100 * w < pct * n
  {
    var x := w as real / n as real * 100.0;
    assert x * n as real == 100.0 * w as real;
    assert x < pct as real <==> x * n as real < pct as real * n as real;
    assert (100 * w) as real == 100.0 * w as real;
    assert (pct * n) as real == pct as real * n as real;
  }

  /** The percentage test in whole numbers: fewer than 70 in every 100 points lie within 1 sigma. */
  lemma NormalityAsCounts(s: seq<Point>)
    ensures NormalityViolated(s) <==> |s| > 0 && 100 * WithinCount(s) < NormalityThresholdPct * |s|
  {
    if |s| > 0 {
      PercentageBelow(WithinCount(s), |s|, NormalityThresholdPct);
    }
  }

  lemma {:induction false} SumOfConstant(s: seq<Point>, f: Point -> real, c: real)
    requires forall i :: 0 <= i < |s| ==> f(s[i]) == c
    ensures SumOf(s, f) == |s| as real * c
  {
    if s != [] {
      SumOfConstant(s[1..], f, c);
    }
  }

  lemma {:induction false} CountInEverything(s: seq<Point>, band: Point -> bool)
    requires forall i :: 0 <= i < |s| ==> band(s[i])
    ensures CountIn(s, band) == |s|
  {
    if s != [] {
      CountInEverything(s[1..], band);
    }
  }

  /**
   * A series whose values are all equal has that value as mean and no spread,
   * so every point lies within 1 sigma and the rule does not fire.
   */
  lemma ConstantSeriesIsNormal(s: seq<Point>, v: real)
    requires |s| > 0
    requires forall i :: 0 <= i < |s| ==> s[i].value == v
    ensures Mean(s) == v && Variance(s) == 0.0
    ensures WithinCount(s) == |s|
    ensures !NormalityViolated(s)
  {
    var n := |s| as real;
    SumOfConstant(s, (p: Point) => p.value, v);
    assert SumOf(s, (p: Point) => p.value) == n * v;
    assert Mean(s) == v;
    SumOfConstant(s, SquaredDeviation(v), 0.0);
    assert Variance(s) == 0.0 / n;
    CountInEverything(s, WithinSpread(v, 0.0));
    assert WithinCount(s) == |s|;
    assert 100 * |s| >= NormalityThresholdPct * |s|;
    NormalityAsCounts(s);
  }

  lemma {:induction false} CountInSameBands(s: seq<Point>, band: Point -> bool, other: Point -> bool)
    requires forall i :: 0 <= i < |s| ==> band(s[i]) == other(s[i])
    ensures CountIn(s, band) == CountIn(s, other)
  {
    if s != [] {
      CountInSameBands(s[1..], band, other);
    }
  }

  /**
   * For the non-negative square root `sd` of the variance, the count of points
   * with |value - mean| <= sd is the model's within-count, so the verdict is
   * the source's "percentage of points within 1 sigma below 70".
   */
  lemma {:induction false} WithinCountIsSigmaCount(s: seq<Point>, sd: real)
    requires |s| > 0 && sd >= 0.0 && sd * sd == Variance(s)
    ensures WithinCount(s) == CountIn(s, WithinOneSigma(Mean(s), sd))
    ensures NormalityViolated(s) <==>
      (CountIn(s, WithinOneSigma(Mean(s), sd)) as real / |s| as real) * 100.0 < NormalityThresholdPct as real
  {
    var m := Mean(s);
    forall i | 0 <= i < |s|
      ensures WithinSpread(m, Variance(s))(s[i]) == WithinOneSigma(m, sd)(s[i])
    {
      WithinSigmaIffSquared(s[i].value - m, sd, Variance(s));
    }
    CountInSameBands(s, WithinSpread(m, Variance(s)), WithinOneSigma(m, sd));
  }
}
