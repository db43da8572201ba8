/**
 * The seven special-cause detectors of the rule panel. Each scans the ordered
 * series against a centre line `mean` and a spread `stdDev`, stops at the first
 * hit and answers only "violated" or not.
 */
module ControlRules {
  import opened Series
  import opened Windows
  import Normality

  /** Default run length of the one-side rule. */
  const RunLength: nat := 8
  /** Default length of the trend rule. */
  const TrendLength: nat := 6
  /** The 2-of-3 rule: windows of 3 points, at least 2 in the band. */
  const TwoOfThreeWindow: nat := 3
  const TwoOfThreeNeed: nat := 2
  /** The 4-of-5 rule: windows of 5 points, at least 4 in the band. */
  const FourOfFiveWindow: nat := 5
  const FourOfFiveNeed: nat := 4
  /** Length of an alternating zig-zag that signals a violation. */
  const AlternatingLength: nat := 14
  /** Length of a run inside 1 sigma that signals too little variation. */
  const LowVariationLength: nat := 15

  // The point classes the rules count.

  function AboveMean(mean: real): Point -> bool
  {
    (p: Point) => p.value > mean
  }

  function BelowMean(mean: real): Point -> bool
  {
    (p: Point) => p.value < mean
  }

  /** 2 sigma < |value - mean| < 3 sigma, both bounds strict. */
  function BetweenTwoAndThreeSigma(mean: real, stdDev: real): Point -> bool
  {
    p => 2.0 * stdDev < Deviation(p, mean) < 3.0 * stdDev
  }

  /** 1 sigma < |value - mean| < 3 sigma, both bounds strict. */
  function BetweenOneAndThreeSigma(mean: real, stdDev: real): Point -> bool
  {
    p => stdDev < Deviation(p, mean) < 3.0 * stdDev
  }

  /**
   * Run rule: `runLength` consecutive points strictly on one side of the mean.
   * Each counter is the length of the current streak on its side; a point on
   * the other side or exactly on the mean resets it.
   */
  method PointsOnOneSide(data: seq<Point>, mean: real, runLength: nat) returns (violated: bool)
    requires runLength >= 1
    ensures violated <==> HasStreak(data, runLength, AboveMean(mean)) || HasStreak(data, runLength, BelowMean(mean))
  {
    var countAbove, countBelow := 0, 0;
    for i := 0 to |data|
      invariant countAbove <= i && countBelow <= i
      invariant countAbove < runLength && countBelow < runLength
      invariant forall j :: i - countAbove <= j < i ==> data[j].value > mean
      invariant countAbove < i ==> data[i - 1 - countAbove].value <= mean
      invariant forall j :: i - countBelow <= j < i ==> data[j].value < mean
      invariant countBelow < i ==> data[i - 1 - countBelow].value >= mean
      invariant forall e :: 0 <= e && e + runLength <= i ==>
        !StreakAt(data, e, runLength, AboveMean(mean)) && !StreakAt(data, e, runLength, BelowMean(mean))
    {
      if data[i].value > mean {
        countAbove := countAbove + 1;
        countBelow := 0;
      } else if data[i].value < mean {
        countBelow := countBelow + 1;
        countAbove := 0;
      } else {
        countAbove, countBelow := 0, 0;
      }
      if countAbove >= runLength || countBelow >= runLength {
        assert StreakAt(data, i + 1 - runLength, runLength, AboveMean(mean))
            || StreakAt(data, i + 1 - runLength, runLength, BelowMean(mean));
        return true;
      }
      ghost var e := i + 1 - runLength;
      if 0 <= e {
        assert !StreakAt(data, e, runLength, AboveMean(mean)) by {
          if countAbove == 0 {
            assert !AboveMean(mean)(data[i]);
          } else {
            assert !AboveMean(mean)(data[i - countAbove]);
          }
        }
        assert !StreakAt(data, e, runLength, BelowMean(mean)) by {
          if countBelow == 0 {
            assert !BelowMean(mean)(data[i]);
          } else {
            assert !BelowMean(mean)(data[i - countBelow]);
          }
        }
      }
    }
    return false;
  }

  /**
   * Trend rule: `trendLength` consecutive values strictly rising or strictly
   * falling. Both counters start at 1 (one point is a trend of length 1); equal
   * neighbours reset both.
   */
  method PointsTrending(data: seq<Point>, trendLength: nat) returns (violated: bool)
    requires trendLength >= 2
    ensures violated <==> HasTrend(data, trendLength)
  {
    if |data| == 0 {
      return false;
    }
    var incCount, decCount := 1, 1;
    for i := 1 to |data|
      invariant 1 <= incCount <= i && 1 <= decCount <= i
      invariant incCount < trendLength && decCount < trendLength
      invariant forall j :: i - incCount < j < i ==> Rises(data, j)
      invariant incCount < i ==> !Rises(data, i - incCount)
      invariant forall j :: i - decCount < j < i ==> Falls(data, j)
      invariant decCount < i ==> !Falls(data, i - decCount)
      invariant forall e :: 0 <= e && e + trendLength <= i ==>
        !RisingAt(data, e, trendLength) && !FallingAt(data, e, trendLength)
    {
      if data[i].value > data[i - 1].value {
        incCount := incCount + 1;
        decCount := 1;
      } else if data[i].value < data[i - 1].value {
        decCount := decCount + 1;
        incCount := 1;
      } else {
        incCount := 1;
        decCount := 1;
      }
      if incCount >= trendLength || decCount >= trendLength {
        assert RisingAt(data, i + 1 - trendLength, trendLength) || FallingAt(data, i + 1 - trendLength, trendLength);
        return true;
      }
      ghost var e := i + 1 - trendLength;
      if 0 <= e {
        assert !RisingAt(data, e, trendLength) by {
          if incCount == 1 {
            assert !Rises(data, i);
          } else {
            assert !Rises(data, i + 1 - incCount);
          }
        }
        assert !FallingAt(data, e, trendLength) by {
          if decCount == 1 {
            assert !Falls(data, i);
          } else {
            assert !Falls(data, i + 1 - decCount);
          }
        }
      }
    }
    return false;
  }

  /**
   * Slides a window of `width` points one position at a time and reports whether
   * some window has at least `need` points in `band`. This is the loop shared by
   * the 2-of-3 and the 4-of-5 rules.
   */
  method ScanWindows(data: seq<Point>, width: nat, need: nat, band: Point -> bool) returns (violated: bool)
    ensures violated <==> HasWindow(data, width, AtLeast(need, band))
  {
    var i := 0;
    while i + width <= |data|
      invariant 0 <= i
      invariant forall e :: 0 <= e < i ==> !WindowAt(data, e, width, AtLeast(need, band))
      decreases |data| - i
    {
      var window := data[i..i + width];
      if CountIn(window, band) >= need {
        assert WindowAt(data, i, width, AtLeast(need, band));
        return true;
      }
      i := i + 1;
    }
    return false;
  }

  /** 2-of-3 rule: 2 of some 3 consecutive points lie strictly between 2 and 3 sigma. */
  method TwoOfThreeBeyondTwoSigma(data: seq<Point>, mean: real, stdDev: real) returns (violated: bool)
    ensures violated <==> HasWindow(data, TwoOfThreeWindow, AtLeast(TwoOfThreeNeed, BetweenTwoAndThreeSigma(mean, stdDev)))
  {
    if |data| < TwoOfThreeWindow {
      return false;
    }
    violated := ScanWindows(data, TwoOfThreeWindow, TwoOfThreeNeed, BetweenTwoAndThreeSigma(mean, stdDev));
  }

  /** 4-of-5 rule: 4 of some 5 consecutive points lie strictly between 1 and 3 sigma. */
  method FourOfFiveBeyondOneSigma(data: seq<Point>, mean: real, stdDev: real) returns (violated: bool)
    ensures violated <==> HasWindow(data, FourOfFiveWindow, AtLeast(FourOfFiveNeed, BetweenOneAndThreeSigma(mean, stdDev)))
  {
    if |data| < FourOfFiveWindow {
      return false;
    }
    violated := ScanWindows(data, FourOfFiveWindow, FourOfFiveNeed, BetweenOneAndThreeSigma(mean, stdDev));
  }

  /**
   * The check made at position i of a segment: the differences into and out of
   * point i-1 are both non-zero and of opposite signs.
   */
  predicate TurnsAt(segment: seq<Point>, i: int)
    requires 2 <= i < |segment|
  {
    var prevDiff := segment[i - 1].value - segment[i - 2].value;
    var currDiff := segment[i].value - segment[i - 1].value;
    prevDiff != 0.0 && currDiff != 0.0 && !((prevDiff > 0.0 && currDiff > 0.0) || (prevDiff < 0.0 && currDiff < 0.0))
  }

  /** The segment zig-zags: it turns at every interior point. */
  predicate Alternates(segment: seq<Point>)
  {
    forall i :: 2 <= i < |segment| ==> TurnsAt(segment, i)
  }

  /**
   * Step k (from point k-1 to point k) goes the way a zig-zag whose first step
   * is upward (`upFirst`) or downward requires: odd steps one way, even steps
   * the other.
   */
  predicate StepFollows(segment: seq<Point>, k: int, upFirst: bool)
    requires 1 <= k < |segment|
  {
    if (k % 2 == 1) == upFirst then Rises(segment, k) else Falls(segment, k)
  }

  predicate ZigZags(segment: seq<Point>, upFirst: bool)
  {
    forall k :: 1 <= k < |segment| ==> StepFollows(segment, k, upFirst)
  }

  lemma {:induction false} AlternatingStep(segment: seq<Point>, k: int)
    requires |segment| >= 3 && Alternates(segment)
    requires 1 <= k < |segment|
    ensures StepFollows(segment, k, Rises(segment, 1))
  {
    if k == 1 {
      assert TurnsAt(segment, 2);
    } else {
      AlternatingStep(segment, k - 1);
      assert TurnsAt(segment, k);
    }
  }

  /**
   * A segment of three or more points alternates exactly when it is a zig-zag:
   * its steps go up and down by turns, starting either way.
   */
  lemma AlternatesIffZigZag(segment: seq<Point>)
    requires |segment| >= 3
    ensures Alternates(segment) <==> ZigZags(segment, true) || ZigZags(segment, false)
  {
    if Alternates(segment) {
      forall k | 1 <= k < |segment|
        ensures StepFollows(segment, k, Rises(segment, 1))
      {
        AlternatingStep(segment, k);
      }
      assert ZigZags(segment, Rises(segment, 1));
    }
    if ZigZags(segment, true) {
      ZigZagAlternates(segment, true);
    }
    if ZigZags(segment, false) {
      ZigZagAlternates(segment, false);
    }
  }

  lemma ZigZagAlternates(segment: seq<Point>, upFirst: bool)
    requires ZigZags(segment, upFirst)
    ensures Alternates(segment)
  {
    forall i | 2 <= i < |segment|
      ensures TurnsAt(segment, i)
    {
      assert StepFollows(segment, i - 1, upFirst);
      assert StepFollows(segment, i, upFirst);
      assert ((i - 1) % 2 == 1) != (i % 2 == 1);
    }
  }

  /** The inner helper of the alternating rule: checks one window, stopping at the first failure. */
  method IsAlternating(segment: seq<Point>) returns (alternating: bool)
    ensures alternating <==> Alternates(segment)
  {
    var i := 2;
    while i < |segment|
      invariant 2 <= i
      invariant forall j :: 2 <= j < i && j < |segment| ==> TurnsAt(segment, j)
    {
      var prevDiff := segment[i - 1].value - segment[i - 2].value;
      var currDiff := segment[i].value - segment[i - 1].value;
      if prevDiff == 0.0 || currDiff == 0.0 {
        assert !TurnsAt(segment, i);
        return false;
      }
      if (prevDiff > 0.0 && currDiff > 0.0) || (prevDiff < 0.0 && currDiff < 0.0) {
        assert !TurnsAt(segment, i);
        return false;
      }
      i := i + 1;
    }
    return true;
  }

  /** Alternating rule: some 14 consecutive points alternate up and down. */
  method PointsAlternating(data: seq<Point>) returns (violated: bool)
    ensures violated <==> HasWindow(data, AlternatingLength, Alternates)
  {
    if |data| < AlternatingLength {
      return false;
    }
    for i := 0 to |data| - AlternatingLength + 1
      invariant forall e :: 0 <= e < i ==> !WindowAt(data, e, AlternatingLength, Alternates)
    {
      var window := data[i..i + AlternatingLength];
      var alternating := IsAlternating(window);
      if alternating {
        assert WindowAt(data, i, AlternatingLength, Alternates);
        return true;
      }
    }
    return false;
  }

  /**
   * Low-variation rule: 15 consecutive points within 1 sigma of the mean. The
   * counter is the length of the current streak inside the band.
   */
  method PointsWithinOneSigma(data: seq<Point>, mean: real, stdDev: real) returns (violated: bool)
    ensures violated <==> HasStreak(data, LowVariationLength, WithinOneSigma(mean, stdDev))
  {
    if |data| < LowVariationLength {
      return false;
    }
    var count := 0;
    for i := 0 to |data|
      invariant count <= i && count < LowVariationLength
      invariant forall j :: i - count <= j < i ==> Deviation(data[j], mean) <= stdDev
      invariant count < i ==> Deviation(data[i - 1 - count], mean) > stdDev
      invariant forall e :: 0 <= e && e + LowVariationLength <= i ==>
        !StreakAt(data, e, LowVariationLength, WithinOneSigma(mean, stdDev))
    {
      var deviation := Abs(data[i].value - mean);
      if deviation <= stdDev {
        count := count + 1;
      } else {
        count := 0;
      }
      if count >= LowVariationLength {
        assert StreakAt(data, i + 1 - LowVariationLength, LowVariationLength, WithinOneSigma(mean, stdDev));
        return true;
      }
      ghost var e := i + 1 - LowVariationLength;
      if 0 <= e {
        assert !StreakAt(data, e, LowVariationLength, WithinOneSigma(mean, stdDev)) by {
          if count == 0 {
            assert !WithinOneSigma(mean, stdDev)(data[i]);
          } else {
            assert !WithinOneSigma(mean, stdDev)(data[i - count]);
          }
        }
      }
    }
    return false;
  }

  /** The verdicts of the rule panel, in its canonical order. */
  datatype RuleReport = RuleReport(
    onOneSide: bool,
    trending: bool,
    normality: bool,
    twoOfThree: bool,
    fourOfFive: bool,
    alternating: bool,
    withinOneSigma: bool)

  /** Evaluates all seven rules with the default run and trend lengths. */
  method EvaluateRules(data: seq<Point>, mean: real, stdDev: real) returns (report: RuleReport)
    ensures report.onOneSide <==> HasStreak(data, RunLength, AboveMean(mean)) || HasStreak(data, RunLength, BelowMean(mean))
    ensures report.trending <==> HasTrend(data, TrendLength)
    ensures report.normality == Normality.NormalityViolated(data)
    ensures report.twoOfThree <==> HasWindow(data, TwoOfThreeWindow, AtLeast(TwoOfThreeNeed, BetweenTwoAndThreeSigma(mean, stdDev)))
    ensures report.fourOfFive <==> HasWindow(data, FourOfFiveWindow, AtLeast(FourOfFiveNeed, BetweenOneAndThreeSigma(mean, stdDev)))
    ensures report.alternating <==> HasWindow(data, AlternatingLength, Alternates)
    ensures report.withinOneSigma <==> HasStreak(data, LowVariationLength, WithinOneSigma(mean, stdDev))
  {
    var onOneSide := PointsOnOneSide(data, mean, RunLength);
    var trending := PointsTrending(data, TrendLength);
    var normality := Normality.NormalityViolated(data);
    var twoOfThree := TwoOfThreeBeyondTwoSigma(data, mean, stdDev);
    var fourOfFive := FourOfFiveBeyondOneSigma(data, mean, stdDev);
    var alternating := PointsAlternating(data);
    var withinOneSigma := PointsWithinOneSigma(data, mean, stdDev);
    report := RuleReport(onOneSide, trending, normality, twoOfThree, fourOfFive, alternating, withinOneSigma);
  }
}
