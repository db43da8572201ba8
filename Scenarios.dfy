/**
 * Concrete series and the verdicts the rules give on them, with mean 13 and
 * standard deviation 4 (the values of the single-chart demo page).
 */
module Scenarios {
  import opened Series
  import opened Windows
  import opened ControlRules
  import opened ShewhartChart
  import Normality

  const DemoMean: real := 13.0
  const DemoStdDev: real := 4.0

  /** A series of unlabelled samples with the given values. */
  function Unlabelled(values: seq<real>): (s: seq<Point>)
    ensures |s| == |values|
    ensures forall i :: 0 <= i < |s| ==> s[i].value == values[i]
  {
    seq(|values|, i requires 0 <= i < |values| => Point("", values[i]))
  }

  /** The first six samples of the demo page. */
  function DemoData(): seq<Point>
  {
    [Point("Sample A", 10.0), Point("Sample B", 12.0), Point("Sample C", 8.0),
     Point("Sample D", 14.0), Point("Sample E", 28.0), Point("Sample F", 9.0)]
  }

  /** The value 28 lies 15 from the mean, beyond the 12 of three sigma: red and out of range. */
  lemma OutlierIsRedAndOutOfRange()
    ensures GetColor(28.0, DemoMean, DemoStdDev) == Red
    ensures StatusOf(28.0, DemoMean, DemoStdDev) == OutOfRange
    ensures ControlLimits(DemoMean, DemoStdDev) == Limits(1.0, 25.0)
  {
  }

  /** On the demo samples only the fifth is flagged; the others lie within 2 sigma. */
  lemma DemoTable()
    ensures ChartData(DemoData(), DemoMean, DemoStdDev)[4].color == Red
    ensures ChartData(DemoData(), DemoMean, DemoStdDev)[4].status == OutOfRange
    ensures forall i :: 0 <= i < 6 && i != 4 ==>
      Rank(ChartData(DemoData(), DemoMean, DemoStdDev)[i].color) <= Rank(Blue) &&
      ChartData(DemoData(), DemoMean, DemoStdDev)[i].status == Okay
  {
    var rows := ChartData(DemoData(), DemoMean, DemoStdDev);
    assert rows[2].color == Blue;
    assert rows[0].color == Orange && rows[1].color == Orange && rows[3].color == Orange && rows[5].color == Orange;
  }

  /** Eight equal values above the mean break the run rule but form no trend. */
  lemma EightAboveTheMean()
    ensures HasStreak(Unlabelled([20.0, 20.0, 20.0, 20.0, 20.0, 20.0, 20.0, 20.0]), RunLength, AboveMean(DemoMean))
    ensures !HasTrend(Unlabelled([20.0, 20.0, 20.0, 20.0, 20.0, 20.0, 20.0, 20.0]), TrendLength)
  {
    var s := Unlabelled([20.0, 20.0, 20.0, 20.0, 20.0, 20.0, 20.0, 20.0]);
    assert StreakAt(s, 0, RunLength, AboveMean(DemoMean));
    forall i
      ensures !RisingAt(s, i, TrendLength) && !FallingAt(s, i, TrendLength)
    {
      if 0 <= i && i + TrendLength <= |s| {
        assert !Rises(s, i + 1) && !Falls(s, i + 1);
      }
    }
  }

  /** Six strictly rising values break the trend rule, but six points are too few for a run. */
  lemma SixRising()
    ensures HasTrend(Unlabelled([1.0, 2.0, 3.0, 4.0, 5.0, 6.0]), TrendLength)
    ensures !HasStreak(Unlabelled([1.0, 2.0, 3.0, 4.0, 5.0, 6.0]), RunLength, AboveMean(DemoMean))
    ensures !HasStreak(Unlabelled([1.0, 2.0, 3.0, 4.0, 5.0, 6.0]), RunLength, BelowMean(DemoMean))
  {
    var s := Unlabelled([1.0, 2.0, 3.0, 4.0, 5.0, 6.0]);
    assert RisingAt(s, 0, TrendLength);
    ShortSeriesHasNoStreak(s, RunLength, AboveMean(DemoMean));
    ShortSeriesHasNoStreak(s, RunLength, BelowMean(DemoMean));
  }

  /** Fifteen values at the mean break the low-variation rule and pass the normality rule. */
  lemma FifteenAtTheMean()
    ensures HasStreak(Unlabelled(seq(15, _ => 13.0)), LowVariationLength, WithinOneSigma(DemoMean, DemoStdDev))
    ensures !Normality.NormalityViolated(Unlabelled(seq(15, _ => 13.0)))
  {
    var s := Unlabelled(seq(15, _ => 13.0));
    assert StreakAt(s, 0, LowVariationLength, WithinOneSigma(DemoMean, DemoStdDev));
    Normality.ConstantSeriesIsNormal(s, 13.0);
  }

  /** Fourteen values going 1, 2, 1, 2, ... break the alternating rule but form no trend. */
  lemma FourteenAlternating()
    ensures HasWindow(Unlabelled(seq(14, i => if i % 2 == 0 then 1.0 else 2.0)), AlternatingLength, Alternates)
    ensures !HasTrend(Unlabelled(seq(14, i => if i % 2 == 0 then 1.0 else 2.0)), TrendLength)
  {
    var s := Unlabelled(seq(14, i => if i % 2 == 0 then 1.0 else 2.0));
    assert s[0..14] == s;
    forall i | 2 <= i < 14
      ensures TurnsAt(s, i)
    {
      assert i % 2 == 0 || i % 2 == 1;
    }
    assert WindowAt(s, 0, AlternatingLength, Alternates);
    forall i
      ensures !RisingAt(s, i, TrendLength) && !FallingAt(s, i, TrendLength)
    {
      if 0 <= i && i + TrendLength <= |s| {
        assert Rises(s, i + 1) ==> !Rises(s, i + 2);
        assert Falls(s, i + 1) ==> !Falls(s, i + 2);
      }
    }
  }
}
