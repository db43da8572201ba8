/** The measurements a control chart is drawn from: an ordered series of labelled values. */
module Series {

  /** One sample of the process: its label and its measured value. */
  datatype Point = Point(name: string, value: real)

  function Abs(x: real): (r: real)
    ensures r >= 0.0
    ensures r == x || r == -x
  {
    if x < 0.0 then -x else x
  }

  /** Distance of a point from the centre line. */
  function Deviation(p: Point, mean: real): real
  {
    Abs(p.value - mean)
  }

  /** |value - mean| <= stdDev: the points within one standard deviation of the centre line. */
  function WithinOneSigma(mean: real, stdDev: real): Point -> bool
  {
    (p: Point) => Deviation(p, mean) <= stdDev
  }

  /** The number of points of `w` that lie in `band` (a `filter(...).length`). */
  function CountIn(w: seq<Point>, band: Point -> bool): (n: nat)
    ensures n <= |w|
  {
    if w == [] then 0 else (if band(w[0]) then 1 else 0) + CountIn(w[1..], band)
  }

  lemma {:induction false} CountInConcat(a: seq<Point>, b: seq<Point>, band: Point -> bool)
    ensures CountIn(a + b, band) == CountIn(a, band) + CountIn(b, band)
  {
    if a == [] {
      assert a + b == b;
    } else {
      assert (a + b)[1..] == a[1..] + b;
      CountInConcat(a[1..], b, band);
    }
  }

  /** Taking one point out of a series lowers the count by that point's share. */
  lemma CountInRemove(b: seq<Point>, j: nat, band: Point -> bool)
    requires j < |b|
    ensures CountIn(b, band) == CountIn(b[..j] + b[j + 1..], band) + (if band(b[j]) then 1 else 0)
  {
    assert b == b[..j] + b[j..];
    CountInConcat(b[..j], b[j..], band);
    assert b[j..][1..] == b[j + 1..];
    assert CountIn(b[j..], band) == (if band(b[j]) then 1 else 0) + CountIn(b[j + 1..], band);
    CountInConcat(b[..j], b[j + 1..], band);
  }

  /** Removing an occurrence of x from a series removes one x from its multiset. */
  lemma MultisetRemove(b: seq<Point>, j: nat)
    requires j < |b|
    ensures multiset(b[..j] + b[j + 1..]) == multiset(b) - multiset{b[j]}
  {
    assert b == b[..j] + [b[j]] + b[j + 1..];
  }

  /**
   * The first point of `a` occurs in any rearrangement `b` of it, at some j, and
   * what is left of the two series are rearrangements of each other.
   */
  lemma MatchFirst(a: seq<Point>, b: seq<Point>) returns (j: nat)
    requires |a| > 0 && multiset(a) == multiset(b)
    ensures j < |b| && b[j] == a[0]
    ensures multiset(a[1..]) == multiset(b[..j] + b[j + 1..])
  {
    assert a == [a[0]] + a[1..];
    assert multiset(a) == multiset{a[0]} + multiset(a[1..]);
    assert a[0] in multiset(b);
    assert a[0] in b;
    j :| 0 <= j < |b| && b[j] == a[0];
    MultisetRemove(b, j);
  }

  /** Counting does not depend on the order of the points. */
  lemma {:induction false} CountInPermutation(a: seq<Point>, b: seq<Point>, band: Point -> bool)
    requires multiset(a) == multiset(b)
    ensures CountIn(a, band) == CountIn(b, band)
    decreases |a|
  {
    if a == [] {
      assert |b| == |multiset(b)| == 0;
    } else {
      var j := MatchFirst(a, b);
      CountInPermutation(a[1..], b[..j] + b[j + 1..], band);
      CountInRemove(b, j, band);
    }
  }
}
