/**
 * Declarative meaning of the pattern detectors: each rule fires exactly when the
 * series contains some stretch of consecutive points of a given shape. The
 * detectors in ControlRules are proved equal to these predicates.
 */
module Windows {
  import opened Series

  /** Points s[i], ..., s[i+k-1] exist and all lie in `band`. */
  ghost predicate StreakAt(s: seq<Point>, i: int, k: nat, band: Point -> bool)
  {
    0 <= i && i + k <= |s| && forall j :: i <= j < i + k ==> band(s[j])
  }

  /** Some k consecutive points all lie in `band`. */
  ghost predicate HasStreak(s: seq<Point>, k: nat, band: Point -> bool)
  {
    exists i :: StreakAt(s, i, k, band)
  }

  /** The value at j is strictly above the one before it. */
  predicate Rises(s: seq<Point>, j: int)
    requires 1 <= j < |s|
  {
    s[j - 1].value < s[j].value
  }

  /** The value at j is strictly below the one before it. */
  predicate Falls(s: seq<Point>, j: int)
    requires 1 <= j < |s|
  {
    s[j - 1].value > s[j].value
  }

  /** Values s[i], ..., s[i+k-1] exist and are strictly increasing. */
  ghost predicate RisingAt(s: seq<Point>, i: int, k: nat)
  {
    0 <= i && i + k <= |s| && forall j :: i < j < i + k ==> Rises(s, j)
  }

  /** Values s[i], ..., s[i+k-1] exist and are strictly decreasing. */
  ghost predicate FallingAt(s: seq<Point>, i: int, k: nat)
  {
    0 <= i && i + k <= |s| && forall j :: i < j < i + k ==> Falls(s, j)
  }

  /** Some k consecutive values rise strictly or fall strictly. */
  ghost predicate HasTrend(s: seq<Point>, k: nat)
  {
    exists i :: RisingAt(s, i, k) || FallingAt(s, i, k)
  }

  /** The window s[i..i+w] exists and `hit` holds of it. */
  ghost predicate WindowAt(s: seq<Point>, i: int, w: nat, hit: seq<Point> -> bool)
  {
    0 <= i && i + w <= |s| && hit(s[i..i + w])
  }

  /** Some window of w consecutive points satisfies `hit`. */
  ghost predicate HasWindow(s: seq<Point>, w: nat, hit: seq<Point> -> bool)
  {
    exists i :: WindowAt(s, i, w, hit)
  }

  /** A window in which at least `need` points lie in `band`. */
  function AtLeast(need: nat, band: Point -> bool): seq<Point> -> bool
  {
    w => CountIn(w, band) >= need
  }

  // Every rule reports its first hit and never looks back, so a violating
  // series stays violating whatever is appended to it.

  lemma StreakPersists(s: seq<Point>, t: seq<Point>, k: nat, band: Point -> bool)
    requires HasStreak(s, k, band)
    ensures HasStreak(s + t, k, band)
  {
    var i :| StreakAt(s, i, k, band);
    forall j | i <= j < i + k
      ensures band((s + t)[j])
    {
      assert (s + t)[j] == s[j];
    }
    assert StreakAt(s + t, i, k, band);
  }

  lemma TrendPersists(s: seq<Point>, t: seq<Point>, k: nat)
    requires HasTrend(s, k)
    ensures HasTrend(s + t, k)
  {
    var i :| RisingAt(s, i, k) || FallingAt(s, i, k);
    forall j | 1 <= j < |s|
      ensures Rises(s + t, j) == Rises(s, j) && Falls(s + t, j) == Falls(s, j)
    {
      assert (s + t)[j] == s[j] && (s + t)[j - 1] == s[j - 1];
    }
    assert RisingAt(s + t, i, k) || FallingAt(s + t, i, k);
  }

  lemma WindowPersists(s: seq<Point>, t: seq<Point>, w: nat, hit: seq<Point> -> bool)
    requires HasWindow(s, w, hit)
    ensures HasWindow(s + t, w, hit)
  {
    var i :| WindowAt(s, i, w, hit);
    assert (s + t)[i..i + w] == s[i..i + w];
    assert WindowAt(s + t, i, w, hit);
  }

  /** A series shorter than a rule's length never fires. */
  lemma ShortSeriesHasNoStreak(s: seq<Point>, k: nat, band: Point -> bool)
    requires |s| < k
    ensures !HasStreak(s, k, band)
  {
  }

  lemma ShortSeriesHasNoTrend(s: seq<Point>, k: nat)
    requires |s| < k
    ensures !HasTrend(s, k)
  {
  }

  lemma ShortSeriesHasNoWindow(s: seq<Point>, w: nat, hit: seq<Point> -> bool)
    requires |s| < w
    ensures !HasWindow(s, w, hit)
  {
  }

  /**
   * A longer run contains a shorter one: a series that breaks the rule with a
   * run length of 10 also breaks it with a run length of 8.
   */
  lemma StreakShortens(s: seq<Point>, k: nat, m: nat, band: Point -> bool)
    requires m <= k
    requires HasStreak(s, k, band)
    ensures HasStreak(s, m, band)
  {
    var i :| StreakAt(s, i, k, band);
    assert StreakAt(s, i, m, band);
  }

  lemma TrendShortens(s: seq<Point>, k: nat, m: nat)
    requires m <= k
    requires HasTrend(s, k)
    ensures HasTrend(s, m)
  {
    var i :| RisingAt(s, i, k) || FallingAt(s, i, k);
    assert RisingAt(s, i, m) || FallingAt(s, i, m);
  }
}
