/** Running-peak drawdown, for any measure of how far a point has fallen from a peak. */
module Drawdown {
  import opened Prelude

  type Measure = (real, real) -> real

  /** Fraction of a positive peak lost at a later point. */
  function Relative(peak: real, point: real): real {
    if peak > 0.0 then (peak - point) / peak else 0.0
  }

  /** Units lost from a peak at a later point. */
  function Absolute(peak: real, point: real): real { peak - point }

  function Larger(x: real, y: real): real { if y > x then y else x }

  function Peak(path: seq<real>): real
    requires path != []
  {
    if |path| == 1 then path[0] else Larger(Peak(Front(path)), Last(path))
  }

  /** The largest fall from the running peak; a single point has not fallen. */
  function PeakDrawdown(fall: Measure, path: seq<real>): real
    requires path != []
  {
    if |path| == 1 then 0.0 else
      Larger(PeakDrawdown(fall, Front(path)), fall(Peak(path), Last(path)))
  }

  lemma {:induction false} PeakIsMaximum(path: seq<real>)
    requires path != []
    ensures forall i | 0 <= i < |path| :: path[i] <= Peak(path)
    ensures Peak(path) in path
  {
    if |path| > 1 {
      PeakIsMaximum(Front(path));
      Split(path);
    }
  }

  /** dd is attained by some point and an earlier one, and no such pair exceeds it. */
  ghost predicate WorstPair(fall: Measure, path: seq<real>, dd: real) {
    && (forall i, j | 0 <= i <= j < |path| :: fall(path[i], path[j]) <= dd)
    && (exists i, j | 0 <= i <= j < |path| :: fall(path[i], path[j]) == dd)
  }

  /** No earlier point makes the fall to a later one deeper than the running peak does. */
  ghost predicate PeakIsWorst(fall: Measure, path: seq<real>) {
    && (forall j | 0 <= j < |path| :: fall(path[j], path[j]) == 0.0)
    && (forall i, j | 0 <= i <= j < |path| :: fall(path[i], path[j]) <= fall(Peak(path[..j + 1]), path[j]))
  }

  lemma {:induction false} DrawdownIsWorstPair(fall: Measure, path: seq<real>)
    requires path != [] && PeakIsWorst(fall, path)
    ensures WorstPair(fall, path, PeakDrawdown(fall, path))
    ensures PeakDrawdown(fall, path) >= 0.0
  {
    if |path| > 1 {
      PeakIsWorstFront(fall, path);
      DrawdownIsWorstPair(fall, Front(path));
      var p := PeakIsTheWorstStart(fall, path);
      WorstPairExtends(fall, path, PeakDrawdown(fall, Front(path)), p);
    } else {
      assert fall(path[0], path[0]) == 0.0;
    }
  }

  lemma PeakIsTheWorstStart(fall: Measure, path: seq<real>) returns (p: nat)
    requires path != [] && PeakIsWorst(fall, path)
    ensures p < |path| && path[p] == Peak(path)
    ensures forall i | 0 <= i < |path| :: fall(path[i], Last(path)) <= fall(path[p], Last(path))
  {
    PeakIsMaximum(path);
    p :| 0 <= p < |path| && path[p] == Peak(path);
    assert path[..|path| - 1 + 1] == path;
  }

  lemma PeakIsWorstFront(fall: Measure, path: seq<real>)
    requires path != [] && PeakIsWorst(fall, path)
    ensures PeakIsWorst(fall, Front(path))
  {
    forall i, j | 0 <= i <= j < |path| - 1
      ensures fall(Front(path)[i], Front(path)[j]) <= fall(Peak(Front(path)[..j + 1]), Front(path)[j])
    {
      assert Front(path)[..j + 1] == path[..j + 1];
    }
  }

  lemma WorstPairExtends(fall: Measure, path: seq<real>, before: real, p: nat)
    requires |path| > 1 && WorstPair(fall, Front(path), before)
    requires p < |path| && forall i | 0 <= i < |path| :: fall(path[i], Last(path)) <= fall(path[p], Last(path))
    ensures WorstPair(fall, path, Larger(before, fall(path[p], Last(path))))
  {
    var front, last := Front(path), |path| - 1;
    var dd := Larger(before, fall(path[p], path[last]));
    forall i, j | 0 <= i <= j < |path|
      ensures fall(path[i], path[j]) <= dd
    {
      if j < last {
        assert path[i] == front[i] && path[j] == front[j];
      }
    }
    if dd == before {
      var i, j :| 0 <= i <= j < |front| && fall(front[i], front[j]) == before;
      assert fall(path[i], path[j]) == dd;
    }
  }

  // ----- the two measures -----

  lemma AbsolutePeakIsWorst(path: seq<real>)
    ensures PeakIsWorst(Absolute, path)
  {
    forall i, j | 0 <= i <= j < |path|
      ensures Absolute(path[i], path[j]) <= Absolute(Peak(path[..j + 1]), path[j])
    {
      PeakOfPrefix(path, i, j);
    }
  }

  lemma PeakOfPrefix(path: seq<real>, i: nat, j: nat)
    requires i <= j < |path|
    ensures path[i] <= Peak(path[..j + 1]) && Peak(path[..j + 1]) in path
  {
    PeakIsMaximum(path[..j + 1]);
    assert path[..j + 1][i] == path[i];
  }

  lemma RelativeAsQuotient(peak: real, point: real)
    requires 0.0 < peak
    ensures Relative(peak, point) == 1.0 - point / peak
  {
    assert peak / peak == 1.0;
    assert (peak - point) / peak == peak / peak - point / peak;
  }

  lemma Quotient(x: real, low: real, high: real)
    requires 0.0 <= x && 0.0 < low <= high
    ensures x / high <= x / low
  {
    var q := x / high;
    assert q * high == x;
    assert 0.0 <= q;
    assert q * low <= q * high;
    assert (x / low) * low == x;
  }

  lemma RelativeGrowsAt(low: real, high: real, point: real)
    requires 0.0 < low <= high && 0.0 <= point
    ensures Relative(low, point) <= Relative(high, point)
  {
    RelativeAsQuotient(low, point);
    RelativeAsQuotient(high, point);
    Quotient(point, low, high);
  }

  lemma RelativeBelowOne(peak: real, point: real)
    requires 0.0 < peak
    ensures Relative(peak, point) < 1.0 <==> 0.0 < point
    ensures point <= peak ==> 0.0 <= Relative(peak, point)
    ensures Relative(peak, peak) == 0.0
  {
    var f := Relative(peak, point);
    assert f * peak == peak - point;
  }

  ghost predicate Positive(path: seq<real>) { forall i | 0 <= i < |path| :: path[i] > 0.0 }

  ghost predicate NonNegative(path: seq<real>) { forall i | 0 <= i < |path| :: path[i] >= 0.0 }

  /** Never negative before its first fall from one, and never positive after it. */
  ghost predicate OneOrNone(path: seq<real>) {
    path != [] && path[0] == 1.0 && forall i | 0 <= i < |path| :: path[i] == 1.0 || path[i] <= 0.0
  }

  lemma RelativePeakIsWorst(path: seq<real>)
    requires NonNegative(path) || OneOrNone(path)
    ensures PeakIsWorst(Relative, path)
  {
    forall j | 0 <= j < |path|
      ensures Relative(path[j], path[j]) == 0.0
    {
    }
    forall i, j | 0 <= i <= j < |path|
      ensures Relative(path[i], path[j]) <= Relative(Peak(path[..j + 1]), path[j])
    {
      PeakOfPrefix(path, i, j);
      PeakOfPrefix(path, j, j);
      PeakOfPrefix(path, 0, j);
      var peak := Peak(path[..j + 1]);
      if path[i] > 0.0 && path[j] >= 0.0 {
        RelativeGrowsAt(path[i], peak, path[j]);
      } else if path[i] <= 0.0 && peak > 0.0 {
        RelativeBelowOne(peak, path[j]);
      }
    }
  }

  /** The reported drawdown is the deepest fall from a positive point to a later one. */
  ghost predicate Reads(path: seq<real>)
    requires path != []
  {
    WorstPair(Relative, path, PeakDrawdown(Relative, path))
  }

  /** On a path that never goes below zero, and on one that stays at one until it falls to
      nothing for good, the reported drawdown is the worst pair. */
  lemma NonNegativePathReads(path: seq<real>)
    requires path != [] && (NonNegative(path) || OneOrNone(path))
    ensures Reads(path)
    ensures PeakDrawdown(Relative, path) >= 0.0
  {
    RelativePeakIsWorst(path);
    DrawdownIsWorstPair(Relative, path);
  }

  /** A path that starts positive is reported below a full loss exactly when it
      never reaches zero. */
  lemma {:induction false} RelativeBelowOneIffPositive(path: seq<real>)
    requires path != [] && path[0] > 0.0
    ensures PeakDrawdown(Relative, path) < 1.0 <==> Positive(path)
    ensures PeakDrawdown(Relative, path) >= 0.0
  {
    if |path| > 1 {
      RelativeBelowOneIffPositive(Front(path));
      PeakIsMaximum(path);
      RelativeBelowOne(Peak(path), Last(path));
      Split(path);
    }
  }

  lemma {:induction false} DrawdownBound(path: seq<real>, bound: real)
    requires path != [] && bound >= 0.0
    requires forall j | 0 <= j < |path| :: Relative(Peak(path[..j + 1]), path[j]) <= bound
    ensures PeakDrawdown(Relative, path) <= bound
  {
    if |path| > 1 {
      var front := Front(path);
      forall j | 0 <= j < |front|
        ensures Relative(Peak(front[..j + 1]), front[j]) <= bound
      {
        assert front[..j + 1] == path[..j + 1];
      }
      DrawdownBound(front, bound);
      assert path[..|path| - 1 + 1] == path;
    }
  }

  /** A path that starts at one, rises and then goes below zero is misread: the fall from
      the start is deeper than the fall from the peak. */
  lemma RiseThenRuinMisreads(path: seq<real>, high: real, low: real, m: nat)
    requires m < |path| && path[0] == 1.0 && path[m] == low && low < 0.0 && 1.0 < high
    requires forall j | 0 <= j < |path| :: path[j] == 1.0 || path[j] == high || path[j] == low
    requires forall i, j | 0 <= i < j < |path| :: path[j] == 1.0 ==> path[i] == 1.0
    requires forall j | 0 <= j < |path| && path[j] == low :: Peak(path[..j + 1]) == high
    ensures !Reads(path)
  {
    var deepest := Relative(high, low);
    RelativeAsQuotient(high, low);
    RelativeAsQuotient(1.0, low);
    LowerQuotient(low, high);
    forall j | 0 <= j < |path|
      ensures Relative(Peak(path[..j + 1]), path[j]) <= deepest
    {
      PeakOfPrefix(path, j, j);
      if path[j] == 1.0 {
        PeakOfOnes(path[..j + 1]);
      } else if path[j] == high {
        PeakAtMost(path[..j + 1], high);
      }
    }
    DrawdownBound(path, deepest);
    assert Relative(path[0], path[m]) > PeakDrawdown(Relative, path);
  }

  lemma LowerQuotient(low: real, high: real)
    requires low < 0.0 && 1.0 < high
    ensures low < low / high < 0.0
  {
    var q := low / high;
    assert q * high == low;
    assert q < 0.0;
    assert q * (high - 1.0) < 0.0;
    assert q * (high - 1.0) == low - q;
  }

  lemma PeakAtMost(path: seq<real>, high: real)
    requires path != [] && Last(path) == high && forall i | 0 <= i < |path| :: path[i] <= high
    ensures Peak(path) == high && Relative(Peak(path), high) == 0.0
  {
    PeakIsMaximum(path);
    assert path[|path| - 1] <= Peak(path);
  }

  lemma PeakOfOnes(path: seq<real>)
    requires path != [] && forall i | 0 <= i < |path| :: path[i] == 1.0
    ensures Peak(path) == 1.0
  {
    PeakIsMaximum(path);
  }
}
