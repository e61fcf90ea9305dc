/**
 * Majority Judgment (methods.py): ballots are those of Majority Approval
 * Voting; only the candidate score differs. The score is the median grade
 * nudged by less than half a grade towards the side of the median's run
 * that holds more of the other grades.
 */
module Mj {
  import opened Seqs
  import opened Mav

  // ---------------------------------------------------------------------
  // Counting the grades on either side of a value

  /** `x` lies strictly above `base` (when `up`) or strictly below it. */
  predicate Past(x: int, base: int, up: bool)
  {
    if up then x > base else x < base
  }

  /** How many grades of `s` lie strictly above (`up`) or strictly below `base`. */
  function Beyond(s: seq<int>, base: int, up: bool): nat
  {
    if s == [] then 0
    else Beyond(s[..|s| - 1], base, up) + (if Past(s[|s| - 1], base, up) then 1 else 0)
  }

  lemma {:induction false} BeyondConcat(p: seq<int>, q: seq<int>, base: int, up: bool)
    ensures Beyond(p + q, base, up) == Beyond(p, base, up) + Beyond(q, base, up)
    decreases |q|
  {
    if q == [] {
      assert p + q == p;
    } else {
      assert (p + q)[..|p + q| - 1] == p + q[..|q| - 1];
      BeyondConcat(p, q[..|q| - 1], base, up);
    }
  }

  /** Taking the grade at `j` out of `b` removes its share of the count and of the multiset. */
  lemma BeyondRemove(b: seq<int>, j: nat, base: int, up: bool)
    requires j < |b|
    ensures multiset(b[..j] + b[j + 1..]) == multiset(b) - multiset{b[j]}
    ensures Beyond(b, base, up) == Beyond(b[..j] + b[j + 1..], base, up) + (if Past(b[j], base, up) then 1 else 0)
  {
    var x := b[j];
    assert b == b[..j] + [x] + b[j + 1..];
    assert multiset(b) == multiset(b[..j]) + multiset{x} + multiset(b[j + 1..]);
    BeyondConcat(b[..j] + [x], b[j + 1..], base, up);
    BeyondConcat(b[..j], [x], base, up);
    BeyondConcat(b[..j], b[j + 1..], base, up);
    assert Beyond([x], base, up) == if Past(x, base, up) then 1 else 0 by {
      assert [x][..0] == [];
    }
  }

  /** The count depends only on which grades there are, not on their order. */
  lemma {:induction false} BeyondPermutation(a: seq<int>, b: seq<int>, base: int, up: bool)
    requires multiset(a) == multiset(b)
    ensures Beyond(a, base, up) == Beyond(b, base, up)
    decreases |a|
  {
    if a == [] {
      assert |b| == |multiset(b)| == 0;
    } else {
      var init, x := a[..|a| - 1], a[|a| - 1];
      assert a == init + [x];
      assert multiset(init) == multiset(a) - multiset{x};
      assert x in multiset(b);
      var j :| 0 <= j < |b| && b[j] == x;
      BeyondRemove(b, j, base, up);
      BeyondPermutation(init, b[..j] + b[j + 1..], base, up);
    }
  }

  // ---------------------------------------------------------------------
  // candScore

  /** Walking down from `i` over grades equal to `base`: the index just below the run, or -1. */
  function RunStart(s: seq<int>, i: int, base: int): (j: int)
    requires -1 <= i < |s|
    ensures -1 <= j <= i
    ensures forall k :: j < k <= i ==> s[k] == base
    ensures j >= 0 ==> s[j] != base
    decreases i + 1
  {
    if i >= 0 && s[i] == base then RunStart(s, i - 1, base) else i
  }

  /** Mj.candScore as a formula on the sorted column, from the middle index `nvot // 2`. */
  function MjScore(scores: seq<int>): (r: real)
    requires |scores| > 0
  {
    var s := SortGrades(scores);
    var n := |s|;
    var mid := n / 2;
    var base := s[mid];
    var hi := RunEnd(s, mid, base);
    var lo := RunStart(s, mid, base);
    Nudge(base, mid, lo, hi, n)
  }

  /** The score from the middle grade, the middle index and the ends `lo` and `hi` of its run. */
  function Nudge(base: int, mid: int, lo: int, hi: int, n: nat): real
    requires n > 0
  {
    if hi - mid == mid - lo then base as real
    else if hi - mid < mid - lo then base as real + 0.5 - (hi - mid) as real / n as real
    else base as real - 0.5 + (mid - lo) as real / n as real
  }

  /** The nudge stays strictly within half a grade, and its direction follows the longer side of the run. */
  lemma NudgeBounds(base: int, mid: int, lo: int, hi: int, n: nat)
    requires -1 <= lo < mid < hi <= n
    ensures base as real - 0.5 < Nudge(base, mid, lo, hi, n) < base as real + 0.5
    ensures n == 2 * mid + 1 ==>
      && (Nudge(base, mid, lo, hi, n) > base as real <==> hi - mid < mid - lo)
      && (Nudge(base, mid, lo, hi, n) < base as real <==> hi - mid > mid - lo)
  {
    if hi - mid < mid - lo {
      ShareBounds(hi - mid, n);
    } else if hi - mid > mid - lo {
      ShareBounds(mid - lo, n);
    }
  }

  /** The grade at the middle index of the sorted column. */
  function MiddleGrade(scores: seq<int>): int
    requires |scores| > 0
  {
    SortGrades(scores)[|scores| / 2]
  }

  /** Mj.candScore: sort, walk up the middle run with `hi`, then down with `lo`. */
  method CandScore(scores: seq<int>) returns (r: real)
    requires |scores| > 0
    ensures r == MjScore(scores)
  {
    var s := SortGrades(scores);
    var nvot := |s|;
    var mid := nvot / 2;
    var lo, hi := mid, mid;
    var base := s[mid];
    while hi < nvot && s[hi] == base
      invariant mid <= hi <= nvot
      invariant RunEnd(s, hi, base) == RunEnd(s, mid, base)
    {
      hi := hi + 1;
    }
    while lo >= 0 && s[lo] == base
      invariant -1 <= lo <= mid
      invariant RunStart(s, lo, base) == RunStart(s, mid, base)
    {
      lo := lo - 1;
    }
    if hi - mid == mid - lo {
      r := base as real;
    } else if hi - mid < mid - lo {
      r := base as real + 0.5 - (hi - mid) as real / nvot as real;
    } else {
      r := base as real - 0.5 + (mid - lo) as real / nvot as real;
    }
  }

  /** A share `d / n` of a column, between 0 and one half. */
  lemma ShareBounds(d: nat, n: nat)
    requires 1 <= d && 2 * d <= n
    ensures 0.0 < d as real / n as real <= 0.5
    ensures 2 * d < n ==> d as real / n as real < 0.5
  {
    var q := d as real / n as real;
    assert q * n as real == d as real;
    DivMono(d as real, n as real / 2.0, n as real);
    DivCancel(0.5, n as real);
    assert n as real / 2.0 == 0.5 * n as real;
  }

  /** A column split into grades below `base`, a run of `base` and grades above it. */
  lemma {:induction false} BeyondSplit(s: seq<int>, i: nat, j: nat, base: int)
    requires i <= j <= |s|
    requires forall k :: 0 <= k < i ==> s[k] < base
    requires forall k :: i <= k < j ==> s[k] == base
    requires forall k :: j <= k < |s| ==> s[k] > base
    ensures Beyond(s, base, false) == i && Beyond(s, base, true) == |s| - j
    decreases |s|
  {
    if s != [] {
      var n := |s|;
      var init := s[..n - 1];
      if j < n {
        BeyondSplit(init, i, j, base);
      } else if i < n {
        BeyondSplit(init, i, n - 1, base);
      } else {
        BeyondSplit(init, n - 1, n - 1, base);
      }
    }
  }

  /**
   * In the sorted column, the grades below the middle run are the `lo + 1`
   * grades before it and those above are the `n - hi` after it.
   */
  lemma SortedSides(s: seq<int>, mid: nat)
    requires NonDecreasing(s) && mid < |s|
    ensures var base, hi, lo := s[mid], RunEnd(s, mid, s[mid]), RunStart(s, mid, s[mid]);
      Beyond(s, base, false) == lo + 1 && Beyond(s, base, true) == |s| - hi
  {
    var base, hi, lo := s[mid], RunEnd(s, mid, s[mid]), RunStart(s, mid, s[mid]);
    forall k | 0 <= k < lo + 1 ensures s[k] < base {
      assert s[k] <= s[lo] <= s[mid];
    }
    forall k | hi <= k < |s| ensures s[k] > base {
      assert s[mid] <= s[hi] <= s[k];
    }
    BeyondSplit(s, lo + 1, hi, base);
  }

  /**
   * The Mj score is strictly within half a grade of the middle grade, and
   * it is exactly that grade when the middle run reaches as far above the
   * middle index as below it.
   */
  lemma MjScoreNearMiddle(scores: seq<int>)
    requires |scores| > 0
    ensures MiddleGrade(scores) as real - 0.5 < MjScore(scores) < MiddleGrade(scores) as real + 0.5
  {
    var s := SortGrades(scores);
    var mid := |s| / 2;
    NudgeBounds(s[mid], mid, RunStart(s, mid, s[mid]), RunEnd(s, mid, s[mid]), |s|);
  }

  /** Above and below the middle grade lie the grades after and before its run in the sorted column. */
  lemma MiddleSides(scores: seq<int>)
    requires |scores| > 0
    ensures var s := SortGrades(scores); var mid := |s| / 2;
      && Beyond(scores, s[mid], true) == |s| - RunEnd(s, mid, s[mid])
      && Beyond(scores, s[mid], false) == RunStart(s, mid, s[mid]) + 1
  {
    var s := SortGrades(scores);
    SortedSides(s, |s| / 2);
    BeyondPermutation(s, scores, s[|s| / 2], true);
    BeyondPermutation(s, scores, s[|s| / 2], false);
  }

  /**
   * For an odd number of voters the score leans the way the other grades
   * do: above the middle grade (the median) exactly when more grades lie
   * above it than below, below it exactly when more lie below, and equal
   * to it when the two sides balance.
   */
  lemma MjScoreLeans(scores: seq<int>)
    requires |scores| % 2 == 1
    ensures var m, above, below := MiddleGrade(scores), Beyond(scores, MiddleGrade(scores), true), Beyond(scores, MiddleGrade(scores), false);
      && (MjScore(scores) > m as real <==> above > below)
      && (MjScore(scores) < m as real <==> above < below)
      && (MjScore(scores) == m as real <==> above == below)
  {
    var s := SortGrades(scores);
    var mid := |s| / 2;
    MiddleSides(scores);
    NudgeBounds(s[mid], mid, RunStart(s, mid, s[mid]), RunEnd(s, mid, s[mid]), |s|);
  }

  // ---------------------------------------------------------------------
  // Doctests

  lemma MjScoreOfDistinct(s: seq<int>)
    requires |s| == 5 && s[0] == 1 && s[1] == 2 && s[2] == 3 && s[3] == 4 && s[4] == 5
    ensures MjScore(s) == 3.0
  {
    assert NonDecreasing(s);
    SortedColumn(s);
    assert RunEnd(s, 2, 3) == 3;
    assert RunStart(s, 2, 3) == 1;
  }

  lemma MjScoreOfRunAbove(s: seq<int>)
    requires |s| == 5 && s[0] == 1 && s[1] == 2 && s[2] == 3 && s[3] == 3 && s[4] == 5
    ensures MjScore(s) == 27.0 / 10.0
  {
    assert NonDecreasing(s);
    SortedColumn(s);
    assert RunEnd(s, 2, 3) == 4;
    assert RunStart(s, 2, 3) == 1;
  }

  lemma MjScoreOfCentredRun(s: seq<int>)
    requires |s| == 5 && s[0] == 1 && s[1] == 3 && s[2] == 3 && s[3] == 3 && s[4] == 5
    ensures MjScore(s) == 3.0
  {
    assert NonDecreasing(s);
    SortedColumn(s);
    assert RunEnd(s, 2, 3) == 4;
    assert RunStart(s, 2, 3) == 0;
  }

  lemma MjScoreOfRunBelow(s: seq<int>)
    requires |s| == 5 && s[0] == 1 && s[1] == 3 && s[2] == 3 && s[3] == 4 && s[4] == 5
    ensures MjScore(s) == 33.0 / 10.0
  {
    assert NonDecreasing(s);
    SortedColumn(s);
    assert RunEnd(s, 3, 3) == 3;
    assert RunEnd(s, 2, 3) == 3;
    assert RunStart(s, 0, 3) == 0;
    assert RunStart(s, 2, 3) == 0;
  }

  lemma MjScoreOfTopRun(s: seq<int>)
    requires |s| == 5 && s[0] == 1 && s[1] == 3 && s[2] == 3 && s[3] == 3 && s[4] == 3
    ensures MjScore(s) == 29.0 / 10.0
  {
    assert NonDecreasing(s);
    SortedColumn(s);
    assert RunEnd(s, 2, 3) == 5;
    assert RunStart(s, 2, 3) == 0;
  }

  /** Thirteen 3s and twelve 4s: the run of 3s reaches the bottom, so the score leans up by 1/2 - 1/25. */
  lemma MjScoreOfLongRuns(s: seq<int>)
    requires |s| == 25 && forall k :: 0 <= k < 25 ==> s[k] == if k < 13 then 3 else 4
    ensures MjScore(s) == 346.0 / 100.0
  {
    assert NonDecreasing(s);
    SortedColumn(s);
    assert RunEnd(s, 13, 3) == 13;
    assert RunEnd(s, 12, 3) == 13;
    assert RunStart(s, 12, 3) == -1;
  }

  /** A column of a's followed by b's, with a <= b, is sorted. */
  lemma TwoBlocks(s: seq<int>, m: nat, a: int, b: int)
    requires m <= |s| && a <= b
    requires forall k :: 0 <= k < |s| ==> s[k] == if k < m then a else b
    ensures NonDecreasing(s)
  {
  }

  /** A sorted column whose middle run lies strictly between lo and hi scores Nudge from those ends. */
  lemma SortedRunScore(s: seq<int>, lo: int, hi: int)
    requires NonDecreasing(s) && -1 <= lo < |s| / 2 < hi <= |s|
    requires forall k :: lo < k < hi ==> s[k] == s[|s| / 2]
    requires lo >= 0 ==> s[lo] != s[|s| / 2]
    requires hi < |s| ==> s[hi] != s[|s| / 2]
    ensures MjScore(s) == Nudge(s[|s| / 2], |s| / 2, lo, hi, |s|)
  {
    SortedColumn(s);
    RunEndIs(s, |s| / 2, s[|s| / 2], hi);
    RunStartIs(s, |s| / 2, s[|s| / 2], lo);
  }

  /** The run of `base` from i ends at any j past grades equal to base, where the next grade differs. */
  lemma {:induction false} RunEndIs(s: seq<int>, i: nat, base: int, j: nat)
    requires i <= j <= |s| && (forall k :: i <= k < j ==> s[k] == base) && (j < |s| ==> s[j] != base)
    ensures RunEnd(s, i, base) == j
    decreases j - i
  {
    if i < j {
      RunEndIs(s, i + 1, base, j);
    }
  }

  /** Walking down from i over grades equal to base stops at any j below them whose grade differs. */
  lemma {:induction false} RunStartIs(s: seq<int>, i: int, base: int, j: int)
    requires -1 <= j <= i < |s| && (forall k :: j < k <= i ==> s[k] == base) && (j >= 0 ==> s[j] != base)
    ensures RunStart(s, i, base) == j
    decreases i - j
  {
    if j < i {
      RunStartIs(s, i - 1, base, j);
    }
  }

  /** `[3] * 24 + [4]`: the run of 3s reaches the bottom, so the score leans up by 1/2 - 12/25. */
  lemma MjScoreOfOneAbove(s: seq<int>)
    requires |s| == 25 && forall k :: 0 <= k < 25 ==> s[k] == if k < 24 then 3 else 4
    ensures MjScore(s) == 302.0 / 100.0
  {
    TwoBlocks(s, 24, 3, 4);
    SortedRunScore(s, -1, 24);
  }

  /** `[3] * 24 + [1]`: sorted, the run of 3s reaches the top, so the score leans down by 1/2 - 12/25. */
  lemma MjScoreOfOneBelow(s: seq<int>)
    requires |s| == 25 && forall k :: 0 <= k < 25 ==> s[k] == if k < 24 then 3 else 1
    ensures MjScore(s) == 298.0 / 100.0
  {
    var t := [1] + s[..24];
    assert s == s[..24] + [1];
    TwoBlocks(t, 1, 1, 3);
    SortGradesUnique(SortGrades(s), t);
    SortedRunScore(t, 0, 25);
  }
}
