/**
 * Majority Approval Voting (methods.py): grades 0..4 obtained by comparing a
 * utility with four cutoffs (`toVote`), and a candidate score that smooths
 * the median grade by the length of the run of voters at that grade.
 */
module Mav {
  import opened Seqs
  import opened Framework

  // ---------------------------------------------------------------------
  // toVote

  /** The first index at or after `k` whose cutoff is at least `util`, or `|cutoffs|` if there is none. */
  function VoteFrom(cutoffs: seq<real>, util: real, k: nat): (v: nat)
    requires k <= |cutoffs|
    ensures k <= v <= |cutoffs|
    ensures forall j :: k <= j < v ==> util > cutoffs[j]
    ensures v < |cutoffs| ==> util <= cutoffs[v]
    decreases |cutoffs| - k
  {
    if k == |cutoffs| || util <= cutoffs[k] then k else VoteFrom(cutoffs, util, k + 1)
  }

  /** The grade `toVote` gives: the first cutoff the utility does not exceed. */
  function VoteFor(cutoffs: seq<real>, util: real): (v: nat)
    requires |cutoffs| > 0
    ensures v <= |cutoffs|
  {
    VoteFrom(cutoffs, util, 0)
  }

  /** Any index below which every cutoff is exceeded, and at which the cutoff is not, is the vote. */
  lemma VoteForUnique(cutoffs: seq<real>, util: real, v: nat)
    requires |cutoffs| > 0 && v <= |cutoffs|
    requires forall j :: 0 <= j < v ==> util > cutoffs[j]
    requires v < |cutoffs| ==> util <= cutoffs[v]
    ensures v == VoteFor(cutoffs, util)
  {
    var w := VoteFor(cutoffs, util);
    if v < |cutoffs| {
      assert !(w > v);
    }
    if w < |cutoffs| {
      assert util <= cutoffs[w];
    }
  }

  /** A larger utility never gets a smaller vote. */
  lemma VoteForMonotone(cutoffs: seq<real>, u: real, v: real)
    requires |cutoffs| > 0 && u <= v
    ensures VoteFor(cutoffs, u) <= VoteFor(cutoffs, v)
  {
    var b := VoteFor(cutoffs, v);
    if b < |cutoffs| {
      assert u <= cutoffs[b];
    }
  }

  /** toVote: walk the cutoffs in order and stop at the first one the utility does not exceed. */
  method ToVote(cutoffs: seq<real>, util: real) returns (vote: nat)
    requires |cutoffs| > 0
    ensures vote == VoteFor(cutoffs, util)
    ensures vote <= |cutoffs|
    ensures vote < |cutoffs| ==> util <= cutoffs[vote]
    ensures forall j :: 0 <= j < vote ==> util > cutoffs[j]
  {
    vote := 0;
    while vote < |cutoffs|
      invariant 0 <= vote <= |cutoffs|
      invariant forall j :: 0 <= j < vote ==> util > cutoffs[j]
    {
      if util <= cutoffs[vote] {
        VoteForUnique(cutoffs, util, vote);
        return;
      }
      vote := vote + 1;
    }
    VoteForUnique(cutoffs, util, vote);
  }

  // ---------------------------------------------------------------------
  // Honest ballot

  /** Mav.baseCuts: -0.8, 0, 0.8, 1.6. */
  const BaseCuts: seq<real> := [-8.0 / 10.0, 0.0, 8.0 / 10.0, 16.0 / 10.0]

  function Min(a: real, b: real): real
  {
    if a <= b then a else b
  }

  /** The honest cutoffs: each base cut, lowered to just under the voter's top utility. */
  function HonCutoffs(voter: seq<real>): (c: seq<real>)
    requires |voter| > 0
    ensures |c| == 4
    ensures forall i :: 0 <= i < 4 ==> c[i] <= BaseCuts[i] && c[i] < MaxOf(voter)
  {
    seq(4, i requires 0 <= i < 4 => Min(BaseCuts[i], MaxOf(voter) - 1.0 / 1000.0))
  }

  /**
   * Mav.honBallot: grade each utility against the honest cutoffs. Grades
   * are on 0..4, follow the utilities, and the voter's favourites always
   * get the top grade 4.
   */
  function HonBallot(voter: seq<real>): (b: seq<int>)
    requires |voter| > 0
    ensures |b| == |voter|
    ensures forall i :: 0 <= i < |b| ==> 0 <= b[i] <= 4
    ensures forall i :: 0 <= i < |b| && voter[i] == MaxOf(voter) ==> b[i] == 4
    ensures forall i, j :: 0 <= i < |b| && 0 <= j < |b| && voter[i] <= voter[j] ==> b[i] <= b[j]
  {
    var c := HonCutoffs(voter);
    var b := seq(|voter|, i requires 0 <= i < |voter| => VoteFor(c, voter[i]) as int);
    assert forall i :: 0 <= i < |b| && voter[i] == MaxOf(voter) ==> b[i] == 4 by {
      forall i | 0 <= i < |b| && voter[i] == MaxOf(voter)
        ensures b[i] == 4
      {
        VoteForUnique(c, voter[i], 4);
      }
    }
    assert forall i, j :: 0 <= i < |b| && 0 <= j < |b| && voter[i] <= voter[j] ==> b[i] <= b[j] by {
      forall i, j | 0 <= i < |b| && 0 <= j < |b| && voter[i] <= voter[j]
        ensures b[i] <= b[j]
      {
        VoteForMonotone(c, voter[i], voter[j]);
      }
    }
    b
  }

  // ---------------------------------------------------------------------
  // Strategic ballot

  /** The frontrunners' utilities, the preferred one first (swapped only if the runner-up is strictly preferred). */
  function FrontUtils(info: seq<real>, voter: seq<real>): (f: (real, real))
    requires FrontKnown(info, voter)
    ensures f.0 >= f.1
    ensures {f.0, f.1} == {voter[Leader(info)], voter[RunnerUp(info)]}
  {
    var lead, second := voter[Leader(info)], voter[RunnerUp(info)];
    if second - lead < 0.0 then (lead, second) else (second, lead)
  }

  /**
   * The strategic cutoffs: below the runner-up's floored poll score each
   * base cut capped at the preferred frontrunner's utility; up to the
   * leader's floored poll score the other frontrunner's utility; above that
   * the base cut capped at the voter's top utility.
   */
  function StratCutoffs(info: seq<real>, voter: seq<real>): (c: seq<real>)
    requires FrontKnown(info, voter)
    ensures |c| == 4
  {
    CutoffsFrom(FrontUtils(info, voter), info[Leader(info)].Floor, info[RunnerUp(info)].Floor, MaxOf(voter))
  }

  /** The strategic cutoffs from the ordered frontrunner utilities `f`, the floored poll scores and the top utility. */
  function CutoffsFrom(f: (real, real), s1: int, s2: int, top: real): (c: seq<real>)
    ensures |c| == 4
  {
    seq(4, i requires 0 <= i < 4 =>
      if i < s2 then Min(f.0, BaseCuts[i])
      else if i < s1 + 1 then f.1
      else Min(top, BaseCuts[i]))
  }

  /** `max(0, min(10, floor(4.99 * (util - f1) / (f0 - f1))))`: clamped to 10, as written. */
  function ExtraGrade(util: real, f: (real, real)): int
    requires f.0 != f.1
  {
    var k := (499.0 / 100.0 * (util - f.1) / (f.0 - f.1)).Floor;
    if k < 0 then 0 else if k > 10 then 10 else k
  }

  /** The all-or-nothing ballot of the tied case: `top` for utilities at least `cut`, else 0. */
  function Approve(voter: seq<real>, cut: real, top: int): (b: seq<int>)
    ensures |b| == |voter| && forall i :: 0 <= i < |voter| ==> b[i] == if voter[i] >= cut then top else 0
  {
    seq(|voter|, i requires 0 <= i < |voter| => if voter[i] >= cut then top else 0)
  }

  /**
   * Mav.stratBallotFor(info) applied to a voter. A gap of exactly 0
   * (`stratGap is 0` in the source) gives the all-or-nothing ballot as
   * both strat and extraStrat.
   */
  function StratBallot(info: seq<real>, voter: seq<real>): (r: StratRecord)
    requires FrontKnown(info, voter)
    ensures r.stratGap == voter[RunnerUp(info)] - voter[Leader(info)]
    ensures r.isStrat <==> voter[RunnerUp(info)] >= voter[Leader(info)]
    ensures r.extraStrat.Some? && |r.strat| == |voter| && |r.extraStrat.value| == |voter|
  {
    var lead := voter[Leader(info)];
    var gap := voter[RunnerUp(info)] - lead;
    if gap == 0.0 then
      var b := Approve(voter, lead, 4);
      StratRecord(b, Some(b), true, gap)
    else
      var c := StratCutoffs(info, voter);
      var f := FrontUtils(info, voter);
      var strat := seq(|voter|, i requires 0 <= i < |voter| => VoteFor(c, voter[i]) as int);
      var extra := seq(|voter|, i requires 0 <= i < |voter| => ExtraGrade(voter[i], f));
      StratRecord(strat, Some(extra), gap > 0.0, gap)
  }

  /** The extreme grade is 4 for the preferred frontrunner, 0 for the other, and within 0..10 everywhere. */
  lemma ExtraGradeFacts(util: real, f: (real, real))
    requires f.0 > f.1
    ensures 0 <= ExtraGrade(util, f) <= 10
    ensures ExtraGrade(f.0, f) == 4 && ExtraGrade(f.1, f) == 0
  {
    DivCancel(499.0 / 100.0, f.0 - f.1);
  }

  /**
   * With unequal frontrunner utilities: strat grades are on 0..4 and
   * follow the utilities, the less-preferred frontrunner gets at most the
   * runner-up's floored poll score (when that is a grade below 4), and the
   * extreme ballot gives the preferred frontrunner 4 and the other 0.
   */
  lemma StratBallotGrades(info: seq<real>, voter: seq<real>)
    requires FrontKnown(info, voter) && voter[Leader(info)] != voter[RunnerUp(info)]
    ensures var r, f := StratBallot(info, voter), FrontUtils(info, voter);
      && (forall i :: 0 <= i < |voter| ==> 0 <= r.strat[i] <= 4 && 0 <= r.extraStrat.value[i] <= 10)
      && (forall i, j :: 0 <= i < |voter| && 0 <= j < |voter| && voter[i] <= voter[j] ==> r.strat[i] <= r.strat[j])
      && (forall i :: 0 <= i < |voter| && voter[i] == f.1 && 0 <= info[RunnerUp(info)].Floor < 4 ==>
            r.strat[i] <= info[RunnerUp(info)].Floor)
      && (forall i :: 0 <= i < |voter| && voter[i] == f.0 ==> r.extraStrat.value[i] == 4)
      && (forall i :: 0 <= i < |voter| && voter[i] == f.1 ==> r.extraStrat.value[i] == 0)
  {
    var r, f := StratBallot(info, voter), FrontUtils(info, voter);
    var c := StratCutoffs(info, voter);
    var s2 := info[RunnerUp(info)].Floor;
    assert info[RunnerUp(info)] <= info[Leader(info)];
    forall i | 0 <= i < |voter|
      ensures 0 <= r.extraStrat.value[i] <= 10
      ensures voter[i] == f.0 ==> r.extraStrat.value[i] == 4
      ensures voter[i] == f.1 ==> r.extraStrat.value[i] == 0
    {
      ExtraGradeFacts(voter[i], f);
    }
    forall i, j | 0 <= i < |voter| && 0 <= j < |voter| && voter[i] <= voter[j]
      ensures r.strat[i] <= r.strat[j]
    {
      VoteForMonotone(c, voter[i], voter[j]);
    }
    forall i | 0 <= i < |voter| && voter[i] == f.1 && 0 <= s2 < 4
      ensures r.strat[i] <= s2
    {
      assert c[s2] == f.1;
    }
  }

  /** The tied case votes all-or-nothing at the frontrunners' utility, in both ballots. */
  lemma StratBallotTied(info: seq<real>, voter: seq<real>)
    requires FrontKnown(info, voter) && voter[Leader(info)] == voter[RunnerUp(info)]
    ensures var r := StratBallot(info, voter);
      && r.strat == Approve(voter, voter[Leader(info)], 4)
      && r.extraStrat == Some(r.strat) && r.isStrat
  {
  }

  // ---------------------------------------------------------------------
  // candScore

  /** The end of the run of `base` grades starting at `i`. */
  function RunEnd(s: seq<int>, i: nat, base: int): (j: nat)
    requires i <= |s|
    ensures i <= j <= |s|
    ensures forall k :: i <= k < j ==> s[k] == base
    ensures j < |s| ==> s[j] != base
    ensures i < |s| && s[i] == base ==> i < j
    decreases |s| - i
  {
    if i < |s| && s[i] == base then RunEnd(s, i + 1, base) else i
  }

  /** The median index `int((nvot - 1) / 2)` of a non-empty column. */
  function MedianIndex(n: nat): (i: nat)
    requires n > 0
    ensures i < n && 2 * i <= n - 1 < 2 * i + 2
  {
    (n - 1) / 2
  }

  /** `max((base + 0.5) - (i - n/2) * 5 / n, base - (i - n/2) / n)`. */
  function Smoothed(base: int, i: nat, n: nat): real
    requires n > 0
  {
    var upper := (base as real + 0.5) - (i as real - n as real / 2.0) * 5.0 / n as real;
    var lower := base as real - (i as real - n as real / 2.0) / n as real;
    if upper >= lower then upper else lower
  }

  /** When the run ends at or past the middle and no later than the end, the smoothing moves by at most half a grade. */
  lemma SmoothedBounds(base: int, i: nat, n: nat)
    requires n > 0 && n <= 2 * i && i <= n
    ensures base as real - 0.5 <= Smoothed(base, i, n) <= base as real + 0.5
  {
    var nr := n as real;
    var d := i as real - nr / 2.0;
    assert 0.0 <= d <= nr / 2.0;
    DivNonNeg(d * 5.0, nr);
    DivMono(d, nr / 2.0, nr);
    DivCancel(0.5, nr);
    DivNonNeg(d, nr);
  }

  /**
   * Mav.candScore as a formula: the smoothing of the median grade of the
   * sorted column by where the median's run ends.
   */
  function MavScore(scores: seq<int>): (r: real)
    requires |scores| > 0
  {
    var s := SortGrades(scores);
    var n := |s|;
    var base := s[MedianIndex(n)];
    Smoothed(base, RunEnd(s, MedianIndex(n), base), n)
  }

  /** The median grade of a column. */
  function Median(scores: seq<int>): int
    requires |scores| > 0
  {
    SortGrades(scores)[MedianIndex(|scores|)]
  }

  /** A Mav score lies within half a grade of the median. */
  lemma MavScoreNearMedian(scores: seq<int>)
    requires |scores| > 0
    ensures Median(scores) as real - 0.5 <= MavScore(scores) <= Median(scores) as real + 0.5
  {
    var s := SortGrades(scores);
    var m := MedianIndex(|s|);
    SmoothedBounds(s[m], RunEnd(s, m, s[m]), |s|);
  }

  /** Mav.candScore: sort, then walk up the median's run with `i`. */
  method CandScore(scores: seq<int>) returns (r: real)
    requires |scores| > 0
    ensures r == MavScore(scores)
  {
    var s := SortGrades(scores);
    var nvot := |s|;
    var i := MedianIndex(nvot);
    var base := s[i];
    ghost var start := i;
    while i < nvot && s[i] == base
      invariant start <= i <= nvot
      invariant RunEnd(s, i, base) == RunEnd(s, start, base)
    {
      i := i + 1;
    }
    var upper := (base as real + 0.5) - (i as real - nvot as real / 2.0) * 5.0 / nvot as real;
    var lower := base as real - (i as real - nvot as real / 2.0) / nvot as real;
    r := if upper >= lower then upper else lower;
  }

  lemma MavScoreOfDistinct()
    ensures MavScore([1, 2, 3, 4, 5]) == 3.0
  {
    var s := [1, 2, 3, 4, 5];
    SortedColumn(s);
    assert RunEnd(s, 2, 3) == 3;
  }

  lemma MavScoreOfRun()
    ensures MavScore([1, 2, 3, 3, 5]) == 27.0 / 10.0
  {
    var s := [1, 2, 3, 3, 5];
    SortedColumn(s);
    assert RunEnd(s, 2, 3) == 4;
  }

  lemma MavScoreOfTopRun()
    ensures MavScore([1, 2, 3, 3, 3]) == 25.0 / 10.0
  {
    var s := [1, 2, 3, 3, 3];
    assert NonDecreasing(s);
    SortedColumn(s);
    assert RunEnd(s, 5, 3) == 5;
    assert RunEnd(s, 2, 3) == 5;
  }

  lemma MavScoreOfEven()
    ensures MavScore([1, 2, 3, 4]) == 25.0 / 10.0
  {
    var s := [1, 2, 3, 4];
    assert NonDecreasing(s);
    SortedColumn(s);
    assert RunEnd(s, 2, 2) == 2;
    assert RunEnd(s, 1, 2) == 2;
    SmoothedAtMiddle(2, 4);
  }

  /** A run ending exactly at the middle of an even column scores base + 0.5. */
  lemma SmoothedAtMiddle(base: int, n: nat)
    requires n > 0 && n % 2 == 0
    ensures Smoothed(base, n / 2, n) == base as real + 0.5
  {
    assert (n / 2) as real == n as real / 2.0;
  }

  lemma MavScoreOfEvenSplit()
    ensures MavScore([1, 2, 3, 3]) == 25.0 / 10.0
  {
    var s := [1, 2, 3, 3];
    assert NonDecreasing(s);
    SortedColumn(s);
    assert RunEnd(s, 2, 2) == 2;
    assert RunEnd(s, 1, 2) == 2;
    SmoothedAtMiddle(2, 4);
  }

  lemma MavScoreOfEvenRun()
    ensures MavScore([1, 2, 2, 2]) == 15.0 / 10.0
  {
    var s := [1, 2, 2, 2];
    assert NonDecreasing(s);
    SortedColumn(s);
    assert RunEnd(s, 4, 2) == 4;
    assert RunEnd(s, 1, 2) == 4;
  }

  /** Sorting an already sorted column changes nothing. */
  lemma SortedColumn(s: seq<int>)
    requires NonDecreasing(s)
    ensures SortGrades(s) == s
  {
    SortGradesUnique(SortGrades(s), s);
  }

  /** Two nondecreasing sequences with the same elements are equal. */
  lemma {:induction false} SortGradesUnique(a: seq<int>, b: seq<int>)
    requires NonDecreasing(a) && NonDecreasing(b) && multiset(a) == multiset(b)
    ensures a == b
    decreases |a|
  {
    if |a| == 0 {
      assert |b| == |multiset(b)| == 0;
    } else {
      assert |b| == |multiset(b)| == |a|;
      MinFirst(a, b[0]);
      MinFirst(b, a[0]);
      assert a[0] == b[0];
      assert a == [a[0]] + a[1..] && b == [b[0]] + b[1..];
      assert multiset(a[1..]) == multiset(a) - multiset{a[0]};
      assert multiset(b[1..]) == multiset(b) - multiset{b[0]};
      SortGradesUnique(a[1..], b[1..]);
    }
  }

  /** In a nondecreasing sequence the first element is at most every element. */
  lemma MinFirst(a: seq<int>, x: int)
    requires NonDecreasing(a) && |a| > 0 && x in multiset(a)
    ensures a[0] <= x
  {
    var i :| 0 <= i < |a| && a[i] == x;
  }

  // ---------------------------------------------------------------------
  // Doctests of the honest and strategic ballots

  lemma HonBallotExampleShort(u: seq<real>)
    requires |u| == 3 && u[0] == -1.0 && u[1] == -0.5 && u[2] == 0.5
    ensures HonBallot(u) == [0, 1, 4]
  {
    MaxOfAt(u, 2);
    var c := HonCutoffs(u);
    VoteForUnique(c, -1.0, 0);
    VoteForUnique(c, -0.5, 1);
    VoteForUnique(c, 0.5, 4);
  }

  lemma HonBallotExampleLong(w: seq<real>)
    requires |w| == 5 && w[0] == -1.0 && w[1] == -0.5 && w[2] == 0.5 && w[3] == 1.0 && w[4] == 1.1
    ensures HonBallot(w) == [0, 1, 2, 3, 4]
  {
    MaxOfAt(w, 4);
    var d := HonCutoffs(w);
    VoteForUnique(d, -1.0, 0);
    VoteForUnique(d, -0.5, 1);
    VoteForUnique(d, 0.5, 2);
    VoteForUnique(d, 1.0, 3);
    VoteForUnique(d, 1.1, 4);
  }
}
