/**
 * Score voting 0-10 (methods.py). Honest ballots stretch the voter's
 * utilities linearly onto 0..10 and floor them; strategic ballots stretch
 * the gap between the two poll frontrunners instead and clamp the rest.
 */
module Score {
  import opened Seqs
  import opened Framework
  import Voters

  /** The stretch factor 10.99 of methods.py, so that the top utility floors to 10. */
  const Stretch: real := 1099.0 / 100.0

  /** `floor(10.99 * (util - lo) / (hi - lo))`. */
  function Stretched(util: real, lo: real, hi: real): int
    requires lo != hi
  {
    (Stretch * (util - lo) / (hi - lo)).Floor
  }

  /** Between the two reference utilities, the stretched value is on 0..10.99, 0 at `lo` and 10.99 at `hi`. */
  lemma StretchRange(util: real, lo: real, hi: real)
    requires lo < hi && lo <= util <= hi
    ensures 0.0 <= Stretch * (util - lo) / (hi - lo) <= Stretch
    ensures util == lo ==> Stretch * (util - lo) / (hi - lo) == 0.0
    ensures util == hi ==> Stretch * (util - lo) / (hi - lo) == Stretch
  {
    DivMono(0.0, Stretch * (util - lo), hi - lo);
    DivMono(Stretch * (util - lo), Stretch * (hi - lo), hi - lo);
    DivCancel(Stretch, hi - lo);
  }

  /** Between the two reference utilities, the stretched grade is on 0..10, 0 at `lo` and 10 at `hi`. */
  lemma StretchedBetween(util: real, lo: real, hi: real)
    requires lo < hi && lo <= util <= hi
    ensures 0 <= Stretched(util, lo, hi) <= 10
    ensures util == lo ==> Stretched(util, lo, hi) == 0
    ensures util == hi ==> Stretched(util, lo, hi) == 10
  {
    StretchRange(util, lo, hi);
    var x := Stretch * (util - lo) / (hi - lo);
    assert Stretched(util, lo, hi) == x.Floor;
  }

  /** A higher utility never gets a lower stretched grade. */
  lemma StretchedMonotone(u: real, v: real, lo: real, hi: real)
    requires lo < hi && u <= v
    ensures Stretched(u, lo, hi) <= Stretched(v, lo, hi)
  {
    DivMono(Stretch * (u - lo), Stretch * (v - lo), hi - lo);
  }

  /**
   * Score.honBallot: the utilities stretched from the voter's minimum to
   * maximum. Every grade is on 0..10, the least-liked candidates get 0, the
   * best-liked 10, and the order of the utilities is kept.
   */
  function HonBallot(utils: seq<real>): (b: seq<int>)
    requires |utils| > 0 && MinOf(utils) < MaxOf(utils)
    ensures |b| == |utils|
    ensures forall i :: 0 <= i < |b| ==> 0 <= b[i] <= 10
    ensures forall i :: 0 <= i < |b| && utils[i] == MinOf(utils) ==> b[i] == 0
    ensures forall i :: 0 <= i < |b| && utils[i] == MaxOf(utils) ==> b[i] == 10
    ensures forall i, j :: 0 <= i < |b| && 0 <= j < |b| && utils[i] <= utils[j] ==> b[i] <= b[j]
  {
    var lo, hi := MinOf(utils), MaxOf(utils);
    var b := seq(|utils|, i requires 0 <= i < |utils| => Stretched(utils[i], lo, hi));
    assert forall i :: 0 <= i < |b| ==>
      (0 <= b[i] <= 10 && (utils[i] == lo ==> b[i] == 0) && (utils[i] == hi ==> b[i] == 10)) by {
      forall i | 0 <= i < |b|
        ensures 0 <= b[i] <= 10 && (utils[i] == lo ==> b[i] == 0) && (utils[i] == hi ==> b[i] == 10)
      {
        StretchedBetween(utils[i], lo, hi);
      }
    }
    assert forall i, j :: 0 <= i < |b| && 0 <= j < |b| && utils[i] <= utils[j] ==> b[i] <= b[j] by {
      forall i, j | 0 <= i < |b| && 0 <= j < |b| && utils[i] <= utils[j]
        ensures b[i] <= b[j]
      {
        StretchedMonotone(utils[i], utils[j], lo, hi);
      }
    }
    b
  }

  function Clamp(k: int): (g: int)
    ensures 0 <= g <= 10
    ensures 0 <= k <= 10 ==> g == k
  {
    if k < 0 then 0 else if k > 10 then 10 else k
  }

  /**
   * The two cut utilities: the voter's utility for the frontrunner they
   * prefer first (the runner-up only when strictly preferred), then the other.
   */
  function Cuts(info: seq<real>, voter: seq<real>): (c: (real, real))
    requires FrontKnown(info, voter)
    ensures c.0 >= c.1
    ensures {c.0, c.1} == {voter[Leader(info)], voter[RunnerUp(info)]}
  {
    var lead, second := voter[Leader(info)], voter[RunnerUp(info)];
    if second - lead <= 0.0 then (lead, second) else (second, lead)
  }

  /** One strategic grade: all-or-nothing when the cuts coincide, else stretched between them and clamped. */
  function StratGrade(util: real, cuts: (real, real)): int
  {
    if cuts.0 == cuts.1 then (if util >= cuts.0 then 10 else 0)
    else Clamp(Stretched(util, cuts.1, cuts.0))
  }

  /** Score.stratBallotFor(info) applied to a voter. */
  function StratBallot(info: seq<real>, voter: seq<real>): (r: StratRecord)
    requires FrontKnown(info, voter)
    ensures r.stratGap == voter[RunnerUp(info)] - voter[Leader(info)]
    ensures r.isStrat <==> voter[RunnerUp(info)] > voter[Leader(info)]
    ensures r.extraStrat.None?
    ensures |r.strat| == |voter| && forall i :: 0 <= i < |voter| ==> r.strat[i] == StratGrade(voter[i], Cuts(info, voter))
  {
    var gap := voter[RunnerUp(info)] - voter[Leader(info)];
    var cuts := Cuts(info, voter);
    StratRecord(seq(|voter|, i requires 0 <= i < |voter| => StratGrade(voter[i], cuts)), None, gap > 0.0, gap)
  }

  /**
   * The strategic ballot: every grade is on 0..10 and follows the voter's
   * utilities; when the frontrunners' utilities differ, the preferred one
   * gets 10 and the other 0; when they are equal, a candidate gets 10
   * exactly when liked at least as much as they are.
   */
  lemma StratBallotGrades(info: seq<real>, voter: seq<real>)
    requires FrontKnown(info, voter)
    ensures var b, lead, second := StratBallot(info, voter).strat, Leader(info), RunnerUp(info);
      && (forall i :: 0 <= i < |voter| ==> 0 <= b[i] <= 10)
      && (forall i, j :: 0 <= i < |voter| && 0 <= j < |voter| && voter[i] <= voter[j] ==> b[i] <= b[j])
      && (voter[lead] > voter[second] ==> b[lead] == 10 && b[second] == 0)
      && (voter[lead] < voter[second] ==> b[second] == 10 && b[lead] == 0)
      && (voter[lead] == voter[second] ==> forall i :: 0 <= i < |voter| ==> b[i] == if voter[i] >= voter[lead] then 10 else 0)
  {
    var cuts := Cuts(info, voter);
    var b := StratBallot(info, voter).strat;
    if cuts.0 != cuts.1 {
      StretchedBetween(cuts.0, cuts.1, cuts.0);
      StretchedBetween(cuts.1, cuts.1, cuts.0);
      forall i, j | 0 <= i < |voter| && 0 <= j < |voter| && voter[i] <= voter[j]
        ensures b[i] <= b[j]
      {
        StretchedMonotone(voter[i], voter[j], cuts.1, cuts.0);
      }
    }
  }

  lemma HonBallotExample()
    ensures HonBallot([5.0, 6.0, 7.0]) == [0, 5, 10]
  {
    var u := [5.0, 6.0, 7.0];
    MinOfAt(u, 0);
    MaxOfAt(u, 2);
    assert Stretched(6.0, 5.0, 7.0) == 5;
  }

  /** A voter whose utilities are 0, 1 and 2 in some order grades them 0, 5 and 10. */
  lemma HonBallotOfRotation(u: seq<real>, i0: nat, i1: nat, i2: nat)
    requires |u| == 3 && i0 < 3 && i1 < 3 && i2 < 3 && i0 != i1 && i1 != i2 && i0 != i2
    requires u[i0] == 0.0 && u[i1] == 1.0 && u[i2] == 2.0
    ensures MinOf(u) < MaxOf(u)
    ensures |HonBallot(u)| == 3 && forall c :: 0 <= c < 3 ==> HonBallot(u)[c] as real == 5.0 * u[c]
  {
    MinOfAt(u, i0);
    MaxOfAt(u, i2);
    assert Stretched(1.0, 0.0, 2.0) == 5;
  }

  /** The mean of five grades. */
  lemma MeanOfFive(col: seq<int>)
    requires |col| == 5
    ensures MeanScore(col) == (col[0] + col[1] + col[2] + col[3] + col[4]) as real / 5.0
  {
    var x := ToReals(col);
    assert Sum(x[..1]) == x[0] by { assert x[..1][..0] == []; }
    assert Sum(x[..2]) == x[0] + x[1] by { assert x[..2][..1] == x[..1]; }
    assert Sum(x[..3]) == x[0] + x[1] + x[2] by { assert x[..3][..2] == x[..2]; }
    assert Sum(x[..4]) == x[0] + x[1] + x[2] + x[3] by { assert x[..4][..3] == x[..3]; }
    assert x[..5] == x;
  }

  /** Column c of five three-candidate ballots scores their mean grade for c. */
  lemma ColumnMean(bs: seq<seq<int>>, c: nat)
    requires |bs| == 5 && (forall k :: 0 <= k < 5 ==> |bs[k]| == 3) && c < 3
    ensures |Results(bs, MeanScore)| == 3
    ensures Results(bs, MeanScore)[c] == (bs[0][c] + bs[1][c] + bs[2][c] + bs[3][c] + bs[4][c]) as real / 5.0
  {
    ResultsShape(bs, 3, MeanScore, c);
    MeanOfFive(seq(5, k requires 0 <= k < 5 => bs[k][c]));
  }

  /** Ballots grading five times the rotating utilities average 4, 6 and 5. */
  lemma RotationMeans(voters: seq<seq<real>>, bs: seq<seq<int>>)
    requires |voters| == 5 && forall j :: 0 <= j < 5 ==> |voters[j]| == 3
    requires voters[0][0] == 0.0 && voters[0][1] == 1.0 && voters[0][2] == 2.0
    requires voters[1][0] == 1.0 && voters[1][1] == 2.0 && voters[1][2] == 0.0
    requires voters[2][0] == 2.0 && voters[2][1] == 0.0 && voters[2][2] == 1.0
    requires voters[3][0] == 0.0 && voters[3][1] == 1.0 && voters[3][2] == 2.0
    requires voters[4][0] == 1.0 && voters[4][1] == 2.0 && voters[4][2] == 0.0
    requires |bs| == 5 && forall k :: 0 <= k < 5 ==> |bs[k]| == 3
    requires forall k, c :: 0 <= k < 5 && 0 <= c < 3 ==> bs[k][c] as real == 5.0 * voters[k][c]
    ensures Results(bs, MeanScore) == [4.0, 6.0, 5.0]
  {
    ColumnMean(bs, 0);
    ColumnMean(bs, 1);
    ColumnMean(bs, 2);
  }

  /** The utilities of `DeterministicModel(3)(5,3)` as reals: each voter rotates 0, 1 and 2 one place further. */
  lemma RotationUtils(voters: seq<seq<real>>)
    requires |voters| == 5 && forall j :: 0 <= j < 5 ==> voters[j] == ToReals(Voters.DeterministicUtils(3, 5, 3)[j])
    ensures forall j :: 0 <= j < 5 ==> |voters[j]| == 3
    ensures voters[0][0] == 0.0 && voters[0][1] == 1.0 && voters[0][2] == 2.0
    ensures voters[1][0] == 1.0 && voters[1][1] == 2.0 && voters[1][2] == 0.0
    ensures voters[2][0] == 2.0 && voters[2][1] == 0.0 && voters[2][2] == 1.0
    ensures voters[3][0] == 0.0 && voters[3][1] == 1.0 && voters[3][2] == 2.0
    ensures voters[4][0] == 1.0 && voters[4][1] == 2.0 && voters[4][2] == 0.0
  {
    Voters.DeterministicFive();
  }

  /** Each rotating voter grades five times its utility. */
  lemma RotationGrades(voters: seq<seq<real>>)
    requires |voters| == 5 && forall j :: 0 <= j < 5 ==> |voters[j]| == 3
    requires voters[0][0] == 0.0 && voters[0][1] == 1.0 && voters[0][2] == 2.0
    requires voters[1][0] == 1.0 && voters[1][1] == 2.0 && voters[1][2] == 0.0
    requires voters[2][0] == 2.0 && voters[2][1] == 0.0 && voters[2][2] == 1.0
    requires voters[3][0] == 0.0 && voters[3][1] == 1.0 && voters[3][2] == 2.0
    requires voters[4][0] == 1.0 && voters[4][1] == 2.0 && voters[4][2] == 0.0
    ensures forall j :: 0 <= j < 5 ==> |voters[j]| > 0 && MinOf(voters[j]) < MaxOf(voters[j])
    ensures forall j :: 0 <= j < 5 ==> |HonBallot(voters[j])| == 3
    ensures forall j, c :: 0 <= j < 5 && 0 <= c < 3 ==> HonBallot(voters[j])[c] as real == 5.0 * voters[j][c]
  {
    forall j | 0 <= j < 5
      ensures |voters[j]| > 0 && MinOf(voters[j]) < MaxOf(voters[j])
      ensures |HonBallot(voters[j])| == 3
      ensures forall c :: 0 <= c < 3 ==> HonBallot(voters[j])[c] as real == 5.0 * voters[j][c]
    {
      if j % 3 == 0 {
        HonBallotOfRotation(voters[j], 0, 1, 2);
      } else if j % 3 == 1 {
        HonBallotOfRotation(voters[j], 2, 0, 1);
      } else {
        HonBallotOfRotation(voters[j], 1, 2, 0);
      }
    }
  }

  /** The rotating voters' honest ballots average 4, 6 and 5. */
  lemma RotationResults(voters: seq<seq<real>>)
    requires |voters| == 5 && forall j :: 0 <= j < 5 ==> |voters[j]| == 3
    requires voters[0][0] == 0.0 && voters[0][1] == 1.0 && voters[0][2] == 2.0
    requires voters[1][0] == 1.0 && voters[1][1] == 2.0 && voters[1][2] == 0.0
    requires voters[2][0] == 2.0 && voters[2][1] == 0.0 && voters[2][2] == 1.0
    requires voters[3][0] == 0.0 && voters[3][1] == 1.0 && voters[3][2] == 2.0
    requires voters[4][0] == 1.0 && voters[4][1] == 2.0 && voters[4][2] == 0.0
    ensures forall j :: 0 <= j < 5 ==> |voters[j]| > 0 && MinOf(voters[j]) < MaxOf(voters[j])
    ensures Results(seq(5, j requires 0 <= j < 5 => HonBallot(voters[j])), MeanScore) == [4.0, 6.0, 5.0]
  {
    RotationGrades(voters);
    var bs := seq(5, j requires 0 <= j < 5 => HonBallot(voters[j]));
    RotationMeans(voters, bs);
  }

  /**
   * The doctest `Score().resultsFor(DeterministicModel(3)(5,3), Score().honBallot)`:
   * the five rotating voters' honest ballots average 4, 6 and 5.
   */
  lemma ResultsForExample(voters: seq<seq<real>>)
    requires |voters| == 5 && forall j :: 0 <= j < 5 ==> voters[j] == ToReals(Voters.DeterministicUtils(3, 5, 3)[j])
    ensures forall j :: 0 <= j < 5 ==> |voters[j]| > 0 && MinOf(voters[j]) < MaxOf(voters[j])
    ensures Results(seq(5, j requires 0 <= j < 5 => HonBallot(voters[j])), MeanScore) == [4.0, 6.0, 5.0]
  {
    RotationUtils(voters);
    RotationResults(voters);
  }

  /** The pivot doctests: the frontrunners' gap is stretched over the whole 0..10 range. */
  lemma StratBallotPivotLow()
    ensures StratBallot([0.0, 1.0, 2.0], [5.0, 6.0, 7.0]).strat == [0, 0, 10]
  {
    TopTwo([0.0, 1.0, 2.0], 2, 1);
    var cuts := Cuts([0.0, 1.0, 2.0], [5.0, 6.0, 7.0]);
    assert cuts == (7.0, 6.0);
    assert Stretched(5.0, 6.0, 7.0) == -11;
    assert Stretched(6.0, 6.0, 7.0) == 0;
    assert Stretched(7.0, 6.0, 7.0) == 10;
  }

  lemma StratBallotPivotHigh()
    ensures StratBallot([2.0, 1.0, 0.0], [5.0, 6.0, 7.0]).strat == [0, 10, 10]
  {
    TopTwo([2.0, 1.0, 0.0], 0, 1);
    var cuts := Cuts([2.0, 1.0, 0.0], [5.0, 6.0, 7.0]);
    assert cuts == (6.0, 5.0);
    assert Stretched(5.0, 5.0, 6.0) == 0;
    assert Stretched(6.0, 5.0, 6.0) == 10;
    assert Stretched(7.0, 5.0, 6.0) == 21;
  }

  lemma StratBallotPivotMiddle()
    ensures StratBallot([1.0, 0.0, 2.0], [5.0, 6.0, 7.0]).strat == [0, 5, 10]
  {
    TopTwo([1.0, 0.0, 2.0], 2, 0);
    var cuts := Cuts([1.0, 0.0, 2.0], [5.0, 6.0, 7.0]);
    assert cuts == (7.0, 5.0);
    assert Stretched(5.0, 5.0, 7.0) == 0;
    assert Stretched(6.0, 5.0, 7.0) == 5;
    assert Stretched(7.0, 5.0, 7.0) == 10;
  }

  /** The tie doctests: equal frontrunner utilities give an all-or-nothing ballot. */
  lemma StratBallotTies()
    ensures StratBallot([1.0, 0.0, 2.0], [5.0, 6.0, 6.0]).strat == [0, 10, 10]
    ensures StratBallot([1.0, 0.0, 2.0], [6.0, 6.0, 7.0]).strat == [0, 0, 10]
    ensures StratBallot([1.0, 0.0, 2.0], [6.0, 7.0, 6.0]).strat == [10, 10, 10]
    ensures StratBallot([1.0, 0.0, 2.0], [6.0, 5.0, 6.0]).strat == [10, 0, 10]
  {
    TopTwo([1.0, 0.0, 2.0], 2, 0);
    assert Stretched(6.0, 6.0, 7.0) == 0;
  }
}
