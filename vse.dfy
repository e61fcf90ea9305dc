/**
 * Voter satisfaction efficiency, as Method.vseOn in dataClasses.py scores
 * one run: the social utility of the run's winner, measured on the scale
 * where the mean social utility (a random winner) is 0 and the best is 1.
 */
module Vse {
  import opened Seqs
  import opened Framework
  import IrvCount

  /**
   * A run's efficiency. Where every candidate has the same social utility
   * the mean is the best, and numpy's 0/0 gives nan: Undefined.
   */
  datatype Efficiency = Undefined | Efficiency(value: real)

  /** `(utils[w] - rand) / (best - rand)`, with best the largest and rand the mean social utility. */
  function Eff(utils: seq<real>, w: nat): Efficiency
    requires w < |utils|
  {
    var best, rand := MaxOf(utils), Mean(utils);
    if best == rand then Undefined else Efficiency((utils[w] - rand) / (best - rand))
  }

  /**
   * One run of vseOn: the winner of the run's results (the injected draw
   * breaking ties), scored on the social utilities. None where Python
   * raises: no results to take the maximum of, or a winner with no social
   * utility.
   */
  function RunVse(utils: seq<real>, results: seq<real>, draw: nat): Option<Efficiency>
  {
    if |results| == 0 then None
    else
      var w := Winner(Nums(results), draw);
      if w < |utils| then Some(Eff(utils, w)) else None
  }

  /** Every run scored, the k-th with the k-th injected draw; None where any run raises. */
  function VseAll(utils: seq<real>, runs: seq<seq<real>>, draws: seq<nat>, k: nat): (r: Option<seq<Efficiency>>)
    requires k <= |runs|
    ensures r.Some? <==> forall i :: k <= i < |runs| ==> RunVse(utils, runs[i], IrvCount.Draw(draws, i)).Some?
    ensures r.Some? ==>
      |r.value| == |runs| - k && forall i :: k <= i < |runs| ==> r.value[i - k] == RunVse(utils, runs[i], IrvCount.Draw(draws, i)).value
    decreases |runs| - k
  {
    if k == |runs| then Some([])
    else
      match RunVse(utils, runs[k], IrvCount.Draw(draws, k))
      case None => None
      case Some(e) =>
        match VseAll(utils, runs, draws, k + 1)
        case None => None
        case Some(es) => Some([e] + es)
  }

  // ---------------------------------------------------------------------
  // The mean against the best

  /** `a / d` against 0 and 1 for a positive d. */
  lemma Quotient(a: real, d: real)
    requires d > 0.0
    ensures a <= d ==> a / d <= 1.0
    ensures a / d == 1.0 <==> a == d
    ensures a / d >= 0.0 <==> a >= 0.0
  {
    assert (a / d) * d == a;
  }

  /** `s / n` against a bound x, for a positive n. */
  lemma Average(s: real, n: real, x: real)
    requires n > 0.0
    ensures s <= n * x ==> s / n <= x
    ensures s < n * x ==> s / n < x
    ensures s == n * x ==> s / n == x
  {
    assert (s / n) * n == s;
  }

  /** One more term of at most h raises a bound m * h by at most h. */
  lemma OneMore(m: real, h: real)
    ensures (m + 1.0) * h == m * h + h
  {
  }

  /** A sum below its bound wherever one term is strictly below it. */
  lemma {:induction false} SumStrict(xs: seq<real>, lo: real, hi: real, k: nat)
    requires k < |xs| && xs[k] < hi && forall i :: 0 <= i < |xs| ==> lo <= xs[i] <= hi
    ensures Sum(xs) < |xs| as real * hi
  {
    var front, last := xs[..|xs| - 1], xs[|xs| - 1];
    var m := |front| as real;
    assert forall i :: 0 <= i < |front| ==> front[i] == xs[i];
    assert Sum(xs) == Sum(front) + last && |xs| as real == m + 1.0;
    OneMore(m, hi);
    assert |xs| as real * hi == m * hi + hi;
    if k == |xs| - 1 {
      SumBounds(front, lo, hi);
    } else {
      SumStrict(front, lo, hi, k);
    }
    AddStrict(Sum(front), m * hi, last, hi);
  }

  /** Two sums of bounded terms, one of them strictly below its bound. */
  lemma AddStrict(a: real, b: real, c: real, d: real)
    requires a <= b && c <= d && (a < b || c < d)
    ensures a + c < b + d
  {
  }

  // The bounds below take lo and hi as parameters: a product with MaxOf or
  // MinOf itself in it sends the solver unfolding those functions.

  /** A mean below every upper bound of its values. */
  lemma MeanAtMost(xs: seq<real>, lo: real, hi: real)
    requires |xs| > 0 && forall i :: 0 <= i < |xs| ==> lo <= xs[i] <= hi
    ensures Mean(xs) <= hi
  {
    SumBounds(xs, lo, hi);
    Average(Sum(xs), |xs| as real, hi);
  }

  /** The mean of equal values is that value. */
  lemma MeanFlat(xs: seq<real>, x: real)
    requires |xs| > 0 && forall i :: 0 <= i < |xs| ==> xs[i] == x
    ensures Mean(xs) == x
  {
    SumBounds(xs, x, x);
    Average(Sum(xs), |xs| as real, x);
  }

  /** A mean strictly below an upper bound that some value falls short of. */
  lemma MeanBelow(xs: seq<real>, lo: real, hi: real, k: nat)
    requires k < |xs| && xs[k] < hi && forall i :: 0 <= i < |xs| ==> lo <= xs[i] <= hi
    ensures Mean(xs) < hi
  {
    SumStrict(xs, lo, hi, k);
    Average(Sum(xs), |xs| as real, hi);
  }

  /** The mean is at most the best, and reaches it only when every value is the best. */
  lemma MeanBelowBest(xs: seq<real>)
    requires |xs| > 0
    ensures Mean(xs) <= MaxOf(xs)
    ensures Mean(xs) == MaxOf(xs) <==> forall i :: 0 <= i < |xs| ==> xs[i] == MaxOf(xs)
  {
    MeanAtMost(xs, MinOf(xs), MaxOf(xs));
    if forall i :: 0 <= i < |xs| ==> xs[i] == MaxOf(xs) {
      MeanFlat(xs, MaxOf(xs));
    } else {
      var k :| 0 <= k < |xs| && xs[k] != MaxOf(xs);
      MeanBelow(xs, MinOf(xs), MaxOf(xs), k);
    }
  }

  // ---------------------------------------------------------------------
  // What the efficiency of a winner says

  /** The efficiency is undefined exactly when all candidates have the same social utility. */
  lemma UndefinedIffFlat(utils: seq<real>, w: nat)
    requires w < |utils|
    ensures Eff(utils, w).Undefined? <==> forall c :: 0 <= c < |utils| ==> utils[c] == utils[w]
  {
    MeanBelowBest(utils);
    if forall c :: 0 <= c < |utils| ==> utils[c] == utils[w] {
      MaxOfAt(utils, w);
    }
  }

  /** At most 1, and exactly 1 when the winner has the best social utility. */
  lemma AtMostOne(utils: seq<real>, w: nat)
    requires w < |utils| && Eff(utils, w).Efficiency?
    ensures Eff(utils, w).value <= 1.0
    ensures Eff(utils, w).value == 1.0 <==> utils[w] == MaxOf(utils)
  {
    var best, rand := MaxOf(utils), Mean(utils);
    MeanBelowBest(utils);
    Quotient(utils[w] - rand, best - rand);
  }

  /** At least 0 exactly when the winner is at least as good as a random candidate on average. */
  lemma NonNegativeIffAboveMean(utils: seq<real>, w: nat)
    requires w < |utils| && Eff(utils, w).Efficiency?
    ensures Eff(utils, w).value >= 0.0 <==> utils[w] >= Mean(utils)
  {
    var best, rand := MaxOf(utils), Mean(utils);
    MeanBelowBest(utils);
    Quotient(utils[w] - rand, best - rand);
  }

  /** The winner the efficiency is measured on heads the results. */
  lemma WinnerHeads(utils: seq<real>, results: seq<real>, draw: nat)
    requires RunVse(utils, results, draw).Some?
    ensures var w := Winner(Nums(results), draw);
      w < |results| && w < |utils| && RunVse(utils, results, draw) == Some(Eff(utils, w))
      && forall c :: 0 <= c < |results| ==> results[c] <= results[w]
  {
  }
}
