/**
 * Plurality (methods.py): a ballot is a one-hot vote; honest voters vote
 * for their favourite, strategic voters for whichever of the two poll
 * frontrunners they like better.
 */
module Plurality {
  import opened Seqs
  import opened Framework

  /** The ballot with a single 1 at `forWhom` and 0 everywhere else. */
  function OneHot(n: nat, forWhom: nat): (b: seq<int>)
    requires forWhom < n
    ensures |b| == n && b[forWhom] == 1
    ensures forall i :: 0 <= i < n && i != forWhom ==> b[i] == 0
  {
    seq(n, i requires 0 <= i < n => if i == forWhom then 1 else 0)
  }

  function IntSum(xs: seq<int>): int
  {
    if |xs| == 0 then 0 else IntSum(xs[..|xs| - 1]) + xs[|xs| - 1]
  }

  /** A vector that is 0 except at `w`, where it is `v`, sums to `v` (or 0 if `w` is out of reach). */
  lemma {:induction false} SingleEntrySum(xs: seq<int>, w: nat, v: int)
    requires forall i :: 0 <= i < |xs| ==> xs[i] == if i == w then v else 0
    ensures IntSum(xs) == if w < |xs| then v else 0
  {
    if |xs| > 0 {
      var init := xs[..|xs| - 1];
      SingleEntrySum(init, w, v);
    }
  }

  /** A plurality ballot casts exactly one vote, and only for a real candidate. */
  lemma OneHotCastsOneVote(n: nat, forWhom: nat)
    requires forWhom < n
    ensures IntSum(OneHot(n, forWhom)) == 1
    ensures forall i :: 0 <= i < n ==> 0 <= OneHot(n, forWhom)[i] <= 1
  {
    SingleEntrySum(OneHot(n, forWhom), forWhom, 1);
  }

  /** Plurality.oneVote: a zero ballot with one slot set to 1. */
  method OneVote(n: nat, forWhom: nat) returns (b: seq<int>)
    requires forWhom < n
    ensures b == OneHot(n, forWhom)
  {
    var ballot := new int[n](i => 0);
    ballot[forWhom] := 1;
    b := ballot[..];
  }

  /** Plurality.honBallot: vote for the candidate `winner` picks from the voter's utilities. */
  function HonBallot(utils: seq<real>, draw: nat): (b: seq<int>)
    requires |utils| > 0
    ensures |b| == |utils|
    ensures exists w :: 0 <= w < |utils| && b == OneHot(|utils|, w) && forall c :: 0 <= c < |utils| ==> utils[c] <= utils[w]
  {
    var w := Winner(Nums(utils), draw);
    OneHot(|utils|, w)
  }

  /** The frontrunner a strategic plurality voter supports: the runner-up only if strictly preferred. */
  function StratChoice(info: seq<real>, voter: seq<real>): nat
    requires FrontKnown(info, voter)
  {
    var lead := Leader(info);
    var second := RunnerUp(info);
    if voter[second] - voter[lead] <= 0.0 then lead else second
  }

  /** Plurality.stratBallotFor(info) applied to a voter: the dict of strat, isStrat and stratGap. */
  function StratBallot(info: seq<real>, voter: seq<real>): (r: StratRecord)
    requires FrontKnown(info, voter)
    ensures r.stratGap == voter[RunnerUp(info)] - voter[Leader(info)]
    ensures r.isStrat <==> voter[RunnerUp(info)] > voter[Leader(info)]
    ensures r.extraStrat.None?
    ensures r.strat == OneHot(|voter|, StratChoice(info, voter))
  {
    var gap := voter[RunnerUp(info)] - voter[Leader(info)];
    var choice := StratChoice(info, voter);
    StratRecord(OneHot(|voter|, choice), None, gap > 0.0, gap)
  }

  /**
   * The strategic vote always goes to one of the two frontrunners, it goes
   * to the one the voter likes at least as well, and it goes against the
   * poll leader exactly when the voter strictly prefers the runner-up.
   */
  lemma StratVotesForPreferredFrontrunner(info: seq<real>, voter: seq<real>)
    requires FrontKnown(info, voter)
    ensures var c := StratChoice(info, voter);
      && (c == Leader(info) || c == RunnerUp(info))
      && voter[c] >= voter[Leader(info)] && voter[c] >= voter[RunnerUp(info)]
      && (c == RunnerUp(info) <==> voter[RunnerUp(info)] > voter[Leader(info)])
      && (c == RunnerUp(info) <==> StratBallot(info, voter).isStrat)
  {
  }

  lemma HonBallotExample(draw: nat)
    ensures HonBallot([-3.0, -2.0, -1.0], draw) == [0, 0, 1]
  {
    var u := [-3.0, -2.0, -1.0];
    var a := Nums(u);
    var w := Winner(a, draw);
    assert a[2].value <= a[w].value;
    assert w == 2;
    assert OneHot(3, 2) == [0, 0, 1];
  }

  lemma StratBallotExample()
    ensures StratBallot([3.0, 2.0, 1.0], [-3.0, -2.0, -1.0]).strat == [0, 1, 0]
  {
    var info := [3.0, 2.0, 1.0];
    var l := Leader(info);
    assert info[0] <= info[l];
    assert l == 0;
    var s := RunnerUp(info);
    assert info[1] <= info[s];
    assert s == 1;
    assert OneHot(3, 1) == [0, 1, 0];
  }
}
