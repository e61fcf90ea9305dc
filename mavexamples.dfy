/**
 * The doctests of the strategic Majority Approval ballot (methods.py),
 * each stated for any poll and voter equal to the doctest's values.
 */
module MavExamples {
  import opened Seqs
  import opened Framework
  import opened Mav

  /** The strategic cutoffs once the frontrunners, their floored poll scores and the top utility are known. */
  lemma StratCutoffsVia(info: seq<real>, voter: seq<real>, a: nat, b: nat, s1: int, s2: int, top: real)
    requires FrontKnown(info, voter) && Leader(info) == a && RunnerUp(info) == b
    requires info[a].Floor == s1 && info[b].Floor == s2 && MaxOf(voter) == top
    ensures StratCutoffs(info, voter) ==
      CutoffsFrom(if voter[b] - voter[a] < 0.0 then (voter[a], voter[b]) else (voter[b], voter[a]), s1, s2, top)
  {
  }

  /** Unequal frontrunner utilities: the strat ballot is each utility's vote under the strategic cutoffs. */
  lemma StratBallotVia(info: seq<real>, voter: seq<real>, expected: seq<int>)
    requires FrontKnown(info, voter) && voter[Leader(info)] != voter[RunnerUp(info)]
    requires |expected| == |voter| && forall i :: 0 <= i < |voter| ==> expected[i] == VoteFor(StratCutoffs(info, voter), voter[i])
    ensures StratBallot(info, voter).strat == expected
  {
  }

  /** The poll of the StratBallotComplacent example: its frontrunners and their floored scores. */
  lemma StratBallotComplacentPoll(info: seq<real>)
    requires |info| == 5 && info[0] == 0.0 && info[1] == 1.1 && info[2] == 1.9 && info[3] == 0.0 && info[4] == 0.0
    ensures Leader(info) == 2 && RunnerUp(info) == 1 && info[2].Floor == 1 && info[1].Floor == 1
  {
    TopTwo(info, 2, 1);
  }

  lemma StratBallotComplacentThresholds()
    ensures CutoffsFrom((0.5, -0.5), 1, 1, 2.0) == [-0.8, -0.5, 0.8, 1.6]
  {
    var c := CutoffsFrom((0.5, -0.5), 1, 1, 2.0);
    assert c[0] == -0.8 && c[1] == -0.5 && c[2] == 0.8 && c[3] == 1.6;
  }

  /** The cutoffs of the StratBallotComplacent example. */
  lemma StratBallotComplacentCutoffs(info: seq<real>, u: seq<real>)
    requires |info| == 5 && info[0] == 0.0 && info[1] == 1.1 && info[2] == 1.9 && info[3] == 0.0 && info[4] == 0.0
    requires |u| == 5 && u[0] == -1.0 && u[1] == -0.5 && u[2] == 0.5 && u[3] == 1.0 && u[4] == 2.0
    ensures StratCutoffs(info, u) == [-0.8, -0.5, 0.8, 1.6]
  {
    StratBallotComplacentPoll(info);
    MaxOfAt(u, 4);
    StratBallotComplacentThresholds();
    StratCutoffsVia(info, u, 2, 1, 1, 1, 2.0);
  }

  /** The votes of the StratBallotComplacent example under its cutoffs. */
  lemma StratBallotComplacentVotes()
    ensures var c, u := [-0.8, -0.5, 0.8, 1.6], [-1.0, -0.5, 0.5, 1.0, 2.0];
      forall i | 0 <= i < |u| :: [0, 1, 2, 3, 4][i] == VoteFor(c, u[i])
  {
    var c, u := [-0.8, -0.5, 0.8, 1.6], [-1.0, -0.5, 0.5, 1.0, 2.0];
    forall i | 0 <= i < |u|
      ensures [0, 1, 2, 3, 4][i] == VoteFor(c, u[i])
    {
      if i == 0 { VoteForUnique(c, -1.0, 0); }
      else if i == 1 { VoteForUnique(c, -0.5, 1); }
      else if i == 2 { VoteForUnique(c, 0.5, 2); }
      else if i == 3 { VoteForUnique(c, 1.0, 3); }
      else if i == 4 { VoteForUnique(c, 2.0, 4); }
    }
  }

  /** Poll [0, 1.1, 1.9, 0, 0]: the leader is preferred, the cutoffs stay ordered. */
  lemma StratBallotComplacent(info: seq<real>, u: seq<real>)
    requires |info| == 5 && info[0] == 0.0 && info[1] == 1.1 && info[2] == 1.9 && info[3] == 0.0 && info[4] == 0.0
    requires |u| == 5 && u[0] == -1.0 && u[1] == -0.5 && u[2] == 0.5 && u[3] == 1.0 && u[4] == 2.0
    ensures StratBallot(info, u).strat == [0, 1, 2, 3, 4]
  {
    StratBallotComplacentCutoffs(info, u);
    StratBallotComplacentVotes();
    assert u == [-1.0, -0.5, 0.5, 1.0, 2.0];
    TopTwo(info, 2, 1);
    StratBallotVia(info, u, [0, 1, 2, 3, 4]);
  }

  /** The poll of the StratBallotExaggerates example: its frontrunners and their floored scores. */
  lemma StratBallotExaggeratesPoll(info: seq<real>)
    requires |info| == 5 && info[0] == 0.0 && info[1] == 2.1 && info[2] == 2.9 && info[3] == 0.0 && info[4] == 0.0
    ensures Leader(info) == 2 && RunnerUp(info) == 1 && info[2].Floor == 2 && info[1].Floor == 2
  {
    TopTwo(info, 2, 1);
  }

  lemma StratBallotExaggeratesThresholds()
    ensures CutoffsFrom((0.5, -0.5), 2, 2, 2.0) == [-0.8, 0.0, -0.5, 1.6]
  {
    var c := CutoffsFrom((0.5, -0.5), 2, 2, 2.0);
    assert c[0] == -0.8 && c[1] == 0.0 && c[2] == -0.5 && c[3] == 1.6;
  }

  /** The cutoffs of the StratBallotExaggerates example. */
  lemma StratBallotExaggeratesCutoffs(info: seq<real>, u: seq<real>)
    requires |info| == 5 && info[0] == 0.0 && info[1] == 2.1 && info[2] == 2.9 && info[3] == 0.0 && info[4] == 0.0
    requires |u| == 5 && u[0] == -1.0 && u[1] == -0.5 && u[2] == 0.5 && u[3] == 1.0 && u[4] == 2.0
    ensures StratCutoffs(info, u) == [-0.8, 0.0, -0.5, 1.6]
  {
    StratBallotExaggeratesPoll(info);
    MaxOfAt(u, 4);
    StratBallotExaggeratesThresholds();
    StratCutoffsVia(info, u, 2, 1, 2, 2, 2.0);
  }

  /** The votes of the StratBallotExaggerates example under its cutoffs. */
  lemma StratBallotExaggeratesVotes()
    ensures var c, u := [-0.8, 0.0, -0.5, 1.6], [-1.0, -0.5, 0.5, 1.0, 2.0];
      forall i | 0 <= i < |u| :: [0, 1, 3, 3, 4][i] == VoteFor(c, u[i])
  {
    var c, u := [-0.8, 0.0, -0.5, 1.6], [-1.0, -0.5, 0.5, 1.0, 2.0];
    forall i | 0 <= i < |u|
      ensures [0, 1, 3, 3, 4][i] == VoteFor(c, u[i])
    {
      if i == 0 { VoteForUnique(c, -1.0, 0); }
      else if i == 1 { VoteForUnique(c, -0.5, 1); }
      else if i == 2 { VoteForUnique(c, 0.5, 3); }
      else if i == 3 { VoteForUnique(c, 1.0, 3); }
      else if i == 4 { VoteForUnique(c, 2.0, 4); }
    }
  }

  /** Poll [0, 2.1, 2.9, 0, 0]: the cutoffs drop below the less-liked frontrunner. */
  lemma StratBallotExaggerates(info: seq<real>, u: seq<real>)
    requires |info| == 5 && info[0] == 0.0 && info[1] == 2.1 && info[2] == 2.9 && info[3] == 0.0 && info[4] == 0.0
    requires |u| == 5 && u[0] == -1.0 && u[1] == -0.5 && u[2] == 0.5 && u[3] == 1.0 && u[4] == 2.0
    ensures StratBallot(info, u).strat == [0, 1, 3, 3, 4]
  {
    StratBallotExaggeratesCutoffs(info, u);
    StratBallotExaggeratesVotes();
    assert u == [-1.0, -0.5, 0.5, 1.0, 2.0];
    TopTwo(info, 2, 1);
    StratBallotVia(info, u, [0, 1, 3, 3, 4]);
  }

  /** The poll of the StratBallotSwaps example: its frontrunners and their floored scores. */
  lemma StratBallotSwapsPoll(info: seq<real>)
    requires |info| == 5 && info[0] == 0.0 && info[1] == 2.1 && info[2] == 1.9 && info[3] == 0.0 && info[4] == 0.0
    ensures Leader(info) == 1 && RunnerUp(info) == 2 && info[1].Floor == 2 && info[2].Floor == 1
  {
    TopTwo(info, 1, 2);
  }

  lemma StratBallotSwapsThresholds()
    ensures CutoffsFrom((0.5, 0.4), 2, 1, 2.0) == [-0.8, 0.4, 0.4, 1.6]
  {
    var c := CutoffsFrom((0.5, 0.4), 2, 1, 2.0);
    assert c[0] == -0.8 && c[1] == 0.4 && c[2] == 0.4 && c[3] == 1.6;
  }

  /** The cutoffs of the StratBallotSwaps example. */
  lemma StratBallotSwapsCutoffs(info: seq<real>, u: seq<real>)
    requires |info| == 5 && info[0] == 0.0 && info[1] == 2.1 && info[2] == 1.9 && info[3] == 0.0 && info[4] == 0.0
    requires |u| == 5 && u[0] == -1.0 && u[1] == 0.4 && u[2] == 0.5 && u[3] == 1.0 && u[4] == 2.0
    ensures StratCutoffs(info, u) == [-0.8, 0.4, 0.4, 1.6]
  {
    StratBallotSwapsPoll(info);
    MaxOfAt(u, 4);
    StratBallotSwapsThresholds();
    StratCutoffsVia(info, u, 1, 2, 2, 1, 2.0);
  }

  /** The votes of the StratBallotSwaps example under its cutoffs. */
  lemma StratBallotSwapsVotes()
    ensures var c, u := [-0.8, 0.4, 0.4, 1.6], [-1.0, 0.4, 0.5, 1.0, 2.0];
      forall i | 0 <= i < |u| :: [0, 1, 3, 3, 4][i] == VoteFor(c, u[i])
  {
    var c, u := [-0.8, 0.4, 0.4, 1.6], [-1.0, 0.4, 0.5, 1.0, 2.0];
    forall i | 0 <= i < |u|
      ensures [0, 1, 3, 3, 4][i] == VoteFor(c, u[i])
    {
      if i == 0 { VoteForUnique(c, -1.0, 0); }
      else if i == 1 { VoteForUnique(c, 0.4, 1); }
      else if i == 2 { VoteForUnique(c, 0.5, 3); }
      else if i == 3 { VoteForUnique(c, 1.0, 3); }
      else if i == 4 { VoteForUnique(c, 2.0, 4); }
    }
  }

  /** Poll [0, 2.1, 1.9, 0, 0] with the runner-up preferred: the frontrunners swap. */
  lemma StratBallotSwaps(info: seq<real>, u: seq<real>)
    requires |info| == 5 && info[0] == 0.0 && info[1] == 2.1 && info[2] == 1.9 && info[3] == 0.0 && info[4] == 0.0
    requires |u| == 5 && u[0] == -1.0 && u[1] == 0.4 && u[2] == 0.5 && u[3] == 1.0 && u[4] == 2.0
    ensures StratBallot(info, u).strat == [0, 1, 3, 3, 4]
  {
    StratBallotSwapsCutoffs(info, u);
    StratBallotSwapsVotes();
    assert u == [-1.0, 0.4, 0.5, 1.0, 2.0];
    TopTwo(info, 1, 2);
    StratBallotVia(info, u, [0, 1, 3, 3, 4]);
  }

  /** Tied frontrunner utilities: all-or-nothing ballots. */
  lemma StratBallotTieExamples()
    ensures StratBallot([1.0, 0.0, 2.0], [6.0, 7.0, 6.0]).strat == [4, 4, 4]
    ensures StratBallot([1.0, 0.0, 2.0], [6.0, 5.0, 6.0]).strat == [4, 0, 4]
    ensures StratBallot([2.1, 0.0, 3.0], [6.0, 5.0, 6.0]).strat == [4, 0, 4]
  {
    TopTwo([1.0, 0.0, 2.0], 2, 0);
    TopTwo([2.1, 0.0, 3.0], 2, 0);
  }

  /** The poll of the StratBallotNearTie example: its frontrunners and their floored scores. */
  lemma StratBallotNearTiePoll(info: seq<real>)
    requires |info| == 3 && info[0] == 2.1 && info[1] == 0.0 && info[2] == 3.0
    ensures Leader(info) == 2 && RunnerUp(info) == 0 && info[2].Floor == 3 && info[0].Floor == 2
  {
    TopTwo(info, 2, 0);
  }

  lemma StratBallotNearTieThresholds()
    ensures CutoffsFrom((6.1, 6.0), 3, 2, 6.1) == [-0.8, 0.0, 6.0, 6.0]
  {
    var c := CutoffsFrom((6.1, 6.0), 3, 2, 6.1);
    assert c[0] == -0.8 && c[1] == 0.0 && c[2] == 6.0 && c[3] == 6.0;
  }

  /** The cutoffs of the StratBallotNearTie example. */
  lemma StratBallotNearTieCutoffs(info: seq<real>, u: seq<real>)
    requires |info| == 3 && info[0] == 2.1 && info[1] == 0.0 && info[2] == 3.0
    requires |u| == 3 && u[0] == 6.0 && u[1] == 5.0 && u[2] == 6.1
    ensures StratCutoffs(info, u) == [-0.8, 0.0, 6.0, 6.0]
  {
    StratBallotNearTiePoll(info);
    MaxOfAt(u, 2);
    StratBallotNearTieThresholds();
    StratCutoffsVia(info, u, 2, 0, 3, 2, 6.1);
  }

  /** The votes of the StratBallotNearTie example under its cutoffs. */
  lemma StratBallotNearTieVotes()
    ensures var c, u := [-0.8, 0.0, 6.0, 6.0], [6.0, 5.0, 6.1];
      forall i | 0 <= i < |u| :: [2, 2, 4][i] == VoteFor(c, u[i])
  {
    var c, u := [-0.8, 0.0, 6.0, 6.0], [6.0, 5.0, 6.1];
    forall i | 0 <= i < |u|
      ensures [2, 2, 4][i] == VoteFor(c, u[i])
    {
      if i == 0 { VoteForUnique(c, 6.0, 2); }
      else if i == 1 { VoteForUnique(c, 5.0, 2); }
      else if i == 2 { VoteForUnique(c, 6.1, 4); }
    }
  }

  /** Poll [2.1, 0, 3] with a slight preference for the leader. */
  lemma StratBallotNearTie(info: seq<real>, u: seq<real>)
    requires |info| == 3 && info[0] == 2.1 && info[1] == 0.0 && info[2] == 3.0
    requires |u| == 3 && u[0] == 6.0 && u[1] == 5.0 && u[2] == 6.1
    ensures StratBallot(info, u).strat == [2, 2, 4]
  {
    StratBallotNearTieCutoffs(info, u);
    StratBallotNearTieVotes();
    assert u == [6.0, 5.0, 6.1];
    TopTwo(info, 2, 0);
    StratBallotVia(info, u, [2, 2, 4]);
  }
}
