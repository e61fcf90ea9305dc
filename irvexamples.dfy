/**
 * The doctests of Irv.results (methods.py), proved for every sequence of
 * tie-break draws: each count is followed round by round.
 */
module IrvExamples {
  import opened Seqs
  import opened Framework
  import opened IrvCount

  /** Ballots all equal to b, whose start rank finds pile t: resort appends them all to pile t. */
  lemma Group(piles: seq<Pile>, ballots: seq<seq<int>>, b: seq<int>, loser: int, t: nat)
    requires t < |piles| && piles[t].Open? && forall k :: 0 <= k < |ballots| ==> ballots[k] == b
    requires StartRank(b, loser, 3).Some? && Target(b, StartRank(b, loser, 3).value, piles) == Some(t)
    ensures ResortAll(piles, ballots, loser, 3) == Some(piles[t := Open(piles[t].ballots + ballots)])
  {
    ResortInto(piles, ballots, loser, 3, t);
  }

  /** With every pile open, each of the three ballots goes to its first choice. */
  lemma FirstChoices(p: seq<Pile>)
    requires |p| == 3 && p[0].Open? && p[1].Open? && p[2].Open?
    ensures Target([0, 1, 2], 2, p) == Some(2) && Target([2, 1, 0], 2, p) == Some(0) && Target([1, 2, 0], 2, p) == Some(1)
  {
    assert IndexOf([0, 1, 2], 2) == Some(2) && IndexOf([2, 1, 0], 2) == Some(0) && IndexOf([1, 2, 0], 2) == Some(1);
  }

  /** The state after one round of the single ballot [0, 1, 2]: one of the two empty piles closed. */
  ghost predicate SingleAfterOne(s: Stage, a: seq<int>)
  {
    && |s.piles| == 3 && |s.results| == 3 && s.loserPile == [] && (s.loser == 0 || s.loser == 1)
    && s.piles[s.loser].Closed? && s.piles[1 - s.loser] == Open([]) && s.piles[2] == Open([a])
    && s.results[s.loser] == 0 && s.results[1 - s.loser] == -1 && s.results[2] == -1
  }

  lemma SingleRound0(bs: seq<seq<int>>, s0: Stage, draws: seq<nat>) returns (s1: Stage)
    requires bs == [[0, 1, 2]] && s0 == Start(bs, 3)
    ensures SingleAfterOne(s1, bs[0]) && RunFrom(s0, 3, 0, draws) == RunFrom(s1, 3, 1, draws)
  {
    assert s0.piles == [Open([]), Open([]), Open([])];
    FirstChoices(s0.piles);
    Group(s0.piles, bs, [0, 1, 2], -1, 2);
    assert [] + bs == bs;
    var p0 := s0.piles[2 := Open(bs)];
    var neg0 := NegScores(p0);
    assert neg0[0] == Num(0.0) && neg0[2] == Num(-1.0);
    RoundValue(s0, 3, 0, Draw(draws, 0), p0);
    var l0 := Winner(neg0, Draw(draws, 0));
    s1 := Stage(p0[l0 := Closed], [], l0, s0.results[l0 := 0]);
    RunFromStep(s0, 3, 0, draws);
  }

  lemma SingleRound1(s1: Stage, a: seq<int>, draws: seq<nat>) returns (s2: Stage)
    requires SingleAfterOne(s1, a)
    ensures |s2.piles| == 3 && |s2.results| == 3 && s2.piles[2] == Open([a]) && s2.piles[0].Closed? && s2.piles[1].Closed?
    ensures s2.results[2] == -1 && s2.loserPile == [] && RunFrom(s1, 3, 1, draws) == RunFrom(s2, 3, 2, draws)
  {
    var p1 := s1.piles;
    var neg1 := NegScores(p1);
    var o := 1 - s1.loser;
    assert neg1[o] == Num(0.0) && neg1[2] == Num(-1.0);
    RoundValue(s1, 3, 1, Draw(draws, 1), p1);
    var l1 := Winner(neg1, Draw(draws, 1));
    s2 := Stage(p1[l1 := Closed], [], l1, s1.results[l1 := 1]);
    RunFromStep(s1, 3, 1, draws);
  }

  lemma SingleRound2(s2: Stage, a: seq<int>, draws: seq<nat>)
    requires |s2.piles| == 3 && |s2.results| == 3 && s2.piles[2] == Open([a]) && s2.piles[0].Closed? && s2.piles[1].Closed?
    requires s2.results[2] == -1 && s2.loserPile == []
    ensures var r := RunFrom(s2, 3, 2, draws); r.Some? && |r.value.results| == 3 && r.value.results[2] == 2
  {
    var p2 := s2.piles;
    var neg2 := NegScores(p2);
    assert neg2[2].Num?;
    RoundValue(s2, 3, 2, Draw(draws, 2), p2);
    RunFromStep(s2, 3, 2, draws);
  }

  /** The doctest `Irv().results([[0,1,2]])[2] == 2`, whatever the tie-breaks. */
  lemma SingleBallot(bs: seq<seq<int>>, draws: seq<nat>)
    requires bs == [[0, 1, 2]]
    ensures var r := IrvResults(bs, draws); r.Some? && |r.value| == 3 && r.value[2] == 2
  {
    var s1 := SingleRound0(bs, Start(bs, 3), draws);
    var s2 := SingleRound1(s1, bs[0], draws);
    SingleRound2(s2, bs[0], draws);
  }

  lemma PairResort(bs: seq<seq<int>>, e: seq<Pile>)
    requires bs == [[0, 1, 2], [2, 1, 0]] && e == [Open([]), Open([]), Open([])]
    ensures ResortAll(e, bs, -1, 3) == Some([Open([bs[1]]), Open([]), Open([bs[0]])])
  {
    var a, b := bs[0], bs[1];
    FirstChoices(e);
    ResortAppend(e, [a], [b], -1, 3);
    assert [a] + [b] == bs;
    Group(e, [a], a, -1, 2);
    assert [] + [a] == [a];
    var q := e[2 := Open([a])];
    FirstChoices(q);
    Group(q, [b], b, -1, 0);
    assert [] + [b] == [b];
    assert q[0 := Open([b])] == [Open([b]), Open([]), Open([a])];
  }

  lemma PairRound0(bs: seq<seq<int>>, s0: Stage, draws: seq<nat>) returns (s1: Stage)
    requires bs == [[0, 1, 2], [2, 1, 0]] && s0 == Start(bs, 3)
    ensures |s1.piles| == |s1.results| == 3 && s1.piles[1].Closed? && s1.results[1] == 0
    ensures RunFrom(s0, 3, 0, draws) == RunFrom(s1, 3, 1, draws)
  {
    assert s0.piles == [Open([]), Open([]), Open([])];
    PairResort(bs, s0.piles);
    var p0 := [Open([bs[1]]), Open([]), Open([bs[0]])];
    var neg0 := NegScores(p0);
    assert neg0[0] == Num(-1.0) && neg0[1] == Num(0.0) && neg0[2] == Num(-1.0);
    RoundValue(s0, 3, 0, Draw(draws, 0), p0);
    var l0 := Winner(neg0, Draw(draws, 0));
    s1 := Stage(p0[l0 := Closed], [], l0, s0.results[l0 := 0]);
    RunFromStep(s0, 3, 0, draws);
  }

  lemma PairRankings(bs: seq<seq<int>>)
    requires bs == [[0, 1, 2], [2, 1, 0]]
    ensures forall k :: 0 <= k < |bs| ==> IsRanking(bs[k], |bs[0]|)
  {
    assert IsRanking(bs[0], 3) && IsRanking(bs[1], 3);
  }

  /** The doctest `Irv().results([[0,1,2],[2,1,0]])[1] == 0`: the candidate ranked last by both goes first. */
  lemma PairOfBallots(bs: seq<seq<int>>, draws: seq<nat>)
    requires bs == [[0, 1, 2], [2, 1, 0]]
    ensures var r := IrvResults(bs, draws); r.Some? && |r.value| == 3 && r.value[1] == 0
  {
    var s0 := Start(bs, 3);
    var s1 := PairRound0(bs, s0, draws);
    PairRankings(bs);
    IrvResultsTotal(bs, draws);
    RunFromKeepsClosed(s1, 3, 1, draws, RunFrom(s1, 3, 1, draws).value, 1);
  }

  /** xs is k copies of b. */
  ghost predicate Copies(xs: seq<seq<int>>, b: seq<int>, k: nat)
  {
    |xs| == k && forall j :: 0 <= j < |xs| ==> xs[j] == b
  }

  /** The last doctest's ballots in its three groups: four [0,1,2], three [2,1,0], two [1,2,0]. */
  ghost predicate Mixed(bs: seq<seq<int>>, xs: seq<seq<int>>, ys: seq<seq<int>>, zs: seq<seq<int>>)
  {
    bs == xs + ys + zs && Copies(xs, [0, 1, 2], 4) && Copies(ys, [2, 1, 0], 3) && Copies(zs, [1, 2, 0], 2)
  }

  lemma MixedResort0(bs: seq<seq<int>>, xs: seq<seq<int>>, ys: seq<seq<int>>, zs: seq<seq<int>>, e: seq<Pile>)
    requires Mixed(bs, xs, ys, zs) && e == [Open([]), Open([]), Open([])]
    ensures ResortAll(e, bs, -1, 3) == Some([Open(ys), Open(zs), Open(xs)])
  {
    ResortAppend(e, xs + ys, zs, -1, 3);
    ResortAppend(e, xs, ys, -1, 3);
    FirstChoices(e);
    Group(e, xs, [0, 1, 2], -1, 2);
    var q1 := e[2 := Open([] + xs)];
    FirstChoices(q1);
    Group(q1, ys, [2, 1, 0], -1, 0);
    var q2 := q1[0 := Open([] + ys)];
    FirstChoices(q2);
    Group(q2, zs, [1, 2, 0], -1, 1);
    assert [] + xs == xs && [] + ys == ys && [] + zs == zs;
    assert q2[1 := Open([] + zs)] == [Open(ys), Open(zs), Open(xs)];
  }

  lemma MixedRound0(bs: seq<seq<int>>, xs: seq<seq<int>>, ys: seq<seq<int>>, zs: seq<seq<int>>, s0: Stage, draws: seq<nat>)
    returns (s1: Stage)
    requires Mixed(bs, xs, ys, zs) && s0 == Start(bs, 3)
    ensures s1 == Stage([Open(ys), Closed, Open(xs)], zs, 1, [-1, 0, -1])
    ensures RunFrom(s0, 3, 0, draws) == RunFrom(s1, 3, 1, draws)
  {
    assert s0.piles == [Open([]), Open([]), Open([])];
    MixedResort0(bs, xs, ys, zs, s0.piles);
    var p0 := [Open(ys), Open(zs), Open(xs)];
    var neg0 := NegScores(p0);
    assert neg0[0] == Num(-3.0) && neg0[1] == Num(-2.0) && neg0[2] == Num(-4.0);
    RoundValue(s0, 3, 0, Draw(draws, 0), p0);
    s1 := Stage(p0[1 := Closed], zs, 1, s0.results[1 := 0]);
    RunFromStep(s0, 3, 0, draws);
  }

  /** Round 1 moves the two [1,2,0] ballots to candidate 0, their next choice. */
  lemma MixedResort1(xs: seq<seq<int>>, ys: seq<seq<int>>, zs: seq<seq<int>>, p: seq<Pile>)
    requires Copies(zs, [1, 2, 0], 2) && p == [Open(ys), Closed, Open(xs)]
    ensures ResortAll(p, zs, 1, 3) == Some([Open(ys + zs), Closed, Open(xs)])
  {
    var c := [1, 2, 0];
    assert IndexOf(c, 1) == Some(0);
    Group(p, zs, c, 1, 0);
    assert p[0 := Open(ys + zs)] == [Open(ys + zs), Closed, Open(xs)];
  }

  lemma MixedRound1(xs: seq<seq<int>>, ys: seq<seq<int>>, zs: seq<seq<int>>, s1: Stage, draws: seq<nat>) returns (s2: Stage)
    requires Copies(xs, [0, 1, 2], 4) && Copies(ys, [2, 1, 0], 3) && Copies(zs, [1, 2, 0], 2)
    requires s1 == Stage([Open(ys), Closed, Open(xs)], zs, 1, [-1, 0, -1])
    ensures s2 == Stage([Open(ys + zs), Closed, Closed], xs, 2, [-1, 0, 1])
    ensures RunFrom(s1, 3, 1, draws) == RunFrom(s2, 3, 2, draws)
  {
    var p1 := [Open(ys + zs), Closed, Open(xs)];
    MixedResort1(xs, ys, zs, s1.piles);
    var neg1 := NegScores(p1);
    assert neg1[0] == Num(-5.0) && neg1[1] == Mark && neg1[2] == Num(-4.0);
    RoundValue(s1, 3, 1, Draw(draws, 1), p1);
    s2 := Stage(p1[2 := Closed], xs, 2, s1.results[2 := 1]);
    RunFromStep(s1, 3, 1, draws);
  }

  /** [0,1,2] with 1 closed and 0 open: rank 1 is passed over for rank 0. */
  lemma PassOver(a: seq<int>, p: seq<Pile>)
    requires a == [0, 1, 2] && |p| == 3 && p[0].Open? && p[1].Closed?
    ensures Target(a, 1, p) == Some(0)
  {
    assert IndexOf(a, 1) == Some(1) && IndexOf(a, 0) == Some(0);
    assert Target(a, 0, p) == Some(0);
  }

  /** Round 2 moves the four [0,1,2] ballots past the closed candidate 1 to candidate 0. */
  lemma MixedResort2(xs: seq<seq<int>>, u: seq<seq<int>>, p: seq<Pile>)
    requires Copies(xs, [0, 1, 2], 4) && p == [Open(u), Closed, Closed]
    ensures ResortAll(p, xs, 2, 3) == Some([Open(u + xs), Closed, Closed])
  {
    var a := [0, 1, 2];
    PassOver(a, p);
    Group(p, xs, a, 2, 0);
    assert p[0 := Open(u + xs)] == [Open(u + xs), Closed, Closed];
  }

  lemma MixedRound2(xs: seq<seq<int>>, ys: seq<seq<int>>, zs: seq<seq<int>>, s2: Stage, draws: seq<nat>)
    requires Copies(xs, [0, 1, 2], 4) && Copies(ys, [2, 1, 0], 3) && Copies(zs, [1, 2, 0], 2)
    requires s2 == Stage([Open(ys + zs), Closed, Closed], xs, 2, [-1, 0, 1])
    ensures var r := RunFrom(s2, 3, 2, draws); r.Some? && r.value.results == [2, 0, 1]
  {
    var p2 := [Open(ys + zs + xs), Closed, Closed];
    MixedResort2(xs, ys + zs, s2.piles);
    var neg2 := NegScores(p2);
    assert neg2[0].Num? && neg2[1] == Mark && neg2[2] == Mark;
    RoundValue(s2, 3, 2, Draw(draws, 2), p2);
    RunFromStep(s2, 3, 2, draws);
  }

  /** The doctest `Irv().results([[0,1,2]] * 4 + [[2,1,0]] * 3 + [[1,2,0]] * 2) == [2, 0, 1]`, with no ties to break. */
  lemma MixedElection(bs: seq<seq<int>>, draws: seq<nat>)
    requires bs == [[0, 1, 2], [0, 1, 2], [0, 1, 2], [0, 1, 2], [2, 1, 0], [2, 1, 0], [2, 1, 0], [1, 2, 0], [1, 2, 0]]
    ensures IrvResults(bs, draws) == Some([2, 0, 1])
  {
    var xs, ys, zs := bs[..4], bs[4..7], bs[7..];
    assert bs == xs + ys + zs;
    var s1 := MixedRound0(bs, xs, ys, zs, Start(bs, 3), draws);
    var s2 := MixedRound1(xs, ys, zs, s1, draws);
    MixedRound2(xs, ys, zs, s2, draws);
  }
}
