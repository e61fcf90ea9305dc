/**
 * The instant-runoff count of Irv.results and Irv.resort (methods.py).
 * Ballots are rankings: candidate c has rank b[c], and the highest rank is
 * the first choice. Every candidate has a pile; each round moves the
 * ballots of the pile eliminated last onto the pile of their next choice
 * still in the count, then eliminates a candidate with a smallest pile and
 * writes the round number as its result. Eliminated piles are replaced by
 * the sentinel -1, here `Closed`.
 */
module IrvCount {
  import opened Seqs
  import opened Framework

  /** A pile of ballots, or the sentinel that replaces an eliminated candidate's pile. */
  datatype Pile = Open(ballots: seq<seq<int>>) | Closed

  /** The state between two rounds: the piles, the eliminated pile still to move, who was eliminated, and the results so far. */
  datatype Stage = Stage(piles: seq<Pile>, loserPile: seq<seq<int>>, loser: int, results: seq<int>)

  // ---------------------------------------------------------------------
  // resort

  /**
   * The pile a ballot goes to, trying `rank` and then lower ranks: the
   * candidate holding the rank, passed over while its pile is closed. None
   * where resort raises: no position holds the rank (ValueError), the
   * position has no pile (IndexError), or the ranks run out below 0.
   */
  function Target(ballot: seq<int>, rank: int, piles: seq<Pile>): (t: Option<nat>)
    ensures t.Some? ==> t.value < |piles| && piles[t.value].Open? && t.value < |ballot| && ballot[t.value] <= rank
    decreases if rank < 0 then 0 else rank + 1
  {
    match IndexOf(ballot, rank)
    case None => None
    case Some(c) =>
      if c >= |piles| then None
      else if piles[c].Open? then Some(c)
      else if rank - 1 < 0 then None
      else Target(ballot, rank - 1, piles)
  }

  /** Where the search starts: the top rank in the first round, else just below the eliminated candidate. */
  function StartRank(ballot: seq<int>, loser: int, ncand: int): Option<int>
  {
    if loser < 0 then Some(ncand - 1)
    else if loser < |ballot| then Some(ballot[loser] - 1)
    else None
  }

  /** One ballot of resort: appended to the pile Target finds. */
  function Place(piles: seq<Pile>, ballot: seq<int>, loser: int, ncand: int): (r: Option<seq<Pile>>)
    ensures r.Some? ==> |r.value| == |piles|
  {
    match StartRank(ballot, loser, ncand)
    case None => None
    case Some(start) =>
      match Target(ballot, start, piles)
      case None => None
      case Some(t) => Some(piles[t := Open(piles[t].ballots + [ballot])])
  }

  /** resort: the ballots placed one after another, failing at the first that cannot be placed. */
  function ResortAll(piles: seq<Pile>, ballots: seq<seq<int>>, loser: int, ncand: int): (r: Option<seq<Pile>>)
    ensures r.Some? ==> |r.value| == |piles|
    decreases |ballots|
  {
    if ballots == [] then Some(piles)
    else
      match ResortAll(piles, ballots[..|ballots| - 1], loser, ncand)
      case None => None
      case Some(p) => Place(p, ballots[|ballots| - 1], loser, ncand)
  }

  /** Irv.resort as written: each ballot walks down the ranks until it finds an open pile. */
  method PlaceBallot(piles: array<Pile>, ballot: seq<int>, start: int) returns (ok: bool)
    modifies piles
    ensures var t := Target(ballot, start, old(piles[..]));
      && ok == t.Some?
      && (ok ==> piles[..] == old(piles[..])[t.value := Open(old(piles[..])[t.value].ballots + [ballot])])
  {
    var rank := start;
    while true
      invariant piles[..] == old(piles[..])
      invariant Target(ballot, rank, piles[..]) == Target(ballot, start, piles[..])
      decreases if rank < 0 then 0 else rank + 1
    {
      var index := IndexOf(ballot, rank);
      if index.None? || index.value >= piles.Length {
        return false;
      }
      var c := index.value;
      if piles[c].Open? {
        piles[c] := Open(piles[c].ballots + [ballot]);
        return true;
      }
      rank := rank - 1;
      if rank < 0 {
        return false;
      }
    }
  }

  /** Once a prefix of the ballots cannot be placed, neither can the whole list. */
  lemma {:induction false} ResortFailsOn(piles: seq<Pile>, ballots: seq<seq<int>>, k: nat, loser: int, ncand: int)
    requires k <= |ballots| && ResortAll(piles, ballots[..k], loser, ncand).None?
    ensures ResortAll(piles, ballots, loser, ncand).None?
    decreases |ballots| - k
  {
    if k < |ballots| {
      assert ballots[..k + 1][..k] == ballots[..k];
      ResortFailsOn(piles, ballots, k + 1, loser, ncand);
    } else {
      assert ballots[..k] == ballots;
    }
  }

  /** The body of resort's loop: one ballot, from its start rank. */
  method ResortOne(ballot: seq<int>, loser: int, ncand: int, piles: array<Pile>) returns (ok: bool)
    modifies piles
    ensures var r := Place(old(piles[..]), ballot, loser, ncand);
      ok == r.Some? && (ok ==> piles[..] == r.value)
  {
    var nextRank: int;
    if loser < 0 {
      nextRank := ncand - 1;
    } else if loser < |ballot| {
      nextRank := ballot[loser] - 1;
    } else {
      return false;
    }
    ok := PlaceBallot(piles, ballot, nextRank);
  }

  /** Placing one more ballot after a prefix that placed. */
  lemma ResortStep(piles: seq<Pile>, ballots: seq<seq<int>>, i: nat, loser: int, ncand: int, p: seq<Pile>)
    requires i < |ballots| && ResortAll(piles, ballots[..i], loser, ncand) == Some(p)
    ensures ResortAll(piles, ballots[..i + 1], loser, ncand) == Place(p, ballots[i], loser, ncand)
  {
    assert ballots[..i + 1][..i] == ballots[..i];
  }

  method Resort(ballots: seq<seq<int>>, loser: int, ncand: int, piles: array<Pile>) returns (ok: bool)
    modifies piles
    ensures var r := ResortAll(old(piles[..]), ballots, loser, ncand);
      ok == r.Some? && (ok ==> piles[..] == r.value)
  {
    ghost var start := piles[..];
    var i := 0;
    assert ballots[..0] == [];
    while i < |ballots|
      invariant 0 <= i <= |ballots|
      invariant ResortAll(start, ballots[..i], loser, ncand) == Some(piles[..])
    {
      ResortStep(start, ballots, i, loser, ncand, piles[..]);
      ok := ResortOne(ballots[i], loser, ncand, piles);
      if !ok {
        ResortFailsOn(start, ballots, i + 1, loser, ncand);
        return false;
      }
      i := i + 1;
    }
    assert ballots[..i] == ballots;
    return true;
  }

  // ---------------------------------------------------------------------
  // results

  /** `negscores`: minus the size of each open pile, the non-numeric "x" for the sentinel. */
  function NegScores(piles: seq<Pile>): (r: seq<Entry>)
    ensures |r| == |piles|
    ensures forall c :: 0 <= c < |piles| ==> (r[c].Num? <==> piles[c].Open?)
    ensures forall c :: 0 <= c < |piles| && piles[c].Open? ==> r[c] == Num(-(|piles[c].ballots| as real))
  {
    seq(|piles|, c requires 0 <= c < |piles| => if piles[c].Closed? then Mark else Num(-(|piles[c].ballots| as real)))
  }

  /**
   * One round of the loop in Irv.results: resort the last loser's pile,
   * eliminate the candidate `winner(negscores)` picks with the injected
   * tie-break `draw`, record round i as its result and take its pile.
   * None where the source raises: resort fails, or no pile is left for max.
   */
  function Round(s: Stage, ncand: nat, i: nat, draw: nat): (r: Option<Stage>)
    requires |s.results| == |s.piles|
    ensures r.Some? ==> |r.value.piles| == |r.value.results| == |s.piles|
  {
    match ResortAll(s.piles, s.loserPile, s.loser, ncand)
    case None => None
    case Some(p) =>
      var neg := NegScores(p);
      if !HasNum(neg) then None
      else
        var l := Winner(neg, draw);
        Some(Stage(p[l := Closed], p[l].ballots, l, s.results[l := i]))
  }

  /** The tie-break of round i: the injected draw, or 0 once the draws run out. */
  function Draw(draws: seq<nat>, i: nat): nat
  {
    if i < |draws| then draws[i] else 0
  }

  /** Rounds i up to ncand - 1; `Draw(draws, i)` is the tie-break of round i. */
  function RunFrom(s: Stage, ncand: nat, i: nat, draws: seq<nat>): (r: Option<Stage>)
    requires |s.results| == |s.piles|
    decreases ncand - i
  {
    if i >= ncand then Some(s)
    else
      match Round(s, ncand, i, Draw(draws, i))
      case None => None
      case Some(s') => RunFrom(s', ncand, i + 1, draws)
  }

  /** Before the first round: empty piles, every ballot still to place, no loser, all results -1. */
  function Start(ballots: seq<seq<int>>, ncand: nat): (s: Stage)
    ensures |s.piles| == |s.results| == ncand
  {
    Stage(seq(ncand, _ => Open([])), ballots, -1, seq(ncand, _ => -1))
  }

  /** Irv.results: the round in which each candidate was eliminated, the winner's being the last. */
  function IrvResults(ballots: seq<seq<int>>, draws: seq<nat>): Option<seq<int>>
  {
    if |ballots| == 0 then None
    else
      match RunFrom(Start(ballots, |ballots[0]|), |ballots[0]|, 0, draws)
      case None => None
      case Some(f) => Some(f.results)
  }

  /** A round whose resort gives p and finds a pile to eliminate. */
  lemma RoundValue(s: Stage, ncand: nat, i: nat, draw: nat, p: seq<Pile>)
    requires |s.results| == |s.piles|
    requires ResortAll(s.piles, s.loserPile, s.loser, ncand) == Some(p) && HasNum(NegScores(p))
    ensures var l := Winner(NegScores(p), draw);
      l < |p| && p[l].Open? &&
      Round(s, ncand, i, draw) == Some(Stage(p[l := Closed], p[l].ballots, l, s.results[l := i]))
  {
  }

  /** The rounds from i are one round and then the rounds from i + 1. */
  lemma RunFromStep(s: Stage, ncand: nat, i: nat, draws: seq<nat>)
    requires |s.results| == |s.piles| && i < ncand
    ensures RunFrom(s, ncand, i, draws) ==
      match Round(s, ncand, i, Draw(draws, i))
      case None => None
      case Some(s') => RunFrom(s', ncand, i + 1, draws)
  {
  }

  /** Irv.results as written, over a results array and a piles array mutated in place. */
  method Results(ballots: seq<seq<int>>, draws: seq<nat>) returns (r: Option<seq<int>>)
    ensures r == IrvResults(ballots, draws)
  {
    if |ballots| == 0 {
      return None;
    }
    var ncand := |ballots[0]|;
    var results := new int[ncand](_ => -1);
    var piles := new Pile[ncand](_ => Open([]));
    var loserPile := ballots;
    var loser := -1;
    ghost var start := Start(ballots, ncand);
    assert start == Stage(piles[..], loserPile, loser, results[..]);
    for i := 0 to ncand
      invariant piles.Length == results.Length == ncand
      invariant RunFrom(Stage(piles[..], loserPile, loser, results[..]), ncand, i, draws) == RunFrom(start, ncand, 0, draws)
    {
      ghost var s := Stage(piles[..], loserPile, loser, results[..]);
      RunFromStep(s, ncand, i, draws);
      var ok;
      ok, loserPile, loser := Eliminate(piles, results, loserPile, loser, ncand, i, Draw(draws, i));
      if !ok {
        return None;
      }
    }
    return Some(results[..]);
  }

  /** The body of the loop in Irv.results: resort, pick the loser, record it and close its pile. */
  method Eliminate(piles: array<Pile>, results: array<int>, loserPile: seq<seq<int>>, loser: int, ncand: nat, i: nat, draw: nat)
    returns (ok: bool, loserPile': seq<seq<int>>, loser': int)
    requires piles.Length == results.Length
    modifies piles, results
    ensures var r := Round(Stage(old(piles[..]), loserPile, loser, old(results[..])), ncand, i, draw);
      ok == r.Some? && (ok ==> Stage(piles[..], loserPile', loser', results[..]) == r.value)
  {
    ghost var s := Stage(piles[..], loserPile, loser, results[..]);
    loserPile', loser' := loserPile, loser;
    ok := Resort(loserPile, loser, ncand, piles);
    if !ok {
      return;
    }
    var negScores := NegScores(piles[..]);
    if !HasNum(negScores) {
      return false, loserPile', loser';
    }
    ghost var p := piles[..];
    RoundValue(s, ncand, i, draw, p);
    loser' := Winner(negScores, draw);
    results[loser'] := i;
    loserPile' := piles[loser'].ballots;
    piles[loser'] := Closed;
  }

  // ---------------------------------------------------------------------
  // What a round keeps: which piles are closed, and every ballot

  /** The same piles are closed in p and q. */
  predicate SamePattern(p: seq<Pile>, q: seq<Pile>)
  {
    |p| == |q| && forall c :: 0 <= c < |p| ==> (p[c].Closed? <==> q[c].Closed?)
  }

  /** How many copies of ballot v a pile holds. */
  function InPile(pile: Pile, v: seq<int>): nat
  {
    if pile.Open? then multiset(pile.ballots)[v] else 0
  }

  /** How many copies of ballot v the open piles hold. */
  function Held(piles: seq<Pile>, v: seq<int>): nat
  {
    if piles == [] then 0
    else Held(piles[..|piles| - 1], v) + InPile(piles[|piles| - 1], v)
  }

  /** How many piles are closed. */
  function ClosedCount(piles: seq<Pile>): nat
  {
    if piles == [] then 0
    else ClosedCount(piles[..|piles| - 1]) + (if piles[|piles| - 1].Closed? then 1 else 0)
  }

  /** Replacing one pile swaps its copies of v for those of the new pile. */
  lemma {:induction false} HeldUpdate(p: seq<Pile>, c: nat, x: Pile, v: seq<int>)
    requires c < |p|
    ensures Held(p[c := x], v) + InPile(p[c], v) == Held(p, v) + InPile(x, v)
    decreases |p|
  {
    var m := |p| - 1;
    TakeUpdate(p, c, x);
    if c < m {
      HeldUpdate(p[..m], c, x, v);
    }
  }

  /** Replacing one pile changes the closed count by what the two piles differ in. */
  lemma {:induction false} ClosedCountUpdate(p: seq<Pile>, c: nat, x: Pile)
    requires c < |p|
    ensures ClosedCount(p[c := x]) + (if p[c].Closed? then 1 else 0) == ClosedCount(p) + (if x.Closed? then 1 else 0)
    decreases |p|
  {
    var m := |p| - 1;
    TakeUpdate(p, c, x);
    if c < m {
      ClosedCountUpdate(p[..m], c, x);
    }
  }

  /** Dropping the last pile commutes with replacing another, and undoes replacing the last. */
  lemma TakeUpdate(p: seq<Pile>, c: nat, x: Pile)
    requires c < |p|
    ensures c < |p| - 1 ==> p[c := x][..|p| - 1] == p[..|p| - 1][c := x] && p[c := x][|p| - 1] == p[|p| - 1]
    ensures c == |p| - 1 ==> p[c := x][..|p| - 1] == p[..|p| - 1]
    ensures c < |p| - 1 ==> p[..|p| - 1][c] == p[c]
  {
  }

  lemma {:induction false} ClosedCountSame(p: seq<Pile>, q: seq<Pile>)
    requires SamePattern(p, q)
    ensures ClosedCount(p) == ClosedCount(q)
    decreases |p|
  {
    if p != [] {
      var m := |p| - 1;
      ClosedCountSame(p[..m], q[..m]);
    }
  }

  /** Every pile is closed exactly when the closed count is the number of piles. */
  lemma {:induction false} ClosedCountAll(p: seq<Pile>)
    ensures ClosedCount(p) <= |p|
    ensures ClosedCount(p) == |p| <==> forall c :: 0 <= c < |p| ==> p[c].Closed?
    decreases |p|
  {
    if p != [] {
      var m := |p| - 1;
      ClosedCountAll(p[..m]);
      assert forall c :: 0 <= c < m ==> p[..m][c] == p[c];
    }
  }

  /** Placing a ballot keeps which piles are closed. */
  lemma PlacePattern(piles: seq<Pile>, ballot: seq<int>, loser: int, ncand: int)
    requires Place(piles, ballot, loser, ncand).Some?
    ensures SamePattern(Place(piles, ballot, loser, ncand).value, piles)
  {
  }

  /** Placing a ballot adds one copy of just that ballot. */
  lemma PlaceHeld(piles: seq<Pile>, ballot: seq<int>, loser: int, ncand: int, v: seq<int>)
    requires Place(piles, ballot, loser, ncand).Some?
    ensures Held(Place(piles, ballot, loser, ncand).value, v) == Held(piles, v) + (if v == ballot then 1 else 0)
  {
    var start := StartRank(ballot, loser, ncand).value;
    var t := Target(ballot, start, piles).value;
    var bs := piles[t].ballots;
    HeldUpdate(piles, t, Open(bs + [ballot]), v);
    assert multiset(bs + [ballot]) == multiset(bs) + multiset{ballot};
  }

  /** resort keeps which piles are closed. */
  lemma {:induction false} ResortPattern(piles: seq<Pile>, ballots: seq<seq<int>>, loser: int, ncand: int)
    requires ResortAll(piles, ballots, loser, ncand).Some?
    ensures SamePattern(ResortAll(piles, ballots, loser, ncand).value, piles)
    decreases |ballots|
  {
    if ballots != [] {
      var m := |ballots| - 1;
      ResortPattern(piles, ballots[..m], loser, ncand);
      PlacePattern(ResortAll(piles, ballots[..m], loser, ncand).value, ballots[m], loser, ncand);
    }
  }

  lemma MultisetLast(ballots: seq<seq<int>>, v: seq<int>)
    requires |ballots| > 0
    ensures multiset(ballots)[v] == multiset(ballots[..|ballots| - 1])[v] + (if v == ballots[|ballots| - 1] then 1 else 0)
  {
    assert ballots == ballots[..|ballots| - 1] + [ballots[|ballots| - 1]];
  }

  /** resort adds exactly the ballots it moves. */
  lemma {:induction false} ResortHeld(piles: seq<Pile>, ballots: seq<seq<int>>, loser: int, ncand: int, v: seq<int>)
    requires ResortAll(piles, ballots, loser, ncand).Some?
    ensures Held(ResortAll(piles, ballots, loser, ncand).value, v) == Held(piles, v) + multiset(ballots)[v]
    decreases |ballots|
  {
    if ballots != [] {
      var m := |ballots| - 1;
      ResortHeld(piles, ballots[..m], loser, ncand, v);
      PlaceHeld(ResortAll(piles, ballots[..m], loser, ncand).value, ballots[m], loser, ncand, v);
      MultisetLast(ballots, v);
    }
  }

  /** Where a ballot goes depends only on which piles are closed. */
  lemma {:induction false} TargetPattern(ballot: seq<int>, rank: int, p: seq<Pile>, q: seq<Pile>)
    requires SamePattern(p, q)
    ensures Target(ballot, rank, p) == Target(ballot, rank, q)
    decreases if rank < 0 then 0 else rank + 1
  {
    match IndexOf(ballot, rank)
    case None =>
    case Some(c) =>
      if c < |p| && p[c].Closed? && rank - 1 >= 0 {
        TargetPattern(ballot, rank - 1, p, q);
      }
  }

  /** resort of xs + ys is resort of xs, then of ys. */
  lemma {:induction false} ResortAppend(piles: seq<Pile>, xs: seq<seq<int>>, ys: seq<seq<int>>, loser: int, ncand: int)
    ensures ResortAll(piles, xs + ys, loser, ncand) ==
      match ResortAll(piles, xs, loser, ncand)
      case None => None
      case Some(p) => ResortAll(p, ys, loser, ncand)
    decreases |ys|
  {
    if ys == [] {
      assert xs + ys == xs;
    } else {
      var m := |ys| - 1;
      assert (xs + ys)[..|xs + ys| - 1] == xs + ys[..m];
      ResortAppend(piles, xs, ys[..m], loser, ncand);
    }
  }

  /** Ballots that all find the same open pile t end up, in order, at the end of that pile. */
  lemma {:induction false} ResortInto(piles: seq<Pile>, ballots: seq<seq<int>>, loser: int, ncand: int, t: nat)
    requires t < |piles| && piles[t].Open?
    requires forall k :: 0 <= k < |ballots| ==>
      StartRank(ballots[k], loser, ncand).Some? && Target(ballots[k], StartRank(ballots[k], loser, ncand).value, piles) == Some(t)
    ensures ResortAll(piles, ballots, loser, ncand) == Some(piles[t := Open(piles[t].ballots + ballots)])
    decreases |ballots|
  {
    if ballots == [] {
      assert piles[t].ballots + ballots == piles[t].ballots;
      assert piles[t := Open(piles[t].ballots)] == piles;
    } else {
      var m := |ballots| - 1;
      var b := ballots[m];
      ResortInto(piles, ballots[..m], loser, ncand, t);
      var q := piles[t := Open(piles[t].ballots + ballots[..m])];
      assert SamePattern(piles, q);
      TargetPattern(b, StartRank(b, loser, ncand).value, piles, q);
      assert Target(b, StartRank(b, loser, ncand).value, q) == Some(t);
      assert piles[t].ballots + ballots[..m] + [b] == piles[t].ballots + ballots;
      assert Place(q, b, loser, ncand) == Some(q[t := Open(q[t].ballots + [b])]);
      assert q[t := Open(q[t].ballots + [b])] == piles[t := Open(piles[t].ballots + ballots)];
    }
  }

  /** s' is s with one more open pile, the loser's, closed and given result i. */
  ghost predicate Eliminated(s: Stage, s': Stage, i: nat)
  {
    && |s'.piles| == |s.piles| && |s.results| == |s.piles|
    && 0 <= s'.loser < |s.piles| && s.piles[s'.loser].Open? && s'.piles[s'.loser].Closed?
    && (forall c :: 0 <= c < |s.piles| && c != s'.loser ==> (s'.piles[c].Closed? <==> s.piles[c].Closed?))
    && s'.results == s.results[s'.loser := i]
    && ClosedCount(s'.piles) == ClosedCount(s.piles) + 1
  }

  /**
   * A round eliminates one candidate whose pile was open, records round i
   * as its result, and closes no other pile.
   */
  lemma RoundPattern(s: Stage, ncand: nat, i: nat, draw: nat)
    requires |s.results| == |s.piles| && Round(s, ncand, i, draw).Some?
    ensures Eliminated(s, Round(s, ncand, i, draw).value, i)
  {
    var p := ResortAll(s.piles, s.loserPile, s.loser, ncand).value;
    ResortPattern(s.piles, s.loserPile, s.loser, ncand);
    var l := Winner(NegScores(p), draw);
    ClosedCountSame(p, s.piles);
    ClosedCountUpdate(p, l, Closed);
  }

  /**
   * A round keeps every ballot: the moved pile's ballots join the open
   * piles, and the eliminated candidate's pile becomes the one to move next.
   */
  lemma RoundKeepsBallots(s: Stage, ncand: nat, i: nat, draw: nat, v: seq<int>)
    requires |s.results| == |s.piles| && Round(s, ncand, i, draw).Some?
    ensures var s' := Round(s, ncand, i, draw).value;
      Held(s'.piles, v) + multiset(s'.loserPile)[v] == Held(s.piles, v) + multiset(s.loserPile)[v]
  {
    var p := ResortAll(s.piles, s.loserPile, s.loser, ncand).value;
    ResortHeld(s.piles, s.loserPile, s.loser, ncand, v);
    var l := Winner(NegScores(p), draw);
    HeldUpdate(p, l, Closed, v);
  }

  /** The candidate a round eliminates has, after resort, a pile no larger than any pile left open. */
  lemma RoundLoserSmallest(s: Stage, ncand: nat, i: nat, draw: nat)
    requires |s.results| == |s.piles| && Round(s, ncand, i, draw).Some?
    ensures var s' := Round(s, ncand, i, draw).value;
      forall c :: 0 <= c < |s'.piles| && s'.piles[c].Open? ==> |s'.loserPile| <= |s'.piles[c].ballots|
  {
    var p := ResortAll(s.piles, s.loserPile, s.loser, ncand).value;
    var neg := NegScores(p);
    var l := Winner(neg, draw);
    forall c | 0 <= c < |p| && c != l && p[c].Open?
      ensures |p[l].ballots| <= |p[c].ballots|
    {
      assert neg[c].value <= neg[l].value;
    }
  }

  // ---------------------------------------------------------------------
  // The finishing order is a ranking

  /**
   * After i rounds of a count of n candidates: i piles are closed, the
   * closed candidates hold distinct results among 0..i-1 and use each of
   * them, the others still hold -1, and the last loser is closed (or -1
   * before the first round).
   */
  ghost predicate Live(s: Stage, n: nat, i: nat)
  {
    && |s.piles| == n && |s.results| == n
    && ClosedCount(s.piles) == i
    && (i == 0 ==> s.loser == -1)
    && (i > 0 ==> 0 <= s.loser < n && s.piles[s.loser].Closed?)
    && (forall c :: 0 <= c < n ==> ResultFits(s.piles, s.results, c, i))
    && (forall c, d :: 0 <= c < d < n ==> ResultsDiffer(s.piles, s.results, c, d))
    && (forall k :: 0 <= k < i ==> Used(s.results, k))
  }

  /** A closed candidate's result is a round before i; an open one's is still -1. */
  ghost predicate ResultFits(piles: seq<Pile>, results: seq<int>, c: nat, i: nat)
  {
    c < |piles| && c < |results| &&
    if piles[c].Closed? then 0 <= results[c] < i else results[c] == -1
  }

  /** Two closed candidates have different results. */
  ghost predicate ResultsDiffer(piles: seq<Pile>, results: seq<int>, c: nat, d: nat)
  {
    c < |piles| && d < |piles| && c < |results| && d < |results| &&
    (piles[c].Closed? && piles[d].Closed? ==> results[c] != results[d])
  }

  ghost predicate Used(results: seq<int>, k: int)
  {
    k in results
  }

  lemma {:induction false} ClosedCountNone(p: seq<Pile>)
    requires forall c :: 0 <= c < |p| ==> p[c].Open?
    ensures ClosedCount(p) == 0
    decreases |p|
  {
    if p != [] {
      ClosedCountNone(p[..|p| - 1]);
    }
  }

  lemma StartLive(ballots: seq<seq<int>>, n: nat, s: Stage)
    requires s == Start(ballots, n)
    ensures Live(s, n, 0)
  {
    ClosedCountNone(s.piles);
    forall c | 0 <= c < n
      ensures ResultFits(s.piles, s.results, c, 0)
    {
      assert s.piles[c].Open?;
    }
  }

  lemma LiveStep(s: Stage, s': Stage, n: nat, i: nat)
    requires Live(s, n, i) && Eliminated(s, s', i)
    ensures Live(s', n, i + 1)
  {
    var l, j := s'.loser, i + 1;
    forall c | 0 <= c < n
      ensures ResultFits(s'.piles, s'.results, c, j)
    {
      assert ResultFits(s.piles, s.results, c, i);
    }
    forall c, d | 0 <= c < d < n
      ensures ResultsDiffer(s'.piles, s'.results, c, d)
    {
      assert ResultsDiffer(s.piles, s.results, c, d);
      assert ResultFits(s.piles, s.results, c, i);
      assert ResultFits(s.piles, s.results, d, i);
    }
    forall k | 0 <= k < i + 1
      ensures Used(s'.results, k)
    {
      if k < i {
        assert Used(s.results, k);
        var c :| 0 <= c < n && s.results[c] == k;
        assert ResultFits(s.piles, s.results, c, i);
        assert s'.results[c] == k;
      } else {
        assert s'.results[l] == k;
      }
    }
  }

  /** A round that goes through keeps Live, one round further on. */
  lemma LiveRound(s: Stage, n: nat, i: nat, draw: nat)
    requires Live(s, n, i) && Round(s, n, i, draw).Some?
    ensures Live(Round(s, n, i, draw).value, n, i + 1)
  {
    RoundPattern(s, n, i, draw);
    LiveStep(s, Round(s, n, i, draw).value, n, i);
  }

  /** The first of the rounds from i goes through and keeps Live. */
  lemma RunFromLiveStep(s: Stage, n: nat, i: nat, draws: seq<nat>, f: Stage) returns (r: Stage)
    requires Live(s, n, i) && i < n && RunFrom(s, n, i, draws) == Some(f)
    ensures Live(r, n, i + 1) && RunFrom(r, n, i + 1, draws) == Some(f)
  {
    RunFromStep(s, n, i, draws);
    r := Round(s, n, i, Draw(draws, i)).value;
    LiveRound(s, n, i, Draw(draws, i));
  }

  /** Live holds after the last round of a count that goes through. */
  lemma {:induction false} RunFromLive(s: Stage, n: nat, i: nat, draws: seq<nat>, f: Stage)
    requires Live(s, n, i) && i <= n && RunFrom(s, n, i, draws) == Some(f)
    ensures Live(f, n, n)
    decreases n - i
  {
    if i < n {
      var r := RunFromLiveStep(s, n, i, draws, f);
      RunFromLive(r, n, i + 1, draws, f);
    }
  }

  /** Once every pile is closed, Live says the results are a ranking. */
  lemma LiveDone(f: Stage, n: nat)
    requires Live(f, n, n)
    ensures IsRanking(f.results, n)
  {
    ClosedCountAll(f.piles);
    forall c | 0 <= c < n
      ensures 0 <= f.results[c] < n
    {
      assert ResultFits(f.piles, f.results, c, n);
    }
    forall c, d | 0 <= c < d < n
      ensures f.results[c] != f.results[d]
    {
      assert ResultsDiffer(f.piles, f.results, c, d);
    }
    forall k | 0 <= k < n
      ensures k in f.results
    {
      assert Used(f.results, k);
    }
  }

  /** Whatever the tie-breaks, a count that goes through gives every candidate a distinct round 0..n-1. */
  lemma IrvResultsRanking(ballots: seq<seq<int>>, draws: seq<nat>)
    requires IrvResults(ballots, draws).Some?
    ensures |ballots| > 0 && IsRanking(IrvResults(ballots, draws).value, |ballots[0]|)
  {
    var n := |ballots[0]|;
    StartLive(ballots, n, Start(ballots, n));
    var f := RunFrom(Start(ballots, n), n, 0, draws).value;
    RunFromLive(Start(ballots, n), n, 0, draws, f);
    LiveDone(f, n);
  }

  // ---------------------------------------------------------------------
  // An eliminated candidate's result is final

  lemma RunFromClosedStep(s: Stage, n: nat, i: nat, draws: seq<nat>, f: Stage, c: nat) returns (r: Stage)
    requires |s.results| == |s.piles| && c < |s.piles| && s.piles[c].Closed?
    requires i < n && RunFrom(s, n, i, draws) == Some(f)
    ensures |r.results| == |r.piles| == |s.piles| && r.piles[c].Closed? && r.results[c] == s.results[c]
    ensures RunFrom(r, n, i + 1, draws) == Some(f)
  {
    RunFromStep(s, n, i, draws);
    r := Round(s, n, i, Draw(draws, i)).value;
    RoundPattern(s, n, i, Draw(draws, i));
  }

  /** Later rounds never touch the result of a candidate already eliminated. */
  lemma {:induction false} RunFromKeepsClosed(s: Stage, n: nat, i: nat, draws: seq<nat>, f: Stage, c: nat)
    requires |s.results| == |s.piles| && c < |s.piles| && s.piles[c].Closed?
    requires RunFrom(s, n, i, draws) == Some(f)
    ensures c < |f.results| && f.results[c] == s.results[c]
    decreases n - i
  {
    if i < n {
      var r := RunFromClosedStep(s, n, i, draws, f, c);
      RunFromKeepsClosed(r, n, i + 1, draws, f, c);
    }
  }


  // ---------------------------------------------------------------------
  // No ballot is lost

  lemma {:induction false} HeldZero(p: seq<Pile>, v: seq<int>)
    requires forall c :: 0 <= c < |p| ==> InPile(p[c], v) == 0
    ensures Held(p, v) == 0
    decreases |p|
  {
    if p != [] {
      HeldZero(p[..|p| - 1], v);
    }
  }

  /** The first of the rounds from i goes through and keeps every ballot. */
  lemma RunFromKeepsStep(s: Stage, n: nat, i: nat, draws: seq<nat>, f: Stage, v: seq<int>) returns (r: Stage)
    requires |s.results| == |s.piles| && i < n && RunFrom(s, n, i, draws) == Some(f)
    ensures |r.results| == |r.piles| && RunFrom(r, n, i + 1, draws) == Some(f)
    ensures Held(r.piles, v) + multiset(r.loserPile)[v] == Held(s.piles, v) + multiset(s.loserPile)[v]
  {
    RunFromStep(s, n, i, draws);
    r := Round(s, n, i, Draw(draws, i)).value;
    RoundKeepsBallots(s, n, i, Draw(draws, i), v);
  }

  lemma {:induction false} RunFromKeeps(s: Stage, n: nat, i: nat, draws: seq<nat>, f: Stage, v: seq<int>)
    requires |s.results| == |s.piles| && i <= n && RunFrom(s, n, i, draws) == Some(f)
    ensures Held(f.piles, v) + multiset(f.loserPile)[v] == Held(s.piles, v) + multiset(s.loserPile)[v]
    decreases n - i
  {
    if i < n {
      var r := RunFromKeepsStep(s, n, i, draws, f, v);
      RunFromKeeps(r, n, i + 1, draws, f, v);
    }
  }

  /**
   * At the end of a count that goes through, every pile is closed and the
   * pile taken last, the winner's, holds exactly the ballots cast.
   */
  lemma IrvKeepsBallots(ballots: seq<seq<int>>, draws: seq<nat>, f: Stage)
    requires |ballots| > 0 && RunFrom(Start(ballots, |ballots[0]|), |ballots[0]|, 0, draws) == Some(f)
    ensures multiset(f.loserPile) == multiset(ballots)
  {
    var n := |ballots[0]|;
    var s := Start(ballots, n);
    StartLive(ballots, n, s);
    RunFromLive(s, n, 0, draws, f);
    ClosedCountAll(f.piles);
    forall v
      ensures multiset(f.loserPile)[v] == multiset(ballots)[v]
    {
      RunFromKeeps(s, n, 0, draws, f, v);
      HeldZero(s.piles, v);
      HeldZero(f.piles, v);
    }
  }

  // ---------------------------------------------------------------------
  // With ranking ballots the count always goes through

  /** Ballot b sits in candidate c's pile rightly: every candidate it ranks above c is eliminated. */
  ghost predicate Heads(b: seq<int>, c: nat, piles: seq<Pile>, n: nat)
  {
    IsRanking(b, n) && c < n && |piles| == n && forall d :: 0 <= d < n && b[d] > b[c] ==> piles[d].Closed?
  }

  /** Every ballot in every open pile sits there rightly. */
  ghost predicate Settled(piles: seq<Pile>, n: nat)
  {
    forall c, k :: 0 <= c < |piles| && piles[c].Open? && 0 <= k < |piles[c].ballots| ==> Heads(piles[c].ballots[k], c, piles, n)
  }

  /** Ballot b of the pile to move ranks every candidate above the last loser among the eliminated. */
  ghost predicate LoserHeads(b: seq<int>, loser: int, piles: seq<Pile>, n: nat)
  {
    && IsRanking(b, n) && |piles| == n
    && (loser >= 0 ==> loser < n && piles[loser].Closed? && forall d :: 0 <= d < n && b[d] > b[loser] ==> piles[d].Closed?)
  }

  ghost predicate Ready(s: Stage, n: nat)
  {
    Settled(s.piles, n) && forall k :: 0 <= k < |s.loserPile| ==> LoserHeads(s.loserPile[k], s.loser, s.piles, n)
  }

  /** Every pile closed in p is closed in q. */
  ghost predicate MoreClosed(p: seq<Pile>, q: seq<Pile>)
  {
    |p| == |q| && forall d :: 0 <= d < |p| && p[d].Closed? ==> q[d].Closed?
  }

  lemma HeadsMoreClosed(b: seq<int>, c: nat, p: seq<Pile>, q: seq<Pile>, n: nat)
    requires Heads(b, c, p, n) && MoreClosed(p, q)
    ensures Heads(b, c, q, n)
  {
  }

  /**
   * Walking down from `rank`, a ranking ballot finds an open pile when one
   * ranked at most `rank` exists and all above `rank` are closed; it sits there rightly.
   */
  lemma {:induction false} TargetFinds(b: seq<int>, rank: int, piles: seq<Pile>, n: nat, e: nat)
    requires IsRanking(b, n) && |piles| == n && 0 <= rank < n
    requires e < n && piles[e].Open? && b[e] <= rank
    requires forall d :: 0 <= d < n && b[d] > rank ==> piles[d].Closed?
    ensures Target(b, rank, piles).Some? && Heads(b, Target(b, rank, piles).value, piles, n)
    decreases rank
  {
    assert rank in b;
    var c := IndexOf(b, rank).value;
    if piles[c].Closed? {
      assert c != e;
      assert b[e] != b[c] by {
        if c < e {} else {}
      }
      forall d | 0 <= d < n && b[d] > rank - 1
        ensures piles[d].Closed?
      {
        if d != c {
          assert b[d] != b[c] by {
            if c < d {} else {}
          }
        }
      }
      TargetFinds(b, rank - 1, piles, n, e);
    }
  }

  /** A ballot moved from the loser's pile finds an open pile and sits there rightly. */
  lemma PlaceFinds(piles: seq<Pile>, b: seq<int>, loser: int, n: nat, e: nat)
    requires LoserHeads(b, loser, piles, n) && Settled(piles, n)
    requires e < n && piles[e].Open?
    ensures Place(piles, b, loser, n).Some?
    ensures Settled(Place(piles, b, loser, n).value, n)
  {
    var start := if loser < 0 then n - 1 else b[loser] - 1;
    if loser >= 0 {
      assert !(b[e] > b[loser]);
      assert e != loser;
      assert b[e] != b[loser] by {
        if e < loser {} else {}
      }
      forall d | 0 <= d < n && b[d] > start
        ensures piles[d].Closed?
      {
        if d != loser {
          assert b[d] != b[loser] by {
            if d < loser {} else {}
          }
        }
      }
    }
    TargetFinds(b, start, piles, n, e);
    var t := Target(b, start, piles).value;
    var q := piles[t := Open(piles[t].ballots + [b])];
    assert MoreClosed(piles, q);
    forall c, k | 0 <= c < |q| && q[c].Open? && 0 <= k < |q[c].ballots|
      ensures Heads(q[c].ballots[k], c, q, n)
    {
      if c == t && k == |piles[t].ballots| {
        HeadsMoreClosed(b, t, piles, q, n);
      } else {
        assert q[c].ballots[k] == piles[c].ballots[k];
        HeadsMoreClosed(q[c].ballots[k], c, piles, q, n);
      }
    }
  }

  lemma {:induction false} ResortFinds(piles: seq<Pile>, ballots: seq<seq<int>>, loser: int, n: nat, e: nat)
    requires Settled(piles, n) && |piles| == n && e < n && piles[e].Open?
    requires forall k :: 0 <= k < |ballots| ==> LoserHeads(ballots[k], loser, piles, n)
    ensures ResortAll(piles, ballots, loser, n).Some?
    ensures Settled(ResortAll(piles, ballots, loser, n).value, n)
    decreases |ballots|
  {
    if ballots != [] {
      var m := |ballots| - 1;
      ResortFinds(piles, ballots[..m], loser, n, e);
      var p := ResortAll(piles, ballots[..m], loser, n).value;
      ResortPattern(piles, ballots[..m], loser, n);
      PlaceFinds(p, ballots[m], loser, n, e);
    }
  }

  /** Closing an open pile of settled piles and moving its ballots next leaves every ballot rightly placed. */
  lemma ReadyAfter(p: seq<Pile>, l: nat, n: nat, results: seq<int>)
    requires Settled(p, n) && l < |p| && p[l].Open?
    ensures Ready(Stage(p[l := Closed], p[l].ballots, l, results), n)
  {
    var q := p[l := Closed];
    assert MoreClosed(p, q);
    forall c, k | 0 <= c < |q| && q[c].Open? && 0 <= k < |q[c].ballots|
      ensures Heads(q[c].ballots[k], c, q, n)
    {
      HeadsMoreClosed(q[c].ballots[k], c, p, q, n);
    }
    forall k | 0 <= k < |p[l].ballots|
      ensures LoserHeads(p[l].ballots[k], l, q, n)
    {
      HeadsMoreClosed(p[l].ballots[k], l, p, q, n);
    }
  }

  /** While a pile is open, a round on ranking ballots goes through and leaves every ballot rightly placed. */
  lemma RoundFinds(s: Stage, n: nat, i: nat, draw: nat)
    requires Live(s, n, i) && Ready(s, n) && i < n
    ensures Round(s, n, i, draw).Some? && Ready(Round(s, n, i, draw).value, n)
  {
    ClosedCountAll(s.piles);
    var e :| 0 <= e < n && s.piles[e].Open?;
    ResortFinds(s.piles, s.loserPile, s.loser, n, e);
    ResortPattern(s.piles, s.loserPile, s.loser, n);
    var p := ResortAll(s.piles, s.loserPile, s.loser, n).value;
    assert NegScores(p)[e].Num?;
    RoundValue(s, n, i, draw, p);
    var l := Winner(NegScores(p), draw);
    ReadyAfter(p, l, n, s.results[l := i]);
  }

  /** The first of the rounds from i goes through and keeps Live and Ready. */
  lemma RunFromFindsStep(s: Stage, n: nat, i: nat, draws: seq<nat>) returns (r: Stage)
    requires Live(s, n, i) && Ready(s, n) && i < n
    ensures Live(r, n, i + 1) && Ready(r, n)
    ensures RunFrom(s, n, i, draws) == RunFrom(r, n, i + 1, draws)
  {
    RunFromStep(s, n, i, draws);
    RoundFinds(s, n, i, Draw(draws, i));
    LiveRound(s, n, i, Draw(draws, i));
    r := Round(s, n, i, Draw(draws, i)).value;
  }

  lemma {:induction false} RunFromFinds(s: Stage, n: nat, i: nat, draws: seq<nat>)
    requires Live(s, n, i) && Ready(s, n) && i <= n
    ensures RunFrom(s, n, i, draws).Some?
    decreases n - i
  {
    if i < n {
      var r := RunFromFindsStep(s, n, i, draws);
      RunFromFinds(r, n, i + 1, draws);
    }
  }

  /**
   * When every ballot ranks the same n candidates, the count never runs
   * out of ranks in resort and always finds a pile to eliminate, whatever
   * the tie-breaks.
   */
  lemma IrvResultsTotal(ballots: seq<seq<int>>, draws: seq<nat>)
    requires |ballots| > 0 && forall k :: 0 <= k < |ballots| ==> IsRanking(ballots[k], |ballots[0]|)
    ensures IrvResults(ballots, draws).Some?
  {
    var n := |ballots[0]|;
    var s := Start(ballots, n);
    StartLive(ballots, n, s);
    assert Ready(s, n);
    RunFromFinds(s, n, 0, draws);
  }
}
