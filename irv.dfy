/**
 * Instant-runoff voting (methods.py). A ballot is a ranking: candidate c
 * gets rank b[c] in 0..n-1, and n-1 is the first choice. The honest ballot
 * ranks by utility; the strategic ballot puts the poll leader just above
 * every candidate the voter does not strictly prefer to it. The count
 * moves ballots between piles until every candidate has been eliminated.
 */
module Irv {
  import opened Seqs
  import opened Framework

  // ---------------------------------------------------------------------
  // Honest ballot

  /** Irv.honBallot: the rank of each candidate is its place in the stable ascending sort of the utilities. */
  function HonBallot(voter: seq<real>): seq<int>
  {
    Inverse(SortIndices(voter), |voter|)
  }

  /**
   * The honest ballot is a ranking, and it ranks c below d exactly when the
   * voter likes c less, or likes them equally and c has the smaller index.
   */
  lemma HonBallotOrder(voter: seq<real>)
    ensures IsRanking(HonBallot(voter), |voter|)
    ensures forall c, d :: 0 <= c < |voter| && 0 <= d < |voter| ==>
      (HonBallot(voter)[c] < HonBallot(voter)[d] <==> Precedes(voter, c, d))
  {
    var n, o := |voter|, SortIndices(voter);
    var b := HonBallot(voter);
    OrderFacts(o, n);
    forall c, d | 0 <= c < n && 0 <= d < n
      ensures b[c] < b[d] <==> Precedes(voter, c, d)
    {
      assert c in o && d in o;
      var k :| 0 <= k < n && o[k] == c;
      var l :| 0 <= l < n && o[l] == d;
      assert b[c] == k && b[d] == l;
      if l < k {
        assert Precedes(voter, d, c);
      }
    }
  }

  /** Irv.honBallot as written: fill a ballot of -1s by walking the sorted order. */
  method HonBallotFill(voter: seq<real>) returns (ballot: seq<int>)
    ensures ballot == HonBallot(voter)
  {
    var n := |voter|;
    var order := SortIndices(voter);
    OrderFacts(order, n);
    var a := new int[n](_ => -1);
    for i := 0 to n
      invariant forall p :: 0 <= p < i ==> a[order[p]] == p
    {
      a[order[i]] := i;
    }
    RankingFromOrder(a[..], order, n);
    ballot := a[..];
  }

  lemma HonBallotExample(voter: seq<real>)
    requires |voter| == 4 && voter[0] == 4.0 && voter[1] == 1.0 && voter[2] == 6.0 && voter[3] == 3.0
    ensures HonBallot(voter) == [2, 0, 3, 1]
  {
    HonBallotOrder(voter);
    var b := HonBallot(voter);
    assert b[1] < b[3];
    assert b[3] < b[0];
    assert b[0] < b[2];
    ChainOfFour(b, 1, 3, 0, 2);
    assert b == [2, 0, 3, 1];
  }

  // ---------------------------------------------------------------------
  // Strategic ballot

  /** The voter strictly prefers candidate x to the utility q. */
  predicate Prefers(voter: seq<real>, q: real, x: nat)
  {
    x < |voter| && voter[x] > q
  }

  /** The candidates of `xs`, in order, that the voter strictly prefers to `q` (`pref`), or the others. */
  function Kept(voter: seq<real>, q: real, xs: seq<nat>, pref: bool): (r: seq<nat>)
    ensures |r| <= |xs|
    ensures forall i :: 0 <= i < |r| ==> (Prefers(voter, q, r[i]) <==> pref)
  {
    if xs == [] then []
    else (if Prefers(voter, q, xs[0]) == pref then [xs[0]] else []) + Kept(voter, q, xs[1..], pref)
  }

  lemma {:induction false} KeptConcat(voter: seq<real>, q: real, xs: seq<nat>, ys: seq<nat>, pref: bool)
    ensures Kept(voter, q, xs + ys, pref) == Kept(voter, q, xs, pref) + Kept(voter, q, ys, pref)
    decreases |xs|
  {
    if xs == [] {
      assert xs + ys == ys;
    } else {
      var zs := xs + ys;
      assert zs[0] == xs[0] && zs[1..] == xs[1..] + ys;
      KeptConcat(voter, q, xs[1..], ys, pref);
      assert Kept(voter, q, zs, pref) ==
        (if Prefers(voter, q, xs[0]) == pref then [xs[0]] else []) + Kept(voter, q, xs[1..] + ys, pref);
    }
  }

  /** The two filters split `xs` between them. */
  lemma {:induction false} KeptSplit(voter: seq<real>, q: real, xs: seq<nat>)
    ensures multiset(Kept(voter, q, xs, true)) + multiset(Kept(voter, q, xs, false)) == multiset(xs)
  {
    if xs != [] {
      var t := xs[1..];
      KeptSplit(voter, q, t);
      assert xs == [xs[0]] + t;
      var a, b := Kept(voter, q, xs, true), Kept(voter, q, xs, false);
      if Prefers(voter, q, xs[0]) {
        assert a == [xs[0]] + Kept(voter, q, t, true) && b == Kept(voter, q, t, false);
      } else {
        assert a == Kept(voter, q, t, true) && b == [xs[0]] + Kept(voter, q, t, false);
      }
    }
  }

  /** Cutting `p[lo..hi]` at `mid`: the kept candidates before it, `p[mid]` if kept, and those after it. */
  lemma KeptAt(voter: seq<real>, q: real, p: seq<nat>, lo: nat, mid: nat, hi: nat, pref: bool)
    requires lo <= mid < hi <= |p|
    ensures Kept(voter, q, p[lo..hi], pref) ==
      Kept(voter, q, p[lo..mid], pref) + (if Prefers(voter, q, p[mid]) == pref then [p[mid]] else []) + Kept(voter, q, p[mid + 1..hi], pref)
  {
    assert p[lo..hi] == p[lo..mid] + [p[mid]] + p[mid + 1..hi];
    KeptConcat(voter, q, p[lo..mid] + [p[mid]], p[mid + 1..hi], pref);
    KeptConcat(voter, q, p[lo..mid], [p[mid]], pref);
    assert [p[mid]][1..] == [];
  }

  function Reverse(s: seq<nat>): (r: seq<nat>)
    ensures |r| == |s| && multiset(r) == multiset(s)
    ensures forall k :: 0 <= k < |s| ==> r[k] == s[|s| - 1 - k]
  {
    if s == [] then []
    else
      assert s == [s[0]] + s[1..];
      Reverse(s[1..]) + [s[0]]
  }

  /**
   * The order built from the poll order `p`, from the lowest rank up: the
   * rest of the poll not preferred to its head, last place first; the head;
   * then the rest preferred to the head, in poll order.
   */
  function SplitAround(voter: seq<real>, p: seq<nat>): (o: seq<nat>)
    requires |p| >= 1 && p[0] < |voter|
    ensures |o| == |p| && multiset(o) == multiset(p)
    ensures IsOrder(p, |p|) ==> IsOrder(o, |p|)
  {
    var q, rest := voter[p[0]], p[1..];
    var nf, k := Kept(voter, q, rest, false), Kept(voter, q, rest, true);
    var lead: seq<nat> := [p[0]];
    var o: seq<nat> := Reverse(nf) + lead + k;
    assert multiset(o) == multiset(p) by {
      assert p == lead + rest;
      KeptSplit(voter, q, rest);
      assert multiset(o) == multiset(nf) + multiset(lead) + multiset(k);
    }
    assert |o| == |multiset(o)|;
    assert IsOrder(p, |p|) ==> IsOrder(o, |p|) by {
      if IsOrder(p, |p|) {
        forall i | 0 <= i < |o| ensures o[i] < |p| {
          assert o[i] in multiset(o);
        }
      }
    }
    o
  }

  /** How many of the rest of the poll the voter does not prefer to its head. */
  function Below(voter: seq<real>, p: seq<nat>): nat
    requires |p| >= 1 && p[0] < |voter|
  {
    |Kept(voter, voter[p[0]], p[1..], false)|
  }

  /** Cutting the rest of the poll `p[lo..]` at `mid`. */
  lemma KeptAtSuffix(voter: seq<real>, q: real, p: seq<nat>, lo: nat, mid: nat, pref: bool)
    requires lo <= mid < |p|
    ensures Kept(voter, q, p[lo..], pref) ==
      Kept(voter, q, p[lo..mid], pref) + (if Prefers(voter, q, p[mid]) == pref then [p[mid]] else []) + Kept(voter, q, p[mid + 1..], pref)
  {
    assert p[lo..] == p[lo..mid] + [p[mid]] + p[mid + 1..];
    KeptConcat(voter, q, p[lo..mid] + [p[mid]], p[mid + 1..], pref);
    KeptConcat(voter, q, p[lo..mid], [p[mid]], pref);
    assert [p[mid]][1..] == [];
  }

  /** The three parts of the split order, whose lengths add up to the poll's. */
  lemma SplitAroundParts(voter: seq<real>, p: seq<nat>)
    requires |p| >= 1 && p[0] < |voter|
    ensures var q := voter[p[0]];
      var nf, k := Kept(voter, q, p[1..], false), Kept(voter, q, p[1..], true);
      && SplitAround(voter, p) == Reverse(nf) + [p[0]] + k
      && |nf| + |k| == |p| - 1
  {
    var q := voter[p[0]];
    var nf, k := Kept(voter, q, p[1..], false), Kept(voter, q, p[1..], true);
    KeptSplit(voter, q, p[1..]);
    assert |multiset(nf)| + |multiset(k)| == |multiset(p[1..])|;
  }

  /** The head of the poll sits right above the candidates not preferred to it. */
  lemma HeadPosition(voter: seq<real>, p: seq<nat>)
    requires |p| >= 1 && p[0] < |voter|
    ensures Below(voter, p) < |p| && SplitAround(voter, p)[Below(voter, p)] == p[0]
  {
    SplitAroundParts(voter, p);
  }

  /** A preferred candidate at place j sits above the head, under the preferred ones that poll worse. */
  lemma PrefPosition(voter: seq<real>, p: seq<nat>, j: nat)
    requires 1 <= j < |p| && p[0] < |voter| && Prefers(voter, voter[p[0]], p[j])
    ensures var k := |p| - 1 - |Kept(voter, voter[p[0]], p[j + 1..], true)|;
      Below(voter, p) < k < |p| && SplitAround(voter, p)[k] == p[j]
  {
    var q := voter[p[0]];
    SplitAroundParts(voter, p);
    KeptAtSuffix(voter, q, p, 1, j, true);
    var nf, k := Kept(voter, q, p[1..], false), Kept(voter, q, p[1..], true);
    var before := Kept(voter, q, p[1..j], true);
    assert k[|before|] == p[j];
    assert SplitAround(voter, p)[|nf| + 1 + |before|] == k[|before|];
  }

  /** The candidate at place j, not preferred to the head, follows the other such candidates of `p[1..j]` in the filter. */
  lemma NotPrefIndex(voter: seq<real>, q: real, p: seq<nat>, j: nat)
    requires 1 <= j < |p| && !Prefers(voter, q, p[j])
    ensures var before := Kept(voter, q, p[1..j], false);
      |before| < |Kept(voter, q, p[1..], false)| && Kept(voter, q, p[1..], false)[|before|] == p[j]
  {
    KeptAtSuffix(voter, q, p, 1, j, false);
  }

  /** Below the head's place, the split order is the reversed filter of the candidates not preferred to the head. */
  lemma SplitAroundLow(voter: seq<real>, p: seq<nat>, i: nat)
    requires |p| >= 1 && p[0] < |voter| && i < Below(voter, p)
    ensures var nf := Kept(voter, voter[p[0]], p[1..], false);
      SplitAround(voter, p)[i] == nf[|nf| - 1 - i]
  {
    SplitAroundParts(voter, p);
  }

  /** A candidate at place j not preferred to the head sits below it, under the others that poll better. */
  lemma NotPrefPosition(voter: seq<real>, p: seq<nat>, j: nat)
    requires 1 <= j < |p| && p[0] < |voter| && !Prefers(voter, voter[p[0]], p[j])
    ensures var k := Below(voter, p) - 1 - |Kept(voter, voter[p[0]], p[1..j], false)|;
      0 <= k < Below(voter, p) && SplitAround(voter, p)[k] == p[j]
  {
    var q := voter[p[0]];
    var before := Kept(voter, q, p[1..j], false);
    NotPrefIndex(voter, q, p, j);
    SplitAroundLow(voter, p, Below(voter, p) - 1 - |before|);
  }

  /** In the order o, every preferred candidate of the poll p sits under the preferred ones that poll worse. */
  predicate PrefPlaced(voter: seq<real>, p: seq<nat>, o: seq<nat>)
    requires |p| >= 1 && p[0] < |voter| && |o| == |p|
  {
    forall j :: 1 <= j < |p| && Prefers(voter, voter[p[0]], p[j]) ==>
      var k := |p| - 1 - |Kept(voter, voter[p[0]], p[j + 1..], true)|;
      0 <= k && o[k] == p[j]
  }

  /** In the order o, every other candidate of the poll p sits under the others that poll better, under the head's place. */
  predicate NotPrefPlaced(voter: seq<real>, p: seq<nat>, o: seq<nat>)
    requires |p| >= 1 && p[0] < |voter| && |o| == |p|
  {
    forall j :: 1 <= j < |p| && !Prefers(voter, voter[p[0]], p[j]) ==>
      var k := Below(voter, p) - 1 - |Kept(voter, voter[p[0]], p[1..j], false)|;
      0 <= k && o[k] == p[j]
  }

  /** The split order places every candidate as PrefPosition, NotPrefPosition and HeadPosition say. */
  lemma SplitAroundPlaces(voter: seq<real>, p: seq<nat>)
    requires |p| >= 1 && p[0] < |voter|
    ensures PrefPlaced(voter, p, SplitAround(voter, p))
    ensures NotPrefPlaced(voter, p, SplitAround(voter, p))
    ensures |Kept(voter, voter[p[0]], p[1..], true)| == |p| - 1 - Below(voter, p)
    ensures Below(voter, p) < |p| && SplitAround(voter, p)[Below(voter, p)] == p[0]
  {
    var o := SplitAround(voter, p);
    forall j | 1 <= j < |p| && Prefers(voter, voter[p[0]], p[j])
      ensures var k := |p| - 1 - |Kept(voter, voter[p[0]], p[j + 1..], true)|;
        0 <= k && o[k] == p[j]
    {
      PrefPosition(voter, p, j);
    }
    forall j | 1 <= j < |p| && !Prefers(voter, voter[p[0]], p[j])
      ensures var k := Below(voter, p) - 1 - |Kept(voter, voter[p[0]], p[1..j], false)|;
        0 <= k && o[k] == p[j]
    {
      NotPrefPosition(voter, p, j);
    }
    SplitAroundParts(voter, p);
    HeadPosition(voter, p);
  }

  /**
   * The strategic ballot as an order from the lowest rank up: the
   * candidates not preferred to the leader, weakest in the poll first; the
   * poll leader; then the preferred candidates, strongest in the poll first.
   */
  function StratOrder(info: seq<real>, voter: seq<real>): (o: seq<nat>)
    requires 2 <= |info| == |voter|
    ensures IsOrder(o, |info|)
  {
    SplitAround(voter, Places(info))
  }

  /** Irv.stratBallotFor(info) applied to a voter; `stratGap < 0` means complacent. */
  function StratBallot(info: seq<real>, voter: seq<real>): (r: StratRecord)
    requires 2 <= |info| == |voter|
    ensures r.stratGap == voter[RunnerUp(info)] - voter[Leader(info)]
    ensures r.isStrat <==> voter[RunnerUp(info)] >= voter[Leader(info)]
    ensures r.extraStrat.None?
    ensures IsRanking(r.strat, |info|)
  {
    var p := Places(info);
    var gap := voter[p[1]] - voter[p[0]];
    StratRecord(Inverse(StratOrder(info, voter), |info|), None, !(gap < 0.0), gap)
  }

  /** The ranks of the leader and of the candidate at place j of the poll. */
  lemma StratRank(info: seq<real>, voter: seq<real>, j: nat)
    requires 2 <= |info| == |voter| && 1 <= j < |info|
    ensures var b, p := StratBallot(info, voter).strat, Places(info);
      var q := voter[p[0]];
      && b[p[0]] == Below(voter, p)
      && (Prefers(voter, q, p[j]) ==> b[p[j]] == |info| - 1 - |Kept(voter, q, p[j + 1..], true)| > Below(voter, p))
      && (!Prefers(voter, q, p[j]) ==> b[p[j]] == Below(voter, p) - 1 - |Kept(voter, q, p[1..j], false)| < Below(voter, p))
  {
    var p := Places(info);
    var o := StratOrder(info, voter);
    HeadPosition(voter, p);
    if Prefers(voter, voter[p[0]], p[j]) {
      PrefPosition(voter, p, j);
    } else {
      NotPrefPosition(voter, p, j);
    }
  }

  /** A candidate other than the leader ranks above it exactly when the voter strictly prefers it. */
  lemma StratAbove(info: seq<real>, voter: seq<real>, c: nat)
    requires 2 <= |info| == |voter| && c < |info| && c != Leader(info)
    ensures var b, lead := StratBallot(info, voter).strat, Leader(info);
      b[c] > b[lead] <==> voter[c] > voter[lead]
  {
    var p := Places(info);
    OrderFacts(p, |info|);
    assert c in p;
    var j :| 0 <= j < |info| && p[j] == c;
    StratRank(info, voter, j);
  }

  /**
   * The strategic ballot puts exactly the candidates the voter strictly
   * prefers to the poll leader above it.
   */
  lemma StratBallotSplits(info: seq<real>, voter: seq<real>)
    requires 2 <= |info| == |voter|
    ensures var b, lead := StratBallot(info, voter).strat, Leader(info);
      forall c :: 0 <= c < |info| && c != lead ==> (b[c] > b[lead] <==> voter[c] > voter[lead])
  {
    forall c | 0 <= c < |info| && c != Leader(info)
      ensures var b, lead := StratBallot(info, voter).strat, Leader(info);
        b[c] > b[lead] <==> voter[c] > voter[lead]
    {
      StratAbove(info, voter, c);
    }
  }

  /**
   * c comes before d in the poll order `places`: it polls higher, or the
   * same with a smaller index (the sort is stable).
   */
  predicate PlacedBefore(info: seq<real>, c: nat, d: nat)
    requires c < |info| && d < |info|
  {
    info[c] > info[d] || (info[c] == info[d] && c < d)
  }

  /**
   * Among the candidates the voter prefers to the poll leader, the one later
   * in the poll order ranks higher; among the rest, the one earlier in the
   * poll order ranks higher.
   */
  lemma StratBallotPollOrder(info: seq<real>, voter: seq<real>)
    requires 2 <= |info| == |voter|
    ensures var b, lead := StratBallot(info, voter).strat, Leader(info);
      forall c, d :: 0 <= c < |info| && 0 <= d < |info| && c != lead && d != lead && PlacedBefore(info, c, d) ==>
        (voter[c] > voter[lead] && voter[d] > voter[lead] ==> b[c] < b[d]) &&
        (voter[c] <= voter[lead] && voter[d] <= voter[lead] ==> b[c] > b[d])
  {
    forall c, d | 0 <= c < |info| && 0 <= d < |info| && c != Leader(info) && d != Leader(info) && PlacedBefore(info, c, d)
      ensures var b, lead := StratBallot(info, voter).strat, Leader(info);
        (voter[c] > voter[lead] && voter[d] > voter[lead] ==> b[c] < b[d]) &&
        (voter[c] <= voter[lead] && voter[d] <= voter[lead] ==> b[c] > b[d])
    {
      StratPair(info, voter, c, d);
    }
  }

  /** A candidate placed before another sits at an earlier place of the poll. */
  lemma PlaceBefore(info: seq<real>, j: nat, k: nat)
    requires j < |info| && k < |info|
    requires PlacedBefore(info, Places(info)[j], Places(info)[k])
    ensures j < k
  {
  }

  /** Two candidates other than the leader, c placed before d in the poll. */
  lemma StratPair(info: seq<real>, voter: seq<real>, c: nat, d: nat)
    requires 2 <= |info| == |voter| && c < |info| && d < |info|
    requires c != Leader(info) && d != Leader(info) && PlacedBefore(info, c, d)
    ensures var b, q := StratBallot(info, voter).strat, voter[Leader(info)];
      && (voter[c] > q && voter[d] > q ==> b[c] < b[d])
      && (voter[c] <= q && voter[d] <= q ==> b[c] > b[d])
  {
    var p, n := Places(info), |info|;
    var q := voter[p[0]];
    OrderFacts(p, n);
    assert c in p && d in p;
    var j :| 0 <= j < n && p[j] == c;
    var k :| 0 <= k < n && p[k] == d;
    PlaceBefore(info, j, k);
    assert 1 <= j < k;
    StratRank(info, voter, j);
    StratRank(info, voter, k);
    if voter[c] > q && voter[d] > q {
      KeptAtSuffix(voter, q, p, j + 1, k, true);
      assert |Kept(voter, q, p[j + 1..], true)| >= 1 + |Kept(voter, q, p[k + 1..], true)|;
    }
    if voter[c] <= q && voter[d] <= q {
      KeptAt(voter, q, p, 1, j, k, false);
      assert |Kept(voter, q, p[1..k], false)| >= 1 + |Kept(voter, q, p[1..j], false)|;
    }
  }

  /** Counting the preferred candidates of the poll from place j on, one place at a time. */
  lemma PrefCountStep(voter: seq<real>, q: real, p: seq<nat>, j: nat)
    requires j < |p|
    ensures |Kept(voter, q, p[j..], true)| == |Kept(voter, q, p[j + 1..], true)| + (if Prefers(voter, q, p[j]) then 1 else 0)
  {
    assert p[j..][0] == p[j] && p[j..][1..] == p[j + 1..];
  }

  /** Counting the other candidates of the poll from place 1 up to j, one place at a time. */
  lemma NotPrefCountStep(voter: seq<real>, q: real, p: seq<nat>, j: nat)
    requires 1 <= j < |p|
    ensures |Kept(voter, q, p[1..j + 1], false)| == |Kept(voter, q, p[1..j], false)| + (if Prefers(voter, q, p[j]) then 0 else 1)
  {
    KeptAt(voter, q, p, 1, j, j + 1, false);
    assert p[j + 1..j + 1] == [];
  }

  /** Irv.stratBallotFor as written: the poll is sorted, then the ballot is filled by walking it. */
  method StratBallotFill(info: seq<real>, voter: seq<real>) returns (ballot: seq<int>)
    requires 2 <= |info| == |voter|
    ensures ballot == StratBallot(info, voter).strat
  {
    var places := Places(info);
    ballot := FillAround(voter, places);
  }

  /**
   * The filling of Irv.stratBallotFor, for the poll order `places`: one pass
   * up the poll from the bottom giving the preferred candidates the top
   * ranks, the leader, then one pass down giving the others the ranks under it.
   */
  method FillAround(voter: seq<real>, places: seq<nat>) returns (ballot: seq<int>)
    requires 2 <= |voter| && IsOrder(places, |voter|)
    ensures ballot == Inverse(SplitAround(voter, places), |voter|)
  {
    var n := |voter|;
    ghost var o := SplitAround(voter, places);
    SplitAroundPlaces(voter, places);
    var a := new int[n](_ => -1);
    var i := FillPreferred(voter, places, a, o);
    PlaceAt(a, o, i, places[0]);
    FillRest(voter, places, a, o, i - 1);
    RankingFromOrder(a[..], o, n);
    ballot := a[..];
  }

  /** Giving rank i to the candidate at place i of the order o keeps the places from i up filled. */
  method PlaceAt(a: array<int>, ghost o: seq<nat>, i: nat, x: nat)
    requires IsOrder(o, a.Length) && i < a.Length && o[i] == x
    requires forall t :: i < t < a.Length ==> a[o[t]] == t
    modifies a
    ensures forall t :: i <= t < a.Length ==> a[o[t]] == t
  {
    OrderFacts(o, a.Length);
    a[x] := i;
  }

  /** The pass up the poll: the preferred candidates take the ranks from the top down. */
  method FillPreferred(voter: seq<real>, places: seq<nat>, a: array<int>, ghost o: seq<nat>) returns (i: int)
    requires 2 <= |voter| == a.Length && IsOrder(places, |voter|) && IsOrder(o, |voter|)
    requires PrefPlaced(voter, places, o)
    modifies a
    ensures i == |voter| - 1 - |Kept(voter, voter[places[0]], places[1..], true)|
    ensures forall t :: i < t < |voter| ==> a[o[t]] == t
  {
    var n := |voter|;
    var winnerQ := voter[places[0]];
    i := n - 1;
    var j := n - 1;
    assert places[n..] == [];
    while j > 0
      invariant 0 <= j <= i <= n - 1
      invariant i == n - 1 - |Kept(voter, winnerQ, places[j + 1..], true)|
      invariant forall t :: i < t < n ==> a[o[t]] == t
    {
      var x := places[j];
      PrefCountStep(voter, winnerQ, places, j);
      if voter[x] > winnerQ {
        PlaceAt(a, o, i, x);
        i := i - 1;
      }
      j := j - 1;
    }
  }

  /** The pass down the poll: the other candidates take the ranks under the leader's. */
  method FillRest(voter: seq<real>, places: seq<nat>, a: array<int>, ghost o: seq<nat>, i0: int)
    requires 2 <= |voter| == a.Length && IsOrder(places, |voter|) && IsOrder(o, |voter|)
    requires NotPrefPlaced(voter, places, o)
    requires i0 == Below(voter, places) - 1
    requires forall t :: i0 < t < |voter| ==> a[o[t]] == t
    modifies a
    ensures forall t :: 0 <= t < |voter| ==> a[o[t]] == t
  {
    var n := |voter|;
    var winnerQ := voter[places[0]];
    var i := i0;
    var j := 1;
    assert places[1..1] == [];
    while j < n
      invariant 1 <= j <= n && -1 <= i
      invariant i == Below(voter, places) - 1 - |Kept(voter, winnerQ, places[1..j], false)|
      invariant forall t :: i < t < n ==> a[o[t]] == t
    {
      var x := places[j];
      NotPrefCountStep(voter, winnerQ, places, j);
      if voter[x] <= winnerQ {
        PlaceAt(a, o, i, x);
        i := i - 1;
      }
      j := j + 1;
    }
    assert places[1..j] == places[1..];
  }

  /** The ranks of the strategic-ballot doctest, in increasing order. */
  lemma StratBallotExampleChain(info: seq<real>, voter: seq<real>)
    requires |info| == 4 && info[0] == 3.0 && info[1] == 2.0 && info[2] == 1.0 && info[3] == 0.0
    requires |voter| == 4 && voter[0] == 3.0 && voter[1] == 6.0 && voter[2] == 5.0 && voter[3] == 2.0
    ensures var b := StratBallot(info, voter).strat;
      IsRanking(b, 4) && b[3] < b[0] < b[1] < b[2]
  {
    TopTwo(info, 0, 1);
    StratAbove(info, voter, 1);
    StratAbove(info, voter, 2);
    StratAbove(info, voter, 3);
    StratPair(info, voter, 1, 2);
  }

  lemma StratBallotExample(info: seq<real>, voter: seq<real>)
    requires |info| == 4 && info[0] == 3.0 && info[1] == 2.0 && info[2] == 1.0 && info[3] == 0.0
    requires |voter| == 4 && voter[0] == 3.0 && voter[1] == 6.0 && voter[2] == 5.0 && voter[3] == 2.0
    ensures StratBallot(info, voter).strat == [1, 2, 3, 0]
  {
    StratBallotExampleChain(info, voter);
    RanksOfFour(StratBallot(info, voter).strat);
  }

  /** A ranking of four candidates in which 3, 0, 1, 2 rise in turn. */
  lemma RanksOfFour(b: seq<int>)
    requires IsRanking(b, 4) && b[3] < b[0] < b[1] < b[2]
    ensures b == [1, 2, 3, 0]
  {
    ChainOfFour(b, 3, 0, 1, 2);
  }
}
