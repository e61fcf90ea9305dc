/**
 * Sequence vocabulary shared by the voting methods: options, index ranges,
 * rankings (permutations of 0..n-1 written as "candidate -> rank"), orders
 * (permutations written as "position -> candidate"), the stable index sort
 * behind `sorted(enumerate(xs), key=...)`, and the grade sort behind
 * `sorted(scores)`.
 */
module Seqs {

  datatype Option<T> = None | Some(value: T)

  /** `b` gives every candidate 0..n-1 a distinct rank in 0..n-1, and uses every rank. */
  predicate IsRanking(b: seq<int>, n: nat)
  {
    && |b| == n
    && (forall c :: 0 <= c < n ==> 0 <= b[c] < n)
    && (forall c, d :: 0 <= c < d < n ==> b[c] != b[d])
    && (forall k :: 0 <= k < n ==> k in b)
  }

  /** Four ranks on 0..3 in a strictly increasing chain are 0, 1, 2 and 3. */
  lemma ChainOfFour(b: seq<int>, w: nat, x: nat, y: nat, z: nat)
    requires |b| == 4 && w < 4 && x < 4 && y < 4 && z < 4
    requires forall c :: 0 <= c < 4 ==> 0 <= b[c] < 4
    requires b[w] < b[x] < b[y] < b[z]
    ensures b[w] == 0 && b[x] == 1 && b[y] == 2 && b[z] == 3
  {
  }

  /** `o` lists every candidate 0..n-1 exactly once. */
  ghost predicate IsOrder(o: seq<nat>, n: nat)
  {
    && |o| == n
    && (forall i :: 0 <= i < n ==> o[i] < n)
    && (forall c :: multiset(o)[c] == if 0 <= c < n then 1 else 0)
  }

  /** Two equal entries give their value a count of at least two. */
  lemma TwoCopies(o: seq<nat>, i: nat, j: nat)
    requires i < j < |o|
    ensures o[i] == o[j] ==> multiset(o)[o[i]] >= 2
  {
    if o[i] == o[j] {
      var x := o[i];
      assert o == o[..i] + [x] + o[i+1..j] + [x] + o[j+1..];
    }
  }

  lemma OrderFacts(o: seq<nat>, n: nat)
    requires IsOrder(o, n)
    ensures forall i, j :: 0 <= i < j < n ==> o[i] != o[j]
    ensures forall c :: 0 <= c < n ==> c in o
  {
    forall i, j | 0 <= i < j < n
      ensures o[i] != o[j]
    {
      TwoCopies(o, i, j);
    }
    forall c | 0 <= c < n
      ensures c in o
    {
      assert multiset(o)[c] == 1;
    }
  }

  /** Python's `list.index`: the first position holding `v`; None where Python raises ValueError. */
  function IndexOf(s: seq<int>, v: int): (r: Option<nat>)
    ensures r.Some? ==> r.value < |s| && s[r.value] == v
    ensures r.Some? ==> forall j :: 0 <= j < r.value ==> s[j] != v
    ensures r.None? <==> v !in s
  {
    if |s| == 0 then None
    else if s[0] == v then Some(0)
    else match IndexOf(s[1..], v)
      case None => None
      case Some(j) => Some(j + 1)
  }

  /** The first position of `c` in `o`. */
  function Pos(o: seq<nat>, c: nat): (p: nat)
    requires c in o
    ensures p < |o| && o[p] == c && forall j :: 0 <= j < p ==> o[j] != c
  {
    if o[0] == c then 0 else Pos(o[1..], c) + 1
  }

  /** The ranking whose rank k goes to candidate o[k]. */
  function Inverse(o: seq<nat>, n: nat): (b: seq<int>)
    requires IsOrder(o, n)
    ensures IsRanking(b, n)
    ensures forall k :: 0 <= k < n ==> b[o[k]] == k
  {
    OrderFacts(o, n);
    var b := seq(n, c requires 0 <= c < n && c in o => Pos(o, c));
    assert forall k :: 0 <= k < n ==> b[o[k]] == k by {
      forall k | 0 <= k < n ensures b[o[k]] == k {
        var p := Pos(o, o[k]);
        assert o[p] == o[k];
      }
    }
    assert forall k :: 0 <= k < n ==> k in b by {
      forall k | 0 <= k < n ensures k in b {
        assert b[o[k]] == k;
      }
    }
    b
  }

  /** A ranking that gives position p of the order `o` rank p is the inverse of `o`. */
  lemma RankingFromOrder(a: seq<int>, o: seq<nat>, n: nat)
    requires IsOrder(o, n) && |a| == n
    requires forall p :: 0 <= p < n ==> a[o[p]] == p
    ensures a == Inverse(o, n)
  {
    OrderFacts(o, n);
    var b := Inverse(o, n);
    forall c | 0 <= c < n ensures a[c] == b[c] {
      assert c in o;
      var p :| 0 <= p < n && o[p] == c;
    }
  }

  // ---------------------------------------------------------------------
  // Stable index sort: `sorted(enumerate(keys), key=lambda x: x[1])`
  // orders indices by key, equal keys keeping index order.

  /** Index a is placed before index b when its key is smaller, or equal with a smaller index. */
  predicate Precedes(keys: seq<real>, a: nat, b: nat)
    requires a < |keys| && b < |keys|
  {
    keys[a] < keys[b] || (keys[a] == keys[b] && a < b)
  }

  predicate SortedBy(keys: seq<real>, s: seq<nat>)
  {
    && (forall i :: 0 <= i < |s| ==> s[i] < |keys|)
    && (forall i, j :: 0 <= i < j < |s| ==> Precedes(keys, s[i], s[j]))
  }

  function Insert(keys: seq<real>, x: nat, s: seq<nat>): (r: seq<nat>)
    requires x < |keys|
    requires forall i :: 0 <= i < |s| ==> s[i] < |keys|
    ensures |r| == |s| + 1
    ensures multiset(r) == multiset(s) + multiset{x}
    ensures forall j :: 0 <= j < |r| ==> r[j] < |keys|
  {
    if s == [] then [x]
    else if Precedes(keys, x, s[0]) then [x] + s
    else
      assert s == [s[0]] + s[1..];
      [s[0]] + Insert(keys, x, s[1..])
  }

  /** Whatever precedes x and all of s precedes everything in Insert(keys, x, s). */
  lemma InsertBound(keys: seq<real>, a: nat, x: nat, s: seq<nat>)
    requires a < |keys| && x < |keys| && forall i :: 0 <= i < |s| ==> s[i] < |keys|
    requires Precedes(keys, a, x) && forall i :: 0 <= i < |s| ==> Precedes(keys, a, s[i])
    ensures forall j :: 0 <= j < |s| + 1 ==> Precedes(keys, a, Insert(keys, x, s)[j])
  {
    var t := Insert(keys, x, s);
    forall j | 0 <= j < |t| ensures Precedes(keys, a, t[j]) {
      assert t[j] in multiset(s) + multiset{x};
      if t[j] != x {
        assert t[j] in s;
      }
    }
  }

  lemma {:induction false} InsertSorted(keys: seq<real>, x: nat, s: seq<nat>)
    requires x < |keys| && SortedBy(keys, s) && x !in s
    ensures SortedBy(keys, Insert(keys, x, s))
  {
    if s == [] {
    } else if Precedes(keys, x, s[0]) {
      ConsSorted(keys, x, s);
    } else {
      var rest := s[1..];
      assert SortedBy(keys, rest);
      InsertSorted(keys, x, rest);
      assert forall i :: 0 <= i < |rest| ==> Precedes(keys, s[0], rest[i]) by {
        forall i | 0 <= i < |rest| ensures Precedes(keys, s[0], rest[i]) {
          assert rest[i] == s[i + 1];
        }
      }
      InsertBound(keys, s[0], x, rest);
      ConsSorted(keys, s[0], Insert(keys, x, rest));
    }
  }

  /** A sorted sequence stays sorted when an element that precedes its head is put in front. */
  lemma ConsSorted(keys: seq<real>, a: nat, s: seq<nat>)
    requires a < |keys| && SortedBy(keys, s)
    requires s != [] ==> Precedes(keys, a, s[0])
    ensures SortedBy(keys, [a] + s)
  {
    var r := [a] + s;
    forall i, j | 0 <= i < j < |r| ensures Precedes(keys, r[i], r[j]) {
      if i == 0 {
        assert r[j] == s[j - 1];
        if j > 1 {
          assert Precedes(keys, s[0], s[j - 1]);
        }
      } else {
        assert r[i] == s[i - 1] && r[j] == s[j - 1];
      }
    }
  }

  /** An order of 0..n-1 does not hold n. */
  lemma OrderExcludes(s: seq<nat>, n: nat)
    requires IsOrder(s, n)
    ensures n !in s
  {
    assert forall i :: 0 <= i < |s| ==> s[i] != n;
  }

  /** Inserting n-1 into an order of 0..n-2 gives an order of 0..n-1. */
  lemma InsertOrder(keys: seq<real>, s: seq<nat>, n: nat)
    requires 1 <= n <= |keys| && IsOrder(s, n - 1)
    ensures forall i :: 0 <= i < |s| ==> s[i] < |keys|
    ensures IsOrder(Insert(keys, n - 1, s), n)
  {
    var r := Insert(keys, n - 1, s);
    assert forall c :: multiset(r)[c] == if 0 <= c < n then 1 else 0 by {
      forall c ensures multiset(r)[c] == if 0 <= c < n then 1 else 0 {
        assert multiset(r)[c] == multiset(s)[c] + multiset{n - 1}[c];
      }
    }
    assert forall i :: 0 <= i < n ==> r[i] < n by {
      forall i | 0 <= i < n ensures r[i] < n { assert multiset(r)[r[i]] > 0; }
    }
  }

  /** The first n indices, stably sorted by key: each is inserted in turn. */
  function SortPrefix(keys: seq<real>, n: nat): (r: seq<nat>)
    requires n <= |keys|
    ensures IsOrder(r, n)
  {
    if n == 0 then
      var e: seq<nat> := [];
      assert multiset(e) == multiset{};
      e
    else
      var s := SortPrefix(keys, n - 1);
      InsertOrder(keys, s, n);
      Insert(keys, n - 1, s)
  }

  lemma {:induction false} SortPrefixSorted(keys: seq<real>, n: nat)
    requires n <= |keys|
    ensures SortedBy(keys, SortPrefix(keys, n))
  {
    if n > 0 {
      var s := SortPrefix(keys, n - 1);
      SortPrefixSorted(keys, n - 1);
      SortStep(keys, s, n);
    }
  }

  /** One insertion step of SortPrefix keeps the order sorted. */
  lemma SortStep(keys: seq<real>, s: seq<nat>, n: nat)
    requires 1 <= n <= |keys| && IsOrder(s, n - 1) && SortedBy(keys, s)
    ensures SortedBy(keys, Insert(keys, n - 1, s))
  {
    OrderExcludes(s, n - 1);
    InsertSorted(keys, n - 1, s);
  }

  /** `[i for i, _ in sorted(enumerate(keys), key=lambda x: x[1])]`. */
  function SortIndices(keys: seq<real>): (r: seq<nat>)
    ensures IsOrder(r, |keys|)
    ensures SortedBy(keys, r)
  {
    SortPrefixSorted(keys, |keys|);
    SortPrefix(keys, |keys|)
  }

  function Negate(xs: seq<real>): (r: seq<real>)
    ensures |r| == |xs| && forall i :: 0 <= i < |xs| ==> r[i] == -xs[i]
  {
    seq(|xs|, i requires 0 <= i < |xs| => -xs[i])
  }

  /**
   * The poll order `sorted(enumerate(info), key=lambda x: -x[1])`: candidates
   * from the highest poll value to the lowest, equal values in index order.
   */
  function Places(info: seq<real>): (r: seq<nat>)
    ensures IsOrder(r, |info|)
    ensures forall i, j :: 0 <= i < j < |r| ==>
      info[r[i]] > info[r[j]] || (info[r[i]] == info[r[j]] && r[i] < r[j])
  {
    var r := SortIndices(Negate(info));
    OrderFacts(r, |info|);
    r
  }

  /** The poll leader, `places[0][0]`: the first index of a maximal poll value. */
  function Leader(info: seq<real>): (w: nat)
    requires |info| >= 1
    ensures w < |info|
    ensures forall c :: 0 <= c < |info| ==> info[c] < info[w] || (info[c] == info[w] && w <= c)
  {
    var p := Places(info);
    OrderFacts(p, |info|);
    forall c | 0 <= c < |info|
      ensures info[c] < info[p[0]] || (info[c] == info[p[0]] && p[0] <= c)
    {
      assert c in p;
      var j :| 0 <= j < |p| && p[j] == c;
    }
    p[0]
  }

  /** The runner-up in the poll, `places[1][0]`: the best remaining candidate. */
  function RunnerUp(info: seq<real>): (s: nat)
    requires |info| >= 2
    ensures s < |info| && s != Leader(info)
    ensures forall c :: 0 <= c < |info| && c != Leader(info) ==>
      info[c] < info[s] || (info[c] == info[s] && s <= c)
  {
    var p := Places(info);
    OrderFacts(p, |info|);
    forall c | 0 <= c < |info| && c != Leader(info)
      ensures info[c] < info[p[1]] || (info[c] == info[p[1]] && p[1] <= c)
    {
      assert c in p;
      var j :| 0 <= j < |p| && p[j] == c;
    }
    p[1]
  }

  /**
   * A strategic ballot needs the utilities `voter[places[0][0]]` and
   * `voter[places[1][0]]`: two places in the poll whose candidates the voter has.
   */
  predicate FrontKnown(info: seq<real>, voter: seq<real>)
  {
    2 <= |info| && Leader(info) < |voter| && RunnerUp(info) < |voter|
  }

  /** With strict poll scores, the leader and the runner-up are the two best-polling candidates. */
  lemma TopTwo(info: seq<real>, a: nat, b: nat)
    requires a < |info| && b < |info| && a != b
    requires forall c :: 0 <= c < |info| && c != a ==> info[c] < info[a]
    requires forall c :: 0 <= c < |info| && c != a && c != b ==> info[c] < info[b]
    ensures Leader(info) == a && RunnerUp(info) == b
  {
    var l := Leader(info);
    assert info[a] <= info[l];
    var s := RunnerUp(info);
    assert info[b] <= info[s];
  }

  // ---------------------------------------------------------------------
  // Grade sort: `sorted(scores)` on a column of integer grades.

  predicate NonDecreasing(s: seq<int>)
  {
    forall i, j :: 0 <= i < j < |s| ==> s[i] <= s[j]
  }

  function InsertGrade(x: int, s: seq<int>): (r: seq<int>)
    ensures multiset(r) == multiset(s) + multiset{x}
    ensures |r| == |s| + 1
  {
    if s == [] || x <= s[0] then [x] + s
    else
      assert s == [s[0]] + s[1..];
      [s[0]] + InsertGrade(x, s[1..])
  }

  lemma {:induction false} InsertGradeSorted(x: int, s: seq<int>)
    requires NonDecreasing(s)
    ensures NonDecreasing(InsertGrade(x, s))
  {
    if s != [] && x > s[0] {
      var t := InsertGrade(x, s[1..]);
      InsertGradeSorted(x, s[1..]);
      forall j | 0 <= j < |t| ensures s[0] <= t[j] {
        assert t[j] in multiset(t);
        if t[j] != x {
          assert t[j] in multiset(s[1..]);
          var i :| 0 <= i < |s[1..]| && s[1..][i] == t[j];
          assert s[i + 1] == t[j];
        }
      }
    }
  }

  /** `sorted(scores)`: the same grades in nondecreasing order. */
  function SortGrades(s: seq<int>): (r: seq<int>)
    ensures multiset(r) == multiset(s) && |r| == |s|
    ensures NonDecreasing(r)
  {
    if s == [] then []
    else
      assert s == s[..|s| - 1] + [s[|s| - 1]];
      InsertGradeSorted(s[|s| - 1], SortGrades(s[..|s| - 1]));
      InsertGrade(s[|s| - 1], SortGrades(s[..|s| - 1]))
  }

  // ---------------------------------------------------------------------
  // `max(xs)` and `min(xs)` on a voter's utilities.

  function MaxOf(xs: seq<real>): (m: real)
    requires |xs| > 0
    ensures exists i :: 0 <= i < |xs| && xs[i] == m
    ensures forall i :: 0 <= i < |xs| ==> xs[i] <= m
  {
    if |xs| == 1 then xs[0]
    else
      var m := MaxOf(xs[1..]);
      assert forall i :: 1 <= i < |xs| ==> xs[1..][i - 1] == xs[i];
      if xs[0] >= m then xs[0] else m
  }

  function MinOf(xs: seq<real>): (m: real)
    requires |xs| > 0
    ensures exists i :: 0 <= i < |xs| && xs[i] == m
    ensures forall i :: 0 <= i < |xs| ==> m <= xs[i]
  {
    if |xs| == 1 then xs[0]
    else
      var m := MinOf(xs[1..]);
      assert forall i :: 1 <= i < |xs| ==> xs[1..][i - 1] == xs[i];
      if xs[0] <= m then xs[0] else m
  }

  /** An element no smaller than every other element is the maximum. */
  lemma MaxOfAt(xs: seq<real>, k: nat)
    requires k < |xs| && forall i :: 0 <= i < |xs| ==> xs[i] <= xs[k]
    ensures MaxOf(xs) == xs[k]
  {
    assert xs[k] <= MaxOf(xs);
  }

  /** An element no larger than every other element is the minimum. */
  lemma MinOfAt(xs: seq<real>, k: nat)
    requires k < |xs| && forall i :: 0 <= i < |xs| ==> xs[k] <= xs[i]
    ensures MinOf(xs) == xs[k]
  {
    assert MinOf(xs) <= xs[k];
  }

  // ---------------------------------------------------------------------
  // Real division facts.

  lemma DivNonNeg(a: real, b: real)
    requires 0.0 <= a && 0.0 < b
    ensures 0.0 <= a / b
  {
  }

  lemma DivCancel(k: real, d: real)
    requires d != 0.0
    ensures k * d / d == k
  {
  }

  lemma DivMono(a: real, c: real, b: real)
    requires a <= c && 0.0 < b
    ensures a / b <= c / b
  {
    assert c / b - a / b == (c - a) / b;
    DivNonNeg(c - a, b);
  }

  lemma DivUnit(a: real, b: real)
    requires 0.0 <= a <= b && 0.0 < b
    ensures 0.0 <= a / b <= 1.0
  {
    DivNonNeg(a, b);
    DivMono(a, b, b);
  }
}
