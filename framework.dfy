/**
 * The method framework of dataClasses.py: winner selection over numeric
 * result entries, column-wise results, the strategy tallies, and the ballot
 * memo that the choosers write onto voters (here an explicit cache keyed by
 * voter index and attribute name).
 */
module Framework {
  import opened Seqs

  // ---------------------------------------------------------------------
  // Result entries and Method.winner

  /** A result entry: a number, or the non-numeric marker Irv puts on eliminated candidates. */
  datatype Entry = Num(value: real) | Mark

  function Nums(xs: seq<real>): (r: seq<Entry>)
    ensures |r| == |xs| && forall i :: 0 <= i < |xs| ==> r[i] == Num(xs[i])
    ensures |xs| > 0 ==> HasNum(r)
  {
    var r := seq(|xs|, i requires 0 <= i < |xs| => Num(xs[i]));
    assert |xs| > 0 ==> r[0].Num?;
    r
  }

  predicate HasNum(rs: seq<Entry>)
  {
    exists i :: 0 <= i < |rs| && rs[i].Num?
  }

  /** Without numeric entries after the first, only the first can be numeric. */
  lemma HasNumHead(rs: seq<Entry>)
    requires |rs| > 0 && !HasNum(rs[1..])
    ensures forall i :: 0 < i < |rs| ==> !rs[i].Num?
    ensures HasNum(rs) ==> rs[0].Num?
  {
    forall i | 0 < i < |rs|
      ensures !rs[i].Num?
    {
      assert rs[1..][i - 1] == rs[i];
    }
  }

  /**
   * `max([r for r in results if isnum(r)])`. Its properties are stated by
   * MaxNumFacts, so that a caller of Winner does not carry them around.
   */
  function MaxNum(rs: seq<Entry>): real
    requires HasNum(rs)
  {
    var tail := rs[1..];
    if !HasNum(tail) then
      HasNumHead(rs);
      rs[0].value
    else if rs[0].Mark? || rs[0].value <= MaxNum(tail) then
      MaxNum(tail)
    else
      rs[0].value
  }

  /** The maximum is one of the numeric entries and no numeric entry exceeds it. */
  lemma {:induction false} MaxNumFacts(rs: seq<Entry>)
    requires HasNum(rs)
    ensures exists i :: 0 <= i < |rs| && rs[i] == Num(MaxNum(rs))
    ensures forall i :: 0 <= i < |rs| && rs[i].Num? ==> rs[i].value <= MaxNum(rs)
    decreases |rs|
  {
    var tail := rs[1..];
    assert forall i :: 0 <= i < |tail| ==> tail[i] == rs[i + 1];
    if !HasNum(tail) {
      HasNumHead(rs);
      assert rs[0] == Num(MaxNum(rs));
    } else {
      MaxNumFacts(tail);
      var j :| 0 <= j < |tail| && tail[j] == Num(MaxNum(tail));
      if rs[0].Mark? || rs[0].value <= MaxNum(tail) {
        assert rs[j + 1] == Num(MaxNum(rs));
      } else {
        assert rs[0] == Num(MaxNum(rs));
      }
    }
  }

  /** The candidates whose entry equals `Num(m)`, in index order (the list `winners`). */
  function EntriesEqual(rs: seq<Entry>, m: real, from: nat): seq<nat>
    requires from <= |rs|
    decreases |rs| - from
  {
    if from == |rs| then []
    else if rs[from] == Num(m) then [from] + EntriesEqual(rs, m, from + 1)
    else EntriesEqual(rs, m, from + 1)
  }

  /** EntriesEqual lists exactly the indices from `from` on whose entry is `Num(m)`. */
  lemma {:induction false} EntriesEqualFacts(rs: seq<Entry>, m: real, from: nat)
    requires from <= |rs|
    ensures forall x :: x in EntriesEqual(rs, m, from) ==> from <= x < |rs| && rs[x] == Num(m)
    ensures forall c :: from <= c < |rs| && rs[c] == Num(m) ==> c in EntriesEqual(rs, m, from)
    decreases |rs| - from
  {
    if from < |rs| {
      EntriesEqualFacts(rs, m, from + 1);
    }
  }

  /**
   * Method.winner: an index holding the largest numeric entry. The source
   * breaks ties with `random.choice(winners)`; here `draw` is the injected
   * random choice and picks `winners[draw % len(winners)]`.
   */
  function Winner(rs: seq<Entry>, draw: nat): (w: nat)
    requires HasNum(rs)
    ensures w < |rs| && rs[w].Num?
    ensures forall c :: 0 <= c < |rs| && rs[c].Num? ==> rs[c].value <= rs[w].value
  {
    var ws := EntriesEqual(rs, MaxNum(rs), 0);
    WinnersNonEmpty(rs);
    EntriesEqualFacts(rs, MaxNum(rs), 0);
    MaxNumFacts(rs);
    assert ws[draw % |ws|] in ws;
    ws[draw % |ws|]
  }

  /** The winner's entry is the maximum itself. */
  lemma WinnerIsMax(rs: seq<Entry>, draw: nat)
    requires HasNum(rs)
    ensures rs[Winner(rs, draw)] == Num(MaxNum(rs))
  {
    var ws := EntriesEqual(rs, MaxNum(rs), 0);
    WinnersNonEmpty(rs);
    EntriesEqualFacts(rs, MaxNum(rs), 0);
    assert Winner(rs, draw) == ws[draw % |ws|];
    assert ws[draw % |ws|] in ws;
  }

  lemma ModBelow(j: nat, n: nat)
    requires j < n
    ensures j % n == j
  {
  }

  lemma WinnersNonEmpty(rs: seq<Entry>)
    requires HasNum(rs)
    ensures |EntriesEqual(rs, MaxNum(rs), 0)| > 0
  {
    MaxNumFacts(rs);
    EntriesEqualFacts(rs, MaxNum(rs), 0);
    var i :| 0 <= i < |rs| && rs[i] == Num(MaxNum(rs));
    assert i in EntriesEqual(rs, MaxNum(rs), 0);
  }

  /** Every maximal numeric entry is the winner for some draw: the choice ranges over all ties. */
  lemma WinnerCoversTies(rs: seq<Entry>, c: nat)
    requires HasNum(rs) && c < |rs| && rs[c] == Num(MaxNum(rs))
    ensures exists draw: nat :: Winner(rs, draw) == c
  {
    var ws := EntriesEqual(rs, MaxNum(rs), 0);
    EntriesEqualFacts(rs, MaxNum(rs), 0);
    var j :| 0 <= j < |ws| && ws[j] == c;
    ModBelow(j, |ws|);
    assert Winner(rs, j) == ws[j % |ws|];
  }

  /** An attained numeric entry that no numeric entry exceeds is the maximum. */
  lemma MaxNumIs(rs: seq<Entry>, i: nat)
    requires i < |rs| && rs[i].Num?
    requires forall j :: 0 <= j < |rs| && rs[j].Num? ==> rs[j].value <= rs[i].value
    ensures HasNum(rs) && MaxNum(rs) == rs[i].value
  {
    MaxNumFacts(rs);
  }

  /** The doctest of Method.winner: a single maximum always wins. */
  lemma WinnerUnique(a: seq<Entry>, draw: nat)
    requires |a| == 5 && a[0] == Num(1.0) && a[1] == Num(2.0) && a[2] == Num(3.0) && a[3] == Num(2.0) && a[4] == Num(-100.0)
    ensures HasNum(a) && Winner(a, draw) == 2
  {
    MaxNumIs(a, 2);
  }

  /** The doctest of Method.winner: tied maxima stay among the maxima. */
  lemma WinnerTied(b: seq<Entry>, draw: nat)
    requires |b| == 9 && b[0] == Num(1.0) && b[1] == Num(2.0) && b[2] == Num(1.0)
    requires b[3] == Num(3.0) && b[4] == Num(3.0) && b[5] == Num(3.0)
    requires b[6] == Num(2.0) && b[7] == Num(1.0) && b[8] == Num(2.0)
    ensures HasNum(b) && 2 < Winner(b, draw) < 6
  {
    MaxNumIs(b, 3);
  }

  // ---------------------------------------------------------------------
  // Method.results: `list(map(candScore, zip(*ballots)))`

  /** How many columns `zip(*rows)` yields: the shortest row's length, 0 without rows. */
  function Width<T>(ballots: seq<seq<T>>): (w: nat)
    ensures forall k :: 0 <= k < |ballots| ==> w <= |ballots[k]|
    ensures |ballots| > 0 ==> exists k :: 0 <= k < |ballots| && w == |ballots[k]|
    ensures |ballots| == 0 ==> w == 0
  {
    if |ballots| == 0 then 0
    else if |ballots| == 1 then |ballots[0]|
    else
      var rest := Width(ballots[1..]);
      assert forall k :: 1 <= k < |ballots| ==> ballots[1..][k - 1] == ballots[k];
      if |ballots[0]| <= rest then |ballots[0]| else rest
  }

  /** Column c of the matrix `zip(*rows)` yields: every voter's entry for candidate c. */
  function Column<T>(ballots: seq<seq<T>>, c: nat): (col: seq<T>)
    requires c < Width(ballots)
    ensures |col| == |ballots| && forall k :: 0 <= k < |ballots| ==> col[k] == ballots[k][c]
  {
    seq(|ballots|, k requires 0 <= k < |ballots| => ballots[k][c])
  }

  /** Method.results, given the method's candScore. */
  function Results(ballots: seq<seq<int>>, candScore: seq<int> --> real): (r: seq<real>)
    requires forall col: seq<int> :: |col| > 0 ==> candScore.requires(col)
    ensures |r| == Width(ballots)
  {
    seq(Width(ballots), c requires 0 <= c < Width(ballots) => candScore(Column(ballots, c)))
  }

  /** With n-candidate ballots, results have one entry per candidate, entry c scoring column c. */
  lemma ResultsShape(ballots: seq<seq<int>>, n: nat, candScore: seq<int> --> real, c: nat)
    requires forall col: seq<int> :: |col| > 0 ==> candScore.requires(col)
    requires |ballots| > 0 && forall k :: 0 <= k < |ballots| ==> |ballots[k]| == n
    requires c < n
    ensures |Results(ballots, candScore)| == n
    ensures Results(ballots, candScore)[c] == candScore(seq(|ballots|, k requires 0 <= k < |ballots| => ballots[k][c]))
  {
    assert Column(ballots, c) == seq(|ballots|, k requires 0 <= k < |ballots| => ballots[k][c]);
  }

  function Sum(xs: seq<real>): real
  {
    if |xs| == 0 then 0.0 else Sum(xs[..|xs| - 1]) + xs[|xs| - 1]
  }

  function ToReals(xs: seq<int>): (r: seq<real>)
    ensures |r| == |xs| && forall i :: 0 <= i < |xs| ==> r[i] == xs[i] as real
  {
    seq(|xs|, i requires 0 <= i < |xs| => xs[i] as real)
  }

  /** numpy's `mean`. */
  function Mean(xs: seq<real>): real
    requires |xs| > 0
  {
    Sum(xs) / |xs| as real
  }

  /** n values between lo and hi sum to between n * lo and n * hi. */
  lemma {:induction false} SumBounds(xs: seq<real>, lo: real, hi: real)
    requires forall i :: 0 <= i < |xs| ==> lo <= xs[i] <= hi
    ensures |xs| as real * lo <= Sum(xs) <= |xs| as real * hi
  {
    if |xs| > 0 {
      SumBounds(xs[..|xs| - 1], lo, hi);
    }
  }

  /** The mean lies between any bounds of the values. */
  lemma MeanBounds(xs: seq<real>, lo: real, hi: real)
    requires |xs| > 0 && forall i :: 0 <= i < |xs| ==> lo <= xs[i] <= hi
    ensures lo <= Mean(xs) <= hi
  {
    SumBounds(xs, lo, hi);
    var n := |xs| as real;
    assert Sum(xs) / n >= lo by { assert Sum(xs) >= n * lo; }
    assert Sum(xs) / n <= hi by { assert Sum(xs) <= n * hi; }
  }

  /** The column mean Plurality and Score use as candScore. */
  function MeanScore(col: seq<int>): real
    requires |col| > 0
  {
    Mean(ToReals(col))
  }

  // ---------------------------------------------------------------------
  // SideTally and Tallies

  /** What `initKeys` finds on a chooser: declared tally keys, an iterable of keys, or neither. */
  datatype ChooserKeys<K> = DeclaresKeys(keys: seq<K>) | IterableKeys(items: seq<K>) | NoKeys

  /** The keys of `ks` not in `seen`, each once, in order of first appearance. */
  function NewKeys<K(==,!new)>(seen: seq<K>, ks: seq<K>): (r: seq<K>)
    ensures forall k :: k in r <==> k in ks && k !in seen
    decreases |ks|
  {
    if ks == [] then []
    else if ks[0] in seen then NewKeys(seen, ks[1..])
    else [ks[0]] + NewKeys(seen + [ks[0]], ks[1..])
  }

  /** Reading one more key of `ks` keeps the order the whole key list will leave. */
  lemma OrderStep<K(!new)>(before: seq<K>, after: seq<K>, ks: seq<K>, i: nat)
    requires i < |ks| && after == if ks[i] in before then before else before + [ks[i]]
    ensures after + NewKeys(after, ks[i + 1..]) == before + NewKeys(before, ks[i..])
  {
    var tail := ks[i..];
    assert tail[0] == ks[i] && tail[1..] == ks[i + 1..];
    if ks[i] !in before {
      var rest := NewKeys(after, ks[i + 1..]);
      assert NewKeys(before, tail) == [ks[i]] + rest;
      assert before + ([ks[i]] + rest) == after + rest;
    }
  }

  /** Reading one more key of `ks` adds exactly that key to the tally's keys. */
  lemma KeysStep<K>(before: map<K, int>, after: map<K, int>, start: map<K, int>, ks: seq<K>, i: nat, v: int)
    requires i < |ks| && after == before[ks[i] := v]
    requires forall k :: k in before <==> k in start || k in ks[..i]
    ensures forall k :: k in after <==> k in start || k in ks[..i + 1]
  {
    assert ks[..i + 1] == ks[..i] + [ks[i]];
  }

  /** The count of a key in a counter map with default 0. */
  function CountIn<K>(m: map<K, int>, key: K): int
  {
    if key in m then m[key] else 0
  }

  /**
   * After reading the first i keys of `ks` from a counter that held `start`
   * in insertion order `startOrder`, the counter is `counts` in order `order`:
   * r holds the counts read, no count changed, the keys read were inserted,
   * and the order is on its way to `startOrder` extended by the new keys of `ks`.
   */
  ghost predicate ReadState<K(!new)>(counts: map<K, int>, order: seq<K>, ks: seq<K>, i: nat, r: seq<int>,
                                     start: map<K, int>, startOrder: seq<K>)
    requires i <= |ks|
  {
    && (forall k :: k in counts <==> k in order)
    && (forall k :: CountIn(counts, k) == CountIn(start, k))
    && |r| == i && (forall j :: 0 <= j < i ==> r[j] == CountIn(start, ks[j]))
    && (forall k :: k in counts <==> k in start || k in ks[..i])
    && order + NewKeys(order, ks[i..]) == startOrder + NewKeys(startOrder, ks)
  }

  /** One defaultdict read of `ks[i]` moves the read state on by one key. */
  lemma ReadStep<K(!new)>(counts: map<K, int>, order: seq<K>, counts': map<K, int>, order': seq<K>,
                          ks: seq<K>, i: nat, r: seq<int>, v: int, start: map<K, int>, startOrder: seq<K>)
    requires i < |ks| && ReadState(counts, order, ks, i, r, start, startOrder)
    requires v == CountIn(counts, ks[i]) && counts' == counts[ks[i] := v]
    requires order' == if ks[i] in counts then order else order + [ks[i]]
    ensures ReadState(counts', order', ks, i + 1, r + [v], start, startOrder)
  {
    ReadCountsStep(counts, order, counts', order', ks[i], v, start);
    var r' := r + [v];
    assert forall j :: 0 <= j < i + 1 ==> r'[j] == CountIn(start, ks[j]) by {
      assert r'[i] == v && forall j :: 0 <= j < i ==> r'[j] == r[j];
    }
    KeysStep(counts, counts', start, ks, i, v);
    OrderStep(order, order', ks, i);
  }

  /** Reading `key` keeps the keys and the order in step and changes no count. */
  lemma ReadCountsStep<K>(counts: map<K, int>, order: seq<K>, counts': map<K, int>, order': seq<K>,
                          key: K, v: int, start: map<K, int>)
    requires forall k :: k in counts <==> k in order
    requires forall k :: CountIn(counts, k) == CountIn(start, k)
    requires v == CountIn(counts, key) && counts' == counts[key := v]
    requires order' == if key in counts then order else order + [key]
    ensures forall k :: k in counts' <==> k in order'
    ensures forall k :: CountIn(counts', k) == CountIn(start, k)
  {
    assert forall k :: k in order' <==> k in order || k == key;
  }

  /**
   * A counter map with default 0 (a `defaultdict(int)`): `order` is the
   * dictionary's insertion order, `keyList` the key universe `initKeys`
   * fixes once.
   */
  class SideTally<K(==,!new)> {
    var counts: map<K, int>
    var order: seq<K>
    var keyList: Option<seq<K>>
    var initDone: bool

    ghost predicate Valid()
      reads this
    {
      (forall k :: k in counts <==> k in order)
    }

    /** The count a key has; keys never touched count 0. */
    function Count(key: K): int
      reads this
    {
      CountIn(counts, key)
    }

    constructor ()
      ensures Valid() && counts == map[] && order == [] && keyList == None && !initDone
    {
      counts, order, keyList, initDone := map[], [], None, false;
    }

    /** `tally[key]`: reading an absent key inserts it with count 0. */
    method Get(key: K) returns (v: int)
      requires Valid()
      modifies this
      ensures Valid() && v == CountIn(old(counts), key)
      ensures counts == old(counts)[key := v]
      ensures order == if key in old(counts) then old(order) else old(order) + [key]
      ensures keyList == old(keyList) && initDone == old(initDone)
    {
      if key in counts {
        v := counts[key];
      } else {
        v := 0;
        counts := counts[key := 0];
        order := order + [key];
      }
    }

    /** `tally[key] += n`. */
    method Add(key: K, n: int)
      requires Valid()
      modifies this
      ensures Valid() && counts == old(counts)[key := CountIn(old(counts), key) + n]
      ensures order == if key in old(counts) then old(order) else old(order) + [key]
      ensures keyList == old(keyList) && initDone == old(initDone)
    {
      var v := Get(key);
      counts := counts[key := v + n];
    }

    /** initKeys: only the first call sets the key universe; later calls do nothing. */
    method InitKeys(chooser: ChooserKeys<K>)
      modifies this
      ensures initDone
      ensures keyList == if old(initDone) then old(keyList) else
        match chooser
        case DeclaresKeys(ks) => Some(ks)
        case IterableKeys(ks) => Some(ks)
        case NoKeys => old(keyList)
      ensures counts == old(counts) && order == old(order)
    {
      if !initDone {
        match chooser {
          case DeclaresKeys(ks) => keyList := Some(ks);
          case IterableKeys(ks) => keyList := Some(ks);
          case NoKeys =>
        }
        initDone := true;
      }
    }

    /** One read of the comprehension in serialize. */
    method ReadNext(ks: seq<K>, i: nat, r: seq<int>, ghost start: map<K, int>, ghost startOrder: seq<K>) returns (r': seq<int>)
      requires i < |ks| && ReadState(counts, order, ks, i, r, start, startOrder)
      modifies this
      ensures ReadState(counts, order, ks, i + 1, r', start, startOrder)
      ensures keyList == old(keyList) && initDone == old(initDone)
    {
      ghost var seen, before := counts, order;
      var v := Get(ks[i]);
      ReadStep(seen, before, counts, order, ks, i, r, v, start, startOrder);
      r' := r + [v];
    }

    /**
     * serialize: the counts over `keyList` in order, or [] if it was never
     * set. Each read inserts an absent key with count 0, as a defaultdict does.
     */
    method Serialize() returns (r: seq<int>)
      requires Valid()
      modifies this
      ensures Valid() && keyList == old(keyList) && initDone == old(initDone)
      ensures forall k :: CountIn(counts, k) == CountIn(old(counts), k)
      ensures old(keyList).None? ==> r == [] && counts == old(counts) && order == old(order)
      ensures old(keyList).Some? ==>
        && |r| == |old(keyList).value|
        && (forall i :: 0 <= i < |r| ==> r[i] == CountIn(old(counts), old(keyList).value[i]))
        && (forall k :: k in counts <==> k in old(counts) || k in old(keyList).value)
        && order == old(order) + NewKeys(old(order), old(keyList).value)
    {
      r := [];
      if keyList.Some? {
        var ks := keyList.value;
        ghost var start, startOrder := counts, order;
        var i := 0;
        assert ks[..0] == [] && ks[0..] == ks;
        while i < |ks|
          invariant 0 <= i <= |ks| && ReadState(counts, order, ks, i, r, start, startOrder)
          invariant keyList == old(keyList) && initDone == old(initDone)
        {
          r := ReadNext(ks, i, r, start, startOrder);
          i := i + 1;
        }
        assert ks[..|ks|] == ks && ks[|ks|..] == [];
      }
    }

    /** fullSerialize: the counts of the populated keys, in insertion order. */
    function FullSerialize(): (r: seq<int>)
      requires Valid()
      reads this
      ensures |r| == |order| && forall i :: 0 <= i < |order| ==> r[i] == Count(order[i])
    {
      seq(|order|, i requires 0 <= i < |order| && Valid() reads this => counts[order[i]])
    }
  }

  /**
   * Tallies: the first iteration is an endless generator that appends a
   * fresh SideTally on every `next`; later iterations walk the stored list.
   */
  class Tallies<K(==,!new)> {
    var items: seq<SideTally<K>>
    var used: bool

    constructor ()
      ensures items == [] && !used
    {
      items, used := [], false;
    }

    /** `__next__`: make, remember and return a fresh tally. */
    method Next() returns (t: SideTally<K>)
      modifies this
      ensures fresh(t) && t.Valid() && t.counts == map[] && t.order == [] && t.keyList == None && !t.initDone
      ensures items == old(items) + [t] && used == old(used)
    {
      t := new SideTally();
      items := items + [t];
    }

    /**
     * `zip(self, xs)` (`selfFirst`) or `zip(xs, self)` with `|xs| == n`: on the
     * first iteration `zip` asks this generator for a tally before it finds
     * that `xs` is exhausted when the tallies come first, so n + 1 tallies
     * are made; otherwise n. Later iterations pair off stored tallies only.
     */
    method Zip(n: nat, selfFirst: bool) returns (paired: seq<SideTally<K>>)
      modifies this
      ensures used
      ensures !old(used) ==>
        && |items| == |old(items)| + n + (if selfFirst then 1 else 0)
        && items[..|old(items)|] == old(items)
        && paired == items[|old(items)|..][..n]
        && (forall i :: |old(items)| <= i < |items| ==> fresh(items[i]))
        && (forall i, j :: |old(items)| <= i < j < |items| ==> items[i] != items[j])
        && (forall i :: |old(items)| <= i < |items| ==>
              items[i].Valid() && items[i].counts == map[] && items[i].order == [] && items[i].keyList == None && !items[i].initDone)
      ensures !old(used) ==> forall i :: 0 <= i < |paired| ==>
        fresh(paired[i]) && paired[i].Valid() && paired[i].counts == map[] && paired[i].order == []
        && paired[i].keyList == None && !paired[i].initDone
      ensures old(used) ==> items == old(items)
      ensures old(used) ==> paired == old(items)[..if n <= |old(items)| then n else |old(items)|]
    {
      if used {
        paired := items[..if n <= |items| then n else |items|];
      } else {
        used := true;
        paired := [];
        var made := if selfFirst then n + 1 else n;
        var i := 0;
        ghost var start := items;
        while i < made
          invariant 0 <= i <= made && used
          invariant |items| == |start| + i && items[..|start|] == start
          invariant paired == items[|start|..][..if i <= n then i else n]
          invariant forall j :: 0 <= j < |paired| ==> paired[j] == items[|start| + j]
          invariant forall j :: |start| <= j < |items| ==> fresh(items[j])
          invariant forall j, k :: |start| <= j < k < |items| ==> items[j] != items[k]
          invariant forall j :: |start| <= j < |items| ==>
            items[j].Valid() && items[j].counts == map[] && items[j].order == [] && items[j].keyList == None && !items[j].initDone
        {
          var t := Next();
          if i < n {
            paired := paired + [t];
          }
          i := i + 1;
        }
      }
    }
  }

  /** A tally with no keys and no keyList. */
  ghost predicate Untouched(t: SideTally<int>)
    reads t
  {
    t.Valid() && t.counts == map[] && t.order == [] && t.keyList == None && !t.initDone
  }

  /** `t[key] += key` on an untouched tally, then its serialize and fullSerialize. */
  method Populate(t: SideTally<int>, key: int) returns (plain: seq<int>, full: seq<int>)
    requires Untouched(t)
    modifies t
    ensures t.Valid() && t.counts == map[key := key] && t.order == [key] && t.keyList == None && !t.initDone
    ensures plain == [] && full == [key]
  {
    t.Add(key, key);
    plain := t.Serialize();
    full := t.FullSerialize();
  }

  /** `initKeys([k])` on a tally that holds only `key`, then its serialize. */
  method Rekey(t: SideTally<int>, key: int, k: int) returns (keyed: seq<int>)
    requires t.Valid() && t.counts == map[key := key] && t.keyList == None && !t.initDone
    modifies t
    ensures keyed == [if k == key then key else 0]
  {
    t.InitKeys(IterableKeys([k]));
    keyed := t.Serialize();
  }

  /**
   * The Tallies example of dataClasses.py: `zip(ts, [5,4,3])` makes four
   * tallies and adds 5, 4 and 3 to the first three; none has a keyList yet,
   * the populated keys serialize in full, and after `initKeys` with the keys
   * 6, 4 and 3 the first tally reads its new key 6 as 0.
   */
  method TalliesExample() returns (plain: seq<seq<int>>, full: seq<seq<int>>, keyed: seq<seq<int>>)
    ensures plain == [[], [], [], []]
    ensures full == [[5], [4], [3], []]
    ensures keyed == [[0], [4], [3], []]
  {
    var ts := new Tallies<int>();
    var firstPass := ts.Zip(3, true);
    var t0, t1, t2, t3 := firstPass[0], firstPass[1], firstPass[2], ts.items[3];
    assert t0 != t1 && t0 != t2 && t0 != t3 && t1 != t2 && t1 != t3 && t2 != t3;
    var p0, f0 := Populate(t0, 5);
    var p1, f1 := Populate(t1, 4);
    var p2, f2 := Populate(t2, 3);
    var p3 := t3.Serialize();
    plain := [p0, p1, p2, p3];
    full := [f0, f1, f2, t3.FullSerialize()];
    var secondPass := ts.Zip(3, false);
    assert secondPass == [t0, t1, t2];
    var k0 := Rekey(t0, 5, 6);
    var k1 := Rekey(t1, 4, 4);
    var k2 := Rekey(t2, 3, 3);
    var k3 := t3.Serialize();
    keyed := [k0, k1, k2, k3];
  }

  // ---------------------------------------------------------------------
  // The ballot memo (rememberBallot, rememberBallots, ballotChooserFor)

  /** What a chooser leaves on a voter: a ballot, the isStrat flag, or the stratGap. */
  datatype Memo = BallotMemo(ballot: seq<int>) | FlagMemo(flag: bool) | GapMemo(gap: real)

  /** The dictionary a strategic chooser returns: `dict(strat=..., [extraStrat=...,] isStrat=..., stratGap=...)`. */
  datatype StratRecord = StratRecord(strat: seq<int>, extraStrat: Option<seq<int>>, isStrat: bool, stratGap: real)

  /** The record's items in the dictionary's order. */
  function Items(r: StratRecord): seq<(string, Memo)>
  {
    [("strat", BallotMemo(r.strat))]
    + (if r.extraStrat.Some? then [("extraStrat", BallotMemo(r.extraStrat.value))] else [])
    + [("isStrat", FlagMemo(r.isStrat)), ("stratGap", GapMemo(r.stratGap))]
  }

  /** `name[:-6]`: the function name without its "Ballot" suffix ("" if shorter than 6). */
  function StripBallot(name: string): (r: string)
    ensures |name| >= 6 ==> r + name[|name| - 6..] == name
    ensures |name| < 6 ==> r == ""
  {
    if |name| >= 6 then name[..|name| - 6] else ""
  }

  lemma StripBallotExamples()
    ensures StripBallot("honBallot") == "hon"
    ensures StripBallot("stratBallot") == "strat"
  {
    assert "honBallot"[..3] == "hon";
    assert "stratBallot"[..5] == "strat";
  }

  /** The attribute name `<Method>_<strategy>`. */
  function AttrName(methodName: string, strategy: string): string
  {
    methodName + "_" + strategy
  }

  lemma AttrNameInjective(m: string, a: string, b: string)
    requires AttrName(m, a) == AttrName(m, b)
    ensures a == b
  {
    assert a == AttrName(m, a)[|m| + 1..];
    assert b == AttrName(m, b)[|m| + 1..];
  }

  type CacheKey = (nat, string)

  /** The cache after storing every item of a record for one voter, in order. */
  function StoreAll(entries: map<CacheKey, Memo>, voter: nat, methodName: string,
                    items: seq<(string, Memo)>): map<CacheKey, Memo>
    decreases |items|
  {
    if items == [] then entries
    else StoreAll(entries[(voter, AttrName(methodName, items[0].0)) := items[0].1],
                  voter, methodName, items[1..])
  }

  /** The value the last item named `name` carries, if any. */
  function LastWith(items: seq<(string, Memo)>, name: string): (r: Option<Memo>)
    ensures r.None? <==> forall i :: 0 <= i < |items| ==> items[i].0 != name
    decreases |items|
  {
    if items == [] then None
    else
      assert forall i :: 1 <= i < |items| ==> items[1..][i - 1] == items[i];
      match LastWith(items[1..], name)
      case Some(v) => Some(v)
      case None => if items[0].0 == name then Some(items[0].1) else None
  }

  /** Reading back a stored name gives the value of the record's last item with that name. */
  lemma {:induction false} StoreAllReadBack(entries: map<CacheKey, Memo>, voter: nat, methodName: string,
                                            items: seq<(string, Memo)>, name: string)
    requires LastWith(items, name).Some?
    ensures var after := StoreAll(entries, voter, methodName, items);
      (voter, AttrName(methodName, name)) in after
      && after[(voter, AttrName(methodName, name))] == LastWith(items, name).value
    decreases |items|
  {
    var first := entries[(voter, AttrName(methodName, items[0].0)) := items[0].1];
    if LastWith(items[1..], name).Some? {
      StoreAllReadBack(first, voter, methodName, items[1..], name);
    } else {
      assert items[0].0 == name;
      forall i | 0 <= i < |items[1..]|
        ensures (voter, AttrName(methodName, name)) != (voter, AttrName(methodName, items[1..][i].0))
      {
        if AttrName(methodName, name) == AttrName(methodName, items[1..][i].0) {
          AttrNameInjective(methodName, name, items[1..][i].0);
        }
      }
      StoreAllKeepsOthers(first, voter, methodName, items[1..], (voter, AttrName(methodName, name)));
    }
  }

  /** An entry that no item of the record writes is left as it was. */
  lemma {:induction false} StoreAllKeepsOthers(entries: map<CacheKey, Memo>, voter: nat, methodName: string,
                                               items: seq<(string, Memo)>, key: CacheKey)
    requires forall i :: 0 <= i < |items| ==> key != (voter, AttrName(methodName, items[i].0))
    ensures var after := StoreAll(entries, voter, methodName, items);
      (key in after <==> key in entries) && (key in entries ==> after[key] == entries[key])
    decreases |items|
  {
    if items != [] {
      assert forall i :: 1 <= i < |items| ==> items[1..][i - 1] == items[i];
      StoreAllKeepsOthers(entries[(voter, AttrName(methodName, items[0].0)) := items[0].1],
                          voter, methodName, items[1..], key);
    }
  }

  /** The ballot memo: for each voter (by index), the attributes the choosers wrote on it. */
  class BallotCache {
    var entries: map<CacheKey, Memo>

    constructor ()
      ensures entries == map[]
    {
      entries := map[];
    }

    /** ballotChooserFor's read: `getattr(voter, <Method>_<strategy>)`, None if never written. */
    function Read(voter: nat, methodName: string, strategy: string): Option<Memo>
      reads this
    {
      var key := (voter, AttrName(methodName, strategy));
      if key in entries then Some(entries[key]) else None
    }

    /** rememberBallot: store the ballot under `<Method>_<fun name minus "Ballot">` and return it. */
    method RememberBallot(voter: nat, methodName: string, funName: string, ballot: seq<int>) returns (b: seq<int>)
      modifies this
      ensures b == ballot
      ensures entries == old(entries)[(voter, AttrName(methodName, StripBallot(funName))) := BallotMemo(ballot)]
      ensures Read(voter, methodName, StripBallot(funName)) == Some(BallotMemo(ballot))
    {
      entries := entries[(voter, AttrName(methodName, StripBallot(funName))) := BallotMemo(ballot)];
      b := ballot;
    }

    /** rememberBallots: store every item of the record, then return the one named after the function. */
    method RememberBallots(voter: nat, methodName: string, funName: string, record: StratRecord)
      returns (b: Option<Memo>)
      modifies this
      ensures entries == StoreAll(old(entries), voter, methodName, Items(record))
      ensures b == LastWith(Items(record), StripBallot(funName))
    {
      var items := Items(record);
      var i := 0;
      while i < |items|
        invariant 0 <= i <= |items|
        invariant StoreAll(entries, voter, methodName, items[i..]) == StoreAll(old(entries), voter, methodName, items)
      {
        assert items[i..][1..] == items[i + 1..];
        entries := entries[(voter, AttrName(methodName, items[i].0)) := items[i].1];
        i := i + 1;
      }
      b := LastWith(items, StripBallot(funName));
    }
  }
}
