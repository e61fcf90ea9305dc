/**
 * Electorate construction (voterModels.py). A voter is a tuple of
 * utilities; a PersonalityVoter also carries a cluster number, read from
 * and bumped on a class-level counter at every construction, and a
 * personality drawn from a Gaussian. The electorate models are structural
 * once their random draws are given: the draws are parameters here.
 */
module Voters {
  import opened Seqs
  import opened Framework

  /** A PersonalityVoter: its utilities, its cluster number and its personality. */
  datatype Voter = Voter(utils: seq<real>, cluster: int, personality: real)

  /** k copies of x: Python's `[x] * k`. */
  function Repeat<T>(x: T, k: nat): (r: seq<T>)
    ensures |r| == k && forall i :: 0 <= i < k ==> r[i] == x
  {
    seq(k, _ => x)
  }

  /** The utility rows of an electorate. */
  function Utils(e: seq<Voter>): (rows: seq<seq<real>>)
    ensures |rows| == |e| && forall j :: 0 <= j < |e| ==> rows[j] == e[j].utils
  {
    seq(|e|, j requires 0 <= j < |e| => e[j].utils)
  }

  /** Every voter has n utilities. */
  predicate Fits(e: seq<Voter>, n: nat)
  {
    forall j :: 0 <= j < |e| ==> |e[j].utils| == n
  }

  // ---------------------------------------------------------------------
  // Electorate.socUtils: `list(map(mean, zip(*self)))`

  /** One mean utility per candidate, over every voter. */
  function SocUtils(rows: seq<seq<real>>): (r: seq<real>)
    ensures |r| == Width(rows)
  {
    seq(Width(rows), c requires 0 <= c < Width(rows) => Mean(Column(rows, c)))
  }

  /** A candidate's social utility lies between the least and the most any voter gives it. */
  lemma SocUtilsBounds(rows: seq<seq<real>>, c: nat, lo: real, hi: real)
    requires c < Width(rows)
    requires forall j :: 0 <= j < |rows| ==> lo <= rows[j][c] <= hi
    ensures lo <= SocUtils(rows)[c] <= hi
  {
    MeanBounds(Column(rows, c), lo, hi);
  }

  lemma SumTwo(a: real, b: real)
    ensures Sum([a, b]) == a + b
  {
    assert [a][..0] == [];
    assert Sum([a]) == a;
    assert [a, b][..1] == [a];
  }

  /** The doctest of socUtils: `[[1,2],[3,4]]` gives `[2.0, 3.0]`. */
  lemma SocUtilsExample(rows: seq<seq<real>>)
    requires rows == [[1.0, 2.0], [3.0, 4.0]]
    ensures SocUtils(rows) == [2.0, 3.0]
  {
    assert Width(rows) == 2;
    assert Column(rows, 0) == [1.0, 3.0];
    assert Column(rows, 1) == [2.0, 4.0];
    SumTwo(1.0, 3.0);
    SumTwo(2.0, 4.0);
  }

  // ---------------------------------------------------------------------
  // DeterministicModel

  /** Python's `a % m`: the remainder has the sign of m, `-((-a) % -m)` for a negative m. */
  function PyMod(a: int, m: int): (r: int)
    requires m != 0
    ensures m > 0 ==> 0 <= r < m
    ensures m < 0 ==> m < r <= 0
  {
    if m > 0 then a % m else -((-a) % (-m))
  }

  lemma MulAtLeast(k: int, z: int)
    requires k > 0 && z >= 1
    ensures k * z >= k
  {
  }

  /** Euclidean remainders repeat with period k. */
  lemma ModPeriod(a: int, k: int)
    requires k > 0
    ensures (a + k) % k == a % k
  {
    var q1, q2 := (a + k) / k, a / k;
    assert a + k == k * q1 + (a + k) % k;
    assert a == k * q2 + a % k;
    var z := q1 - q2 - 1;
    assert k * z == a % k - (a + k) % k;
    if z >= 1 {
      MulAtLeast(k, z);
    } else if z <= -1 {
      MulAtLeast(k, -z);
    }
  }

  lemma PyModPeriod(a: int, m: int)
    requires m != 0
    ensures PyMod(a + (if m > 0 then m else -m), m) == PyMod(a, m)
  {
    if m > 0 {
      ModPeriod(a, m);
    } else {
      ModPeriod(-(a - m), -m);
      assert -(a - m) + -m == -a;
    }
  }

  /**
   * The utilities of `DeterministicModel(modulo)(nvot, ncand)`: voter j
   * gives candidate i `(i + j) % modulo`. The modulus is evaluated only
   * when there is an entry to compute.
   */
  function DeterministicUtils(modulo: int, nvot: nat, ncand: nat): (rows: seq<seq<int>>)
    requires modulo != 0 || nvot == 0 || ncand == 0
    ensures |rows| == nvot && forall j :: 0 <= j < nvot ==> |rows[j]| == ncand
  {
    seq(nvot, j requires 0 <= j < nvot => seq(ncand, i requires 0 <= i < ncand => PyMod(i + j, modulo)))
  }

  /** Every utility of a positive modulus is one of 0..modulo-1. */
  lemma DeterministicRange(modulo: int, nvot: nat, ncand: nat, j: nat, i: nat)
    requires modulo > 0 && j < nvot && i < ncand
    ensures 0 <= DeterministicUtils(modulo, nvot, ncand)[j][i] < modulo
  {
    assert DeterministicUtils(modulo, nvot, ncand)[j][i] == PyMod(i + j, modulo);
  }

  /** The voters repeat with period |modulo|. */
  lemma DeterministicPeriod(modulo: int, nvot: nat, ncand: nat, j: nat)
    requires modulo != 0
    requires j + (if modulo > 0 then modulo else -modulo) < nvot
    ensures var rows := DeterministicUtils(modulo, nvot, ncand);
      rows[j + (if modulo > 0 then modulo else -modulo)] == rows[j]
  {
    var k := if modulo > 0 then modulo else -modulo;
    var rows := DeterministicUtils(modulo, nvot, ncand);
    forall i | 0 <= i < ncand
      ensures rows[j + k][i] == rows[j][i]
    {
      PyModPeriod(i + j, modulo);
      assert i + (j + k) == (i + j) + k;
      assert rows[j + k][i] == PyMod(i + (j + k), modulo);
      assert rows[j][i] == PyMod(i + j, modulo);
    }
  }

  /** Each voter is the previous one rotated by one candidate. */
  lemma DeterministicShift(modulo: int, nvot: nat, ncand: nat, j: nat, i: nat)
    requires modulo != 0 && j + 1 < nvot && i + 1 < ncand
    ensures var rows := DeterministicUtils(modulo, nvot, ncand);
      rows[j + 1][i] == rows[j][i + 1]
  {
    assert i + (j + 1) == (i + 1) + j;
  }

  /** The doctest `DeterministicModel(3)(4, 3)`. */
  lemma DeterministicExample()
    ensures DeterministicUtils(3, 4, 3) == [[0, 1, 2], [1, 2, 0], [2, 0, 1], [0, 1, 2]]
  {
    var rows := DeterministicUtils(3, 4, 3);
    assert rows[0] == [0, 1, 2];
    assert rows[1] == [1, 2, 0];
    assert rows[2] == [2, 0, 1];
    assert rows[3] == [0, 1, 2];
  }

  /** `DeterministicModel(3)(5, 3)`: the rotation continues with period 3. */
  lemma DeterministicFive()
    ensures DeterministicUtils(3, 5, 3) == [[0, 1, 2], [1, 2, 0], [2, 0, 1], [0, 1, 2], [1, 2, 0]]
  {
    var rows := DeterministicUtils(3, 5, 3);
    assert rows[0] == [0, 1, 2];
    assert rows[1] == [1, 2, 0];
    assert rows[2] == [2, 0, 1];
    assert rows[3] == [0, 1, 2];
    assert rows[4] == [1, 2, 0];
  }

  // ---------------------------------------------------------------------
  // hybridWith

  /**
   * The utilities of `hybridWith(v2, w2)`: `a[i] / root + w2 * b[i] / root`,
   * where root is `sqrt(1 + w2 ** 2)`, passed in as the positive root. None
   * where the source's length assertion fails.
   */
  function Hybrid(a: seq<real>, b: seq<real>, w: real, root: real): (r: Option<seq<real>>)
    requires root > 0.0 && root * root == 1.0 + w * w
    ensures r.Some? <==> |a| == |b|
    ensures r.Some? ==> |r.value| == |a|
  {
    if |a| != |b| then None
    else Some(seq(|a|, i requires 0 <= i < |a| => a[i] / root + w * b[i] / root))
  }

  /** Mixing a voter with its opposite at weight 1 gives all zeros, the doctest of ReverseModel. */
  lemma HybridOpposite(a: seq<real>, root: real)
    requires root > 0.0 && root * root == 2.0
    ensures Hybrid(a, Negate(a), 1.0, root) == Some(Repeat(0.0, |a|))
  {
    var h := Hybrid(a, Negate(a), 1.0, root).value;
    forall i | 0 <= i < |a|
      ensures h[i] == 0.0
    {
      assert h[i] == a[i] / root + 1.0 * (-a[i]) / root;
    }
    assert h == Repeat(0.0, |a|);
  }

  /** The doctests of hybridWith: the length check, and two exact mixtures. */
  lemma HybridExamples(root: real)
    requires root > 0.0 && root * root == 2.0
    ensures Hybrid([1.0, 2.0], [1.0, 2.0, 3.0], 1.0, root).None?
    ensures Hybrid([1.0, 2.0, 5.0], [-0.5, -1.0, 0.0], 0.75, 1.25) == Some([0.5, 1.0, 4.0])
    ensures var v2 := Hybrid([1.0, 2.0], [3.0, 2.0], 1.0, root).value;
      Hybrid(v2, v2, 1.0, root) == Some([4.0, 4.0])
  {
    var h := Hybrid([1.0, 2.0, 5.0], [-0.5, -1.0, 0.0], 0.75, 1.25).value;
    assert h[0] == 0.5 && h[1] == 1.0 && h[2] == 4.0;
    assert h == [0.5, 1.0, 4.0];
    var v2 := Hybrid([1.0, 2.0], [3.0, 2.0], 1.0, root).value;
    assert v2[0] == 4.0 / root && v2[1] == 4.0 / root;
    var t := Hybrid(v2, v2, 1.0, root).value;
    TwiceOverRoot(root);
    assert t[0] == 4.0 && t[1] == 4.0;
    assert t == [4.0, 4.0];
  }

  lemma TwiceOverRoot(root: real)
    requires root > 0.0 && root * root == 2.0
    ensures (4.0 / root) / root + 1.0 * (4.0 / root) / root == 4.0
  {
    assert (4.0 / root) / root == 4.0 / (root * root);
  }

  // ---------------------------------------------------------------------
  // The cluster counter and the models that construct voters

  /** `PersonalityVoter.cluster_count`, the class attribute every construction reads and then bumps. */
  class Clusters {
    var count: int

    /** The class attribute starts at 0. */
    constructor ()
      ensures count == 0
    {
      count := 0;
    }

    /** resetClusters. */
    method Reset()
      modifies this
      ensures count == 0
    {
      count := 0;
    }

    /** `PersonalityVoter(utils)`: the new voter takes the current count as its cluster, which then moves on. */
    method NewVoter(utils: seq<real>, personality: real) returns (v: Voter)
      modifies this
      ensures v == Voter(utils, old(count), personality) && count == old(count) + 1
    {
      v := Voter(utils, count, personality);
      count := count + 1;
    }

    /**
     * copyWithUtils: constructs a voter, which moves the counter, and then
     * gives it the parent's cluster and personality instead of its own.
     */
    method CopyWithUtils(parent: Voter, utils: seq<real>) returns (v: Voter)
      modifies this
      ensures v == Voter(utils, parent.cluster, parent.personality) && count == old(count) + 1
    {
      v := NewVoter(utils, parent.personality);
      v := v.(cluster := parent.cluster);
    }

    /** hybridWith: the mixed utilities on a copy of v; the length assertion fails before any copy. */
    method HybridWith(v: Voter, v2: Voter, w: real, root: real) returns (h: Option<Voter>)
      requires root > 0.0 && root * root == 1.0 + w * w
      modifies this
      ensures var u := Hybrid(v.utils, v2.utils, w, root);
        && (u.None? ==> h.None? && count == old(count))
        && (u.Some? ==> h == Some(Voter(u.value, v.cluster, v.personality)) && count == old(count) + 1)
    {
      var u := Hybrid(v.utils, v2.utils, w, root);
      if u.None? {
        return None;
      }
      var c := CopyWithUtils(v, u.value);
      return Some(c);
    }

    /**
     * mutantChild: v mixed with a fresh random voter of the same length,
     * whose utilities and personality are the injected draws. Two voters
     * are constructed, so the counter moves by two.
     */
    method MutantChild(v: Voter, randUtils: seq<real>, randPersonality: real, w: real, root: real) returns (child: Voter)
      requires |randUtils| == |v.utils| && root > 0.0 && root * root == 1.0 + w * w
      modifies this
      ensures child == Voter(Hybrid(v.utils, randUtils, w, root).value, v.cluster, v.personality)
      ensures count == old(count) + 2
    {
      var r := NewVoter(randUtils, randPersonality);
      var h := HybridWith(v, r, w, root);
      child := h.value;
    }

    /**
     * `DeterministicModel(modulo)(nvot, ncand)` with PersonalityVoter: one
     * voter per row, numbered by the counter in order; `personalities` are
     * the Gaussian draws of the constructions.
     */
    method Deterministic(modulo: int, nvot: nat, ncand: nat, personalities: seq<real>) returns (e: seq<Voter>)
      requires modulo != 0 || nvot == 0 || ncand == 0
      requires |personalities| == nvot
      modifies this
      ensures |e| == nvot && count == old(count) + nvot
      ensures forall j :: 0 <= j < nvot ==>
        e[j] == Voter(ToReals(DeterministicUtils(modulo, nvot, ncand)[j]), old(count) + j, personalities[j])
    {
      var rows := DeterministicUtils(modulo, nvot, ncand);
      e := [];
      for j := 0 to nvot
        invariant |e| == j && count == old(count) + j
        invariant forall k :: 0 <= k < j ==> e[k] == Voter(ToReals(rows[k]), old(count) + k, personalities[k])
      {
        var v := NewVoter(ToReals(rows[j]), personalities[j]);
        e := e + [v];
      }
    }

    /**
     * `ReverseModel()(nvot, ncand)`: an odd count raises ValueError before
     * anything is built; otherwise one random base voter and its negation,
     * each constructed once, fill the two halves. `base` and the two
     * personalities are the injected draws.
     */
    method Reverse(nvot: nat, base: seq<real>, p1: real, p2: real) returns (r: Option<seq<Voter>>)
      modifies this
      ensures nvot % 2 == 1 ==> r.None? && count == old(count)
      ensures nvot % 2 == 0 ==> count == old(count) + 2
      ensures nvot % 2 == 0 ==> r == Some(Repeat(Voter(base, old(count), p1), nvot / 2) + Repeat(Voter(Negate(base), old(count) + 1, p2), nvot / 2))
    {
      if nvot % 2 == 1 {
        return None;
      }
      var b := NewVoter(base, p1);
      var n := NewVoter(Negate(base), p2);
      return Some(Repeat(b, nvot / 2) + Repeat(n, nvot / 2));
    }

    /**
     * The loop of `PolyaModel.__call__`: reset the counter, take the seed
     * electorate (the seed model, which is not part of this model, built
     * `seedMade` voters), then append one voter per draw until there are
     * nvot. The result is what PolyaFrom computes, whatever the counter held before.
     */
    method Polya(seed: seq<Voter>, seedMade: nat, nvot: nat, ncand: nat, alpha: nat, w: real, root: real, draws: seq<UrnDraw>)
      returns (r: Option<seq<Voter>>)
      requires Fits(seed, ncand) && DrawsFit(draws, ncand) && nvot <= |seed| + |draws|
      requires root > 0.0 && root * root == 1.0 + w * w
      modifies this
      ensures var f := PolyaFrom(Urn(seed, seedMade), nvot, ncand, alpha, w, root, draws);
        && (f.None? ==> r.None?)
        && (f.Some? ==> r == Some(f.value.election) && count == f.value.count)
    {
      Reset();
      count := count + seedMade;
      var election := seed;
      var k := 0;
      while |election| < nvot
        invariant 0 <= k <= |draws| && |election| == |seed| + k && Fits(election, ncand)
        invariant PolyaFrom(Urn(election, count), nvot, ncand, alpha, w, root, draws[k..])
          == PolyaFrom(Urn(seed, seedMade), nvot, ncand, alpha, w, root, draws)
        decreases nvot - |election|
      {
        if |election| + alpha == 0 {
          return None;
        }
        ghost var u := Urn(election, count);
        var d := draws[k];
        assert draws[k..] == [d] + draws[k + 1..];
        var i := d.pick % (|election| + alpha);
        var v;
        if i < |election| {
          v := MutantChild(election[i], d.utils, d.personality, w, root);
        } else {
          v := NewVoter(d.utils, d.personality);
        }
        election := election + [v];
        k := k + 1;
        assert Urn(election, count) == UrnStep(u, alpha, d, ncand, w, root);
      }
      return Some(election);
    }
  }

  // ---------------------------------------------------------------------
  // The Polya urn as a function of its draws

  /** One iteration's random draws: the `randrange` pick, and the utilities and personality `vType.rand` draws. */
  datatype UrnDraw = UrnDraw(pick: nat, utils: seq<real>, personality: real)

  /** The electorate so far and the cluster counter. */
  datatype Urn = Urn(election: seq<Voter>, count: int)

  /** Every draw carries n utilities, as `vType.rand(n)` does. */
  predicate DrawsFit(draws: seq<UrnDraw>, n: nat)
  {
    forall k :: 0 <= k < |draws| ==> |draws[k].utils| == n
  }

  /**
   * One iteration: pick i from `range(len + alpha)`; below len, append a
   * mutant child of voter i, else a fresh voter.
   */
  function UrnStep(u: Urn, alpha: nat, d: UrnDraw, ncand: nat, w: real, root: real): (u': Urn)
    requires |u.election| + alpha > 0 && Fits(u.election, ncand) && |d.utils| == ncand
    requires root > 0.0 && root * root == 1.0 + w * w
  {
    var n := |u.election|;
    var i := d.pick % (n + alpha);
    if i < n then
      var p := u.election[i];
      Urn(u.election + [Voter(Hybrid(p.utils, d.utils, w, root).value, p.cluster, p.personality)], u.count + 2)
    else
      Urn(u.election + [Voter(d.utils, u.count, d.personality)], u.count + 1)
  }

  /** An iteration appends exactly one voter with n utilities: a copy of an earlier voter's cluster and personality, or a fresh cluster. */
  lemma UrnStepAppends(u: Urn, alpha: nat, d: UrnDraw, ncand: nat, w: real, root: real)
    requires |u.election| + alpha > 0 && Fits(u.election, ncand) && |d.utils| == ncand
    requires root > 0.0 && root * root == 1.0 + w * w
    ensures var u' := UrnStep(u, alpha, d, ncand, w, root);
      && |u'.election| == |u.election| + 1 && u'.election[..|u.election|] == u.election
      && Fits(u'.election, ncand) && u'.count > u.count
      && var v := u'.election[|u.election|];
         || (exists i :: 0 <= i < |u.election| && v.cluster == u.election[i].cluster && v.personality == u.election[i].personality)
         || (v.cluster == u.count && v.personality == d.personality && v.utils == d.utils)
  {
    var u' := UrnStep(u, alpha, d, ncand, w, root);
    assert u'.election[..|u.election|] == u.election;
  }

  /** The loop from the urn u, the draws consumed in order; None where `randrange(0)` raises. */
  function PolyaFrom(u: Urn, nvot: nat, ncand: nat, alpha: nat, w: real, root: real, draws: seq<UrnDraw>): Option<Urn>
    requires Fits(u.election, ncand) && DrawsFit(draws, ncand) && nvot <= |u.election| + |draws|
    requires root > 0.0 && root * root == 1.0 + w * w
    decreases nvot - |u.election|
  {
    if |u.election| >= nvot then Some(u)
    else if |u.election| + alpha == 0 then None
    else
      var u' := UrnStep(u, alpha, draws[0], ncand, w, root);
      UrnStepAppends(u, alpha, draws[0], ncand, w, root);
      PolyaFrom(u', nvot, ncand, alpha, w, root, draws[1..])
  }

  /**
   * The loop fails exactly when it must draw from an empty urn with no
   * wildcards; otherwise it ends with max(len(seed), nvot) voters, the seed
   * voters untouched at the front, every voter of ncand utilities, and the
   * counter no lower than it started.
   */
  lemma {:induction false} PolyaShape(u: Urn, nvot: nat, ncand: nat, alpha: nat, w: real, root: real, draws: seq<UrnDraw>)
    requires Fits(u.election, ncand) && DrawsFit(draws, ncand) && nvot <= |u.election| + |draws|
    requires root > 0.0 && root * root == 1.0 + w * w
    ensures var f := PolyaFrom(u, nvot, ncand, alpha, w, root, draws);
      && (f.None? <==> |u.election| < nvot && |u.election| + alpha == 0)
      && (f.Some? ==>
           && |f.value.election| == (if nvot < |u.election| then |u.election| else nvot)
           && f.value.election[..|u.election|] == u.election
           && Fits(f.value.election, ncand)
           && f.value.count >= u.count)
    decreases nvot - |u.election|
  {
    if |u.election| < nvot && |u.election| + alpha > 0 {
      var u' := UrnStep(u, alpha, draws[0], ncand, w, root);
      UrnStepAppends(u, alpha, draws[0], ncand, w, root);
      PolyaShape(u', nvot, ncand, alpha, w, root, draws[1..]);
      var f := PolyaFrom(u', nvot, ncand, alpha, w, root, draws[1..]);
      if f.Some? {
        assert f.value.election[..|u.election|] == f.value.election[..|u'.election|][..|u.election|];
      }
    } else if |u.election| >= nvot {
      assert u.election[..|u.election|] == u.election;
    }
  }

  /** Every voter the loop appends shares its cluster and personality with an earlier voter, or has a cluster number the counter handed out during the loop. */
  ghost predicate Lineage(e: seq<Voter>, from: nat, lo: int, hi: int)
  {
    forall j :: from <= j < |e| ==> Descends(e, j, lo, hi)
  }

  ghost predicate Descends(e: seq<Voter>, j: nat, lo: int, hi: int)
    requires j < |e|
  {
    || (exists i :: 0 <= i < j && e[j].cluster == e[i].cluster && e[j].personality == e[i].personality)
    || lo <= e[j].cluster < hi
  }

  lemma {:induction false} PolyaLineage(u: Urn, nvot: nat, ncand: nat, alpha: nat, w: real, root: real, draws: seq<UrnDraw>)
    requires Fits(u.election, ncand) && DrawsFit(draws, ncand) && nvot <= |u.election| + |draws|
    requires root > 0.0 && root * root == 1.0 + w * w
    requires PolyaFrom(u, nvot, ncand, alpha, w, root, draws).Some?
    ensures var f := PolyaFrom(u, nvot, ncand, alpha, w, root, draws).value;
      Lineage(f.election, |u.election|, u.count, f.count)
    decreases nvot - |u.election|
  {
    var f := PolyaFrom(u, nvot, ncand, alpha, w, root, draws).value;
    if |u.election| < nvot {
      var u' := UrnStep(u, alpha, draws[0], ncand, w, root);
      UrnStepAppends(u, alpha, draws[0], ncand, w, root);
      PolyaLineage(u', nvot, ncand, alpha, w, root, draws[1..]);
      PolyaShape(u', nvot, ncand, alpha, w, root, draws[1..]);
      var n := |u.election|;
      forall j | n <= j < |f.election|
        ensures Descends(f.election, j, u.count, f.count)
      {
        if j == n {
          assert f.election[..n + 1] == u'.election;
          assert f.election[n] == u'.election[n];
          assert forall i :: 0 <= i < n ==> f.election[i] == u.election[i];
        } else {
          assert Descends(f.election, j, u'.count, f.count);
        }
      }
    }
  }
}
