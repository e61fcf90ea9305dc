/**
 * The election pipeline of dataClasses.py: `resultsFor` casts one chooser's
 * ballot for every voter and tabulates them, `multiResults` runs the honest
 * chooser, the strategic chooser built on the honest results, and the
 * choosers that read back stored ballots, and `vseOn` scores the winner of
 * each run against the electorate's social utilities.
 *
 * A voter is its row of utilities; the attributes the choosers write onto
 * voters are the BallotCache, keyed by voter index (the source keeps them
 * on the voter object, which several positions can share; that aliasing is
 * not modelled). Random choices are injected: the honest tie-breaks of
 * Plurality, the tie-breaks of each run's tabulation and of each run's
 * winner.
 */
module Pipeline {
  import opened Seqs
  import opened Framework
  import Plurality
  import Score
  import Mav
  import Mj
  import Irv
  import IrvCount
  import Voters

  /** The election methods, by class. */
  datatype Rule = PluralityRule | ScoreRule | MavRule | MjRule | IrvRule

  /** `cls.__name__`, the prefix of every attribute a chooser stores. */
  function ClassName(rule: Rule): string
  {
    match rule
    case PluralityRule => "Plurality"
    case ScoreRule => "Score"
    case MavRule => "Mav"
    case MjRule => "Mj"
    case IrvRule => "Irv"
  }

  // ---------------------------------------------------------------------
  // The ballots and the tabulation of each method

  /**
   * What a method's honBallot needs from a voter without raising: a
   * utility to take the maximum of, and for Score two different utilities
   * to stretch between. Irv's sort accepts an empty voter.
   */
  predicate HonReady(rule: Rule, utils: seq<real>)
  {
    match rule
    case IrvRule => true
    case ScoreRule => |utils| > 0 && MinOf(utils) < MaxOf(utils)
    case _ => |utils| > 0
  }

  /** The method's honBallot; Mj inherits Mav's. */
  function Hon(rule: Rule, utils: seq<real>, draw: nat): (b: seq<int>)
    requires HonReady(rule, utils)
    ensures |b| == |utils|
  {
    match rule
    case PluralityRule => Plurality.HonBallot(utils, draw)
    case ScoreRule => Score.HonBallot(utils)
    case MavRule => Mav.HonBallot(utils)
    case MjRule => Mav.HonBallot(utils)
    case IrvRule => Irv.HonBallot(utils)
  }

  /**
   * What stratBallotFor(info) needs: two places in the poll whose
   * frontrunners the voter has utilities for; Irv reads every polled
   * candidate, and the model follows it only on a poll as long as the voter.
   */
  predicate StratReady(rule: Rule, info: seq<real>, utils: seq<real>)
  {
    if rule == IrvRule then 2 <= |info| == |utils| else FrontKnown(info, utils)
  }

  /**
   * What building stratBallotFor(info) needs, before any voter is seen:
   * Mav's (and Mj's, which inherits it) reads the first two places of the
   * poll at once; the other methods read the poll only inside stratBallot.
   */
  predicate StratForReady(rule: Rule, info: seq<real>)
  {
    rule == MavRule || rule == MjRule ==> |info| >= 2
  }

  /** The dictionary the method's stratBallot returns; Mj inherits Mav's. */
  function Strat(rule: Rule, info: seq<real>, utils: seq<real>): StratRecord
    requires StratReady(rule, info, utils)
  {
    match rule
    case PluralityRule => Plurality.StratBallot(info, utils)
    case ScoreRule => Score.StratBallot(info, utils)
    case MavRule => Mav.StratBallot(info, utils)
    case MjRule => Mav.StratBallot(info, utils)
    case IrvRule => Irv.StratBallot(info, utils)
  }

  /**
   * The method's `results`: Method.results with the method's candScore
   * (the mean for Plurality and Score), or Irv's elimination count, whose
   * rounds are numbers like any other result. None where Irv raises.
   */
  function Tabulate(rule: Rule, ballots: seq<seq<int>>, draws: seq<nat>): (r: Option<seq<real>>)
    ensures rule != IrvRule ==> r.Some? && |r.value| == Width(ballots)
  {
    match rule
    case PluralityRule => Some(Results(ballots, MeanScore))
    case ScoreRule => Some(Results(ballots, MeanScore))
    case MavRule => Some(Results(ballots, Mav.MavScore))
    case MjRule => Some(Results(ballots, Mj.MjScore))
    case IrvRule =>
      match IrvCount.IrvResults(ballots, draws)
      case None => None
      case Some(rounds) => Some(ToReals(rounds))
  }


  // ---------------------------------------------------------------------
  // Choosers, and what one chooser call does

  /** An external chooserFun: its `__name__`, and the strategy name it returns for each voter in turn. */
  datatype ChooserFun = ChooserFun(name: string, picks: seq<string>)

  /**
   * The choosers resultsFor is given: the method's honBallot, the
   * stratBallot of stratBallotFor(info), and the ballotChooser that
   * ballotChooserFor wraps around a chooserFun.
   */
  datatype Chooser = Honest(draws: seq<nat>) | Strategic(info: seq<real>) | Stored(fun: ChooserFun)

  /** `chooser.__name__`: the decorated function's name, or the chooserFun's. */
  function ChooserName(ch: Chooser): string
  {
    match ch
    case Honest(_) => "honBallot"
    case Strategic(_) => "stratBallot"
    case Stored(f) => f.name
  }

  /** A ballotChooser has a pick for each of n voters. */
  predicate Picks(ch: Chooser, n: nat)
  {
    ch.Stored? ==> |ch.fun.picks| >= n
  }

  type Memos = map<CacheKey, Memo>

  /**
   * One chooser call on one voter, as data: store the entries of a
   * dictionary under `<Method>_<key>` and return the entry named `ret`
   * (rememberBallot and rememberBallots; the former's dictionary has one
   * entry), read the attribute `<Method>_<strategy>` back
   * (ballotChooserFor), or raise.
   */
  datatype Act = Store(items: seq<(string, Memo)>, ret: string) | Read(strategy: string) | Raise

  /**
   * `chooser(cls, voter, tally)` for voter j as an act: the honest ballot,
   * stored under the function name without "Ballot"; the strategic
   * dictionary, whose "strat" entry is returned; or the attribute the
   * chooserFun names. The honest and strategic ballots raise where the
   * method's ballot function does.
   */
  function ActFor(rule: Rule, ch: Chooser, j: nat, utils: seq<real>): Act
    requires Picks(ch, j + 1)
  {
    match ch
    case Honest(draws) =>
      if HonReady(rule, utils) then
        var b := Hon(rule, utils, IrvCount.Draw(draws, j));
        Store([(StripBallot("honBallot"), BallotMemo(b))], StripBallot("honBallot"))
      else Raise
    case Strategic(info) =>
      if StratReady(rule, info, utils) then Store(Items(Strat(rule, info, utils)), StripBallot("stratBallot"))
      else Raise
    case Stored(f) => Read(f.picks[j])
  }

  /** The acts of a chooser on every voter, in order. */
  function Acts(rule: Rule, ch: Chooser, voters: seq<seq<real>>): (acts: seq<Act>)
    requires Picks(ch, |voters|)
    ensures |acts| == |voters|
  {
    seq(|voters|, j requires 0 <= j < |voters| => ActFor(rule, ch, j, voters[j]))
  }

  /** The ballot an act returns and the memo after it; None where it raises or the entry holds no ballot. */
  function Perform(act: Act, j: nat, cls: string, memo: Memos): Option<(seq<int>, Memos)>
  {
    match act
    case Store(items, ret) =>
      (match LastWith(items, ret)
       case Some(BallotMemo(b)) => Some((b, StoreAll(memo, j, cls, items)))
       case _ => None)
    case Read(strategy) =>
      var key := (j, AttrName(cls, strategy));
      if key in memo && memo[key].BallotMemo? then Some((memo[key].ballot, memo)) else None
    case Raise => None
  }

  /** The acts of voters j.. in order: their ballots, and the memo after them. */
  function CastFrom(acts: seq<Act>, j: nat, cls: string, memo: Memos): (r: Option<(seq<seq<int>>, Memos)>)
    requires j <= |acts|
    ensures r.Some? ==> |r.value.0| == |acts| - j
    decreases |acts| - j
  {
    if j == |acts| then Some(([], memo))
    else
      match Perform(acts[j], j, cls, memo)
      case None => None
      case Some((b, m)) =>
        match CastFrom(acts, j + 1, cls, m)
        case None => None
        case Some((bs, m')) => Some(([b] + bs, m'))
  }

  /** Ballots already cast in front of what the rest of the voters cast. */
  function After(done: seq<seq<int>>, rest: Option<(seq<seq<int>>, Memos)>): Option<(seq<seq<int>>, Memos)>
  {
    match rest
    case None => None
    case Some((bs, m)) => Some((done + bs, m))
  }

  /** resultsFor: the method's results on every voter's ballot, and the memo after casting them. */
  function RunFor(rule: Rule, ch: Chooser, voters: seq<seq<real>>, memo: Memos, draws: seq<nat>): Option<(seq<real>, Memos)>
    requires Picks(ch, |voters|)
  {
    match CastFrom(Acts(rule, ch, voters), 0, ClassName(rule), memo)
    case None => None
    case Some((bs, m)) =>
      match Tabulate(rule, bs, draws)
      case None => None
      case Some(res) => Some((res, m))
  }

  // ---------------------------------------------------------------------
  // The memo: what storing leaves, and reading it back

  /** Where a cast goes through, no act raised. */
  lemma {:induction false} CastNoRaise(acts: seq<Act>, j: nat, cls: string, memo: Memos)
    requires j <= |acts| && CastFrom(acts, j, cls, memo).Some?
    ensures forall k :: j <= k < |acts| ==> !acts[k].Raise?
    decreases |acts| - j
  {
    if j < |acts| {
      var (_, m) := Perform(acts[j], j, cls, memo).value;
      CastNoRaise(acts, j + 1, cls, m);
    }
  }

  /** An entry that no act from j on writes: another voter's, or one no stored dictionary names. */
  predicate Untouched(acts: seq<Act>, j: nat, cls: string, key: CacheKey)
  {
    || key.0 < j || key.0 >= |acts| || !acts[key.0].Store?
    || UnnamedBy(acts[key.0].items, cls, key)
  }

  /** Casting from voter j on leaves every untouched entry as it was. */
  lemma {:induction false} KeepsUntouched(acts: seq<Act>, j: nat, cls: string, memo: Memos)
    requires j <= |acts| && CastFrom(acts, j, cls, memo).Some?
    ensures var m := CastFrom(acts, j, cls, memo).value.1;
      forall key: CacheKey :: Untouched(acts, j, cls, key) ==>
        (key in m <==> key in memo) && (key in memo ==> m[key] == memo[key])
    decreases |acts| - j
  {
    if j < |acts| {
      var m1 := Perform(acts[j], j, cls, memo).value.1;
      var m := CastFrom(acts, j + 1, cls, m1).value.1;
      assert CastFrom(acts, j, cls, memo).value.1 == m;
      KeepsUntouched(acts, j + 1, cls, m1);
      PerformStores(acts[j], j, cls, memo);
      forall key: CacheKey | Untouched(acts, j, cls, key)
        ensures (key in m <==> key in memo) && (key in memo ==> m[key] == memo[key])
      {
        assert Untouched(acts, j + 1, cls, key);
        assert key.0 != j || !acts[j].Store? || UnnamedBy(acts[j].items, cls, key);
      }
    }
  }

  /** Casting from voter j on leaves every storing voter's returned ballot under `<Method>_<ret>`. */
  lemma {:induction false} StoresFrom(acts: seq<Act>, j: nat, cls: string, memo: Memos)
    requires j <= |acts| && CastFrom(acts, j, cls, memo).Some?
    ensures var (bs, m) := CastFrom(acts, j, cls, memo).value;
      forall i :: j <= i < |acts| && acts[i].Store? ==>
        (i, AttrName(cls, acts[i].ret)) in m && m[(i, AttrName(cls, acts[i].ret))] == BallotMemo(bs[i - j])
    decreases |acts| - j
  {
    if j < |acts| {
      var (b, m1) := Perform(acts[j], j, cls, memo).value;
      var (bs', m) := CastFrom(acts, j + 1, cls, m1).value;
      assert CastFrom(acts, j, cls, memo).value == ([b] + bs', m);
      var bs := [b] + bs';
      StoresFrom(acts, j + 1, cls, m1);
      forall i | j <= i < |acts| && acts[i].Store?
        ensures (i, AttrName(cls, acts[i].ret)) in m && m[(i, AttrName(cls, acts[i].ret))] == BallotMemo(bs[i - j])
      {
        if i == j {
          PerformStores(acts[j], j, cls, memo);
          KeepsUntouched(acts, j + 1, cls, m1);
          assert Untouched(acts, j + 1, cls, (j, AttrName(cls, acts[j].ret)));
        } else {
          assert bs[i - j] == bs'[i - (j + 1)];
        }
      }
    }
  }

  /** No item of a dictionary is stored under the key's attribute name. */
  predicate UnnamedBy(items: seq<(string, Memo)>, cls: string, key: CacheKey)
  {
    forall t :: 0 <= t < |items| ==> key.1 != AttrName(cls, items[t].0)
  }

  /** One act: a storing act leaves its returned ballot under `<Method>_<ret>` and every key it does not name, or another voter's, as it was. */
  lemma PerformStores(act: Act, j: nat, cls: string, memo: Memos)
    requires Perform(act, j, cls, memo).Some?
    ensures var (b, m) := Perform(act, j, cls, memo).value;
      && (act.Store? ==> (j, AttrName(cls, act.ret)) in m && m[(j, AttrName(cls, act.ret))] == BallotMemo(b))
      && (forall key: CacheKey :: (key.0 != j || !act.Store? || UnnamedBy(act.items, cls, key)) ==>
            (key in m <==> key in memo) && (key in memo ==> m[key] == memo[key]))
  {
    if act.Store? {
      StoreAllReadBack(memo, j, cls, act.items, act.ret);
      forall key: CacheKey | key.0 != j || UnnamedBy(act.items, cls, key)
        ensures var m := StoreAll(memo, j, cls, act.items); (key in m <==> key in memo) && (key in memo ==> m[key] == memo[key])
      {
        StoreAllKeepsOthers(memo, j, cls, act.items, key);
      }
    }
  }

  /** Reading entries that hold ballots gives those ballots and leaves the memo as it was. */
  lemma {:induction false} ReadBack(acts: seq<Act>, j: nat, cls: string, memo: Memos, bs: seq<seq<int>>)
    requires j <= |acts| == |bs|
    requires forall i :: j <= i < |acts| ==>
      acts[i].Read? && (i, AttrName(cls, acts[i].strategy)) in memo && memo[(i, AttrName(cls, acts[i].strategy))] == BallotMemo(bs[i])
    ensures CastFrom(acts, j, cls, memo) == Some((bs[j..], memo))
    decreases |acts| - j
  {
    if j < |acts| {
      ReadBack(acts, j + 1, cls, memo, bs);
      assert bs[j..] == [bs[j]] + bs[j + 1..];
    }
  }

  /** Acts that only read leave the memo as it was. */
  lemma {:induction false} ReadsKeepMemo(acts: seq<Act>, j: nat, cls: string, memo: Memos)
    requires j <= |acts| && forall k :: j <= k < |acts| ==> acts[k].Read?
    requires CastFrom(acts, j, cls, memo).Some?
    ensures CastFrom(acts, j, cls, memo).value.1 == memo
    decreases |acts| - j
  {
    if j < |acts| {
      ReadsKeepMemo(acts, j + 1, cls, memo);
    }
  }

  /** Every voter's pick is `name`. */
  predicate AllPick(f: ChooserFun, n: nat, name: string)
  {
    |f.picks| >= n && forall j :: 0 <= j < n ==> f.picks[j] == name
  }

  /** A ballotChooser's acts read what its chooserFun picks. */
  lemma StoredActs(rule: Rule, f: ChooserFun, name: string, voters: seq<seq<real>>)
    requires AllPick(f, |voters|, name)
    ensures forall i :: 0 <= i < |voters| ==> Acts(rule, Stored(f), voters)[i] == Read(name)
  {
  }

  /** The honest chooser's acts, where none raises: each voter's ballot stored and returned as "hon". */
  lemma HonestActs(rule: Rule, draws: seq<nat>, voters: seq<seq<real>>, memo: Memos)
    requires CastFrom(Acts(rule, Honest(draws), voters), 0, ClassName(rule), memo).Some?
    ensures var acts := Acts(rule, Honest(draws), voters);
      forall i :: 0 <= i < |voters| ==> acts[i].Store? && acts[i].ret == "hon" && |acts[i].items| == 1 && acts[i].items[0].0 == "hon"
  {
    var acts := Acts(rule, Honest(draws), voters);
    CastNoRaise(acts, 0, ClassName(rule), memo);
    forall i | 0 <= i < |voters|
      ensures acts[i].Store? && acts[i].ret == "hon" && |acts[i].items| == 1 && acts[i].items[0].0 == "hon"
    {
      assert acts[i] == ActFor(rule, Honest(draws), i, voters[i]);
      HonestAct(rule, draws, i, voters[i]);
    }
  }

  /** One voter's honest act, where it does not raise. */
  lemma HonestAct(rule: Rule, draws: seq<nat>, j: nat, utils: seq<real>)
    requires !ActFor(rule, Honest(draws), j, utils).Raise?
    ensures var a := ActFor(rule, Honest(draws), j, utils);
      a.Store? && a.ret == "hon" && |a.items| == 1 && a.items[0].0 == "hon"
  {
    StripBallotExamples();
  }

  /** No entry of a strategic dictionary is named "hon". */
  lemma ItemsNotHon(r: StratRecord)
    ensures forall t :: 0 <= t < |Items(r)| ==> Items(r)[t].0 != "hon"
  {
  }

  /** The strategic chooser's acts, where none raises: each voter's dictionary stored, its "strat" entry returned. */
  lemma StrategicActs(rule: Rule, info: seq<real>, voters: seq<seq<real>>, memo: Memos)
    requires CastFrom(Acts(rule, Strategic(info), voters), 0, ClassName(rule), memo).Some?
    ensures var acts := Acts(rule, Strategic(info), voters);
      forall i :: 0 <= i < |voters| ==>
        acts[i].Store? && acts[i].ret == "strat" && forall t :: 0 <= t < |acts[i].items| ==> acts[i].items[t].0 != "hon"
  {
    var acts := Acts(rule, Strategic(info), voters);
    CastNoRaise(acts, 0, ClassName(rule), memo);
    forall i | 0 <= i < |voters|
      ensures acts[i].Store? && acts[i].ret == "strat" && forall t :: 0 <= t < |acts[i].items| ==> acts[i].items[t].0 != "hon"
    {
      assert acts[i] == ActFor(rule, Strategic(info), i, voters[i]);
      StrategicAct(rule, info, i, voters[i]);
    }
  }

  /** One voter's strategic act, where it does not raise. */
  lemma StrategicAct(rule: Rule, info: seq<real>, j: nat, utils: seq<real>)
    requires !ActFor(rule, Strategic(info), j, utils).Raise?
    ensures var a := ActFor(rule, Strategic(info), j, utils);
      a.Store? && a.ret == "strat" && forall t :: 0 <= t < |a.items| ==> a.items[t].0 != "hon"
  {
    StripBallotExamples();
    ItemsNotHon(Strat(rule, info, utils));
  }

  /** Acts that each store a ballot returned as `name`, followed by acts that each read `name`, read back exactly the stored ballots. */
  lemma StoreThenRead(acts: seq<Act>, readers: seq<Act>, cls: string, memo: Memos, name: string)
    requires |readers| == |acts| && CastFrom(acts, 0, cls, memo).Some?
    requires forall i :: 0 <= i < |acts| ==> acts[i].Store? && acts[i].ret == name
    requires forall i :: 0 <= i < |readers| ==> readers[i] == Read(name)
    ensures var (bs, m) := CastFrom(acts, 0, cls, memo).value;
      CastFrom(readers, 0, cls, m) == Some((bs, m))
  {
    var (bs, m) := CastFrom(acts, 0, cls, memo).value;
    StoredUnder(acts, cls, memo, name);
    ReadBack(readers, 0, cls, m, bs);
    assert bs[0..] == bs;
  }

  /** Acts that each store a ballot returned as `name` leave voter i's ballot under `<Method>_<name>`. */
  lemma StoredUnder(acts: seq<Act>, cls: string, memo: Memos, name: string)
    requires CastFrom(acts, 0, cls, memo).Some?
    requires forall i :: 0 <= i < |acts| ==> acts[i].Store? && acts[i].ret == name
    ensures var (bs, m) := CastFrom(acts, 0, cls, memo).value;
      forall i :: 0 <= i < |acts| ==> (i, AttrName(cls, name)) in m && m[(i, AttrName(cls, name))] == BallotMemo(bs[i])
  {
    var (bs, m) := CastFrom(acts, 0, cls, memo).value;
    StoresFrom(acts, 0, cls, memo);
    forall i | 0 <= i < |acts|
      ensures (i, AttrName(cls, name)) in m && m[(i, AttrName(cls, name))] == BallotMemo(bs[i])
    {
      assert (i, AttrName(cls, acts[i].ret)) in m && m[(i, AttrName(cls, acts[i].ret))] == BallotMemo(bs[i - 0]);
    }
  }

  /**
   * Acts that store ballots returned as `name`, then acts storing dictionaries
   * with no entry named `name`, then acts that read `name`: the reads give
   * the first ballots back.
   */
  lemma StoreOverRead(acts: seq<Act>, later: seq<Act>, readers: seq<Act>, cls: string, memo: Memos, name: string)
    requires |readers| == |later| == |acts| && CastFrom(acts, 0, cls, memo).Some?
    requires CastFrom(later, 0, cls, CastFrom(acts, 0, cls, memo).value.1).Some?
    requires forall i :: 0 <= i < |acts| ==> acts[i].Store? && acts[i].ret == name
    requires forall i :: 0 <= i < |later| ==> later[i].Store? && forall t :: 0 <= t < |later[i].items| ==> later[i].items[t].0 != name
    requires forall i :: 0 <= i < |readers| ==> readers[i] == Read(name)
    ensures var (bs, m1) := CastFrom(acts, 0, cls, memo).value;
      var m2 := CastFrom(later, 0, cls, m1).value.1;
      CastFrom(readers, 0, cls, m2) == Some((bs, m2))
  {
    var (bs, m1) := CastFrom(acts, 0, cls, memo).value;
    var m2 := CastFrom(later, 0, cls, m1).value.1;
    StoredUnder(acts, cls, memo, name);
    KeepsUnnamed(later, cls, m1, name);
    forall i | 0 <= i < |readers|
      ensures readers[i].Read? && (i, AttrName(cls, readers[i].strategy)) in m2
        && m2[(i, AttrName(cls, readers[i].strategy))] == BallotMemo(bs[i])
    {
      assert readers[i].strategy == name;
    }
    ReadBack(readers, 0, cls, m2, bs);
    assert bs[0..] == bs;
  }

  /** Storing dictionaries none of whose entries is named `name` keeps every voter's `<Method>_<name>` entry. */
  lemma KeepsUnnamed(acts: seq<Act>, cls: string, memo: Memos, name: string)
    requires forall i :: 0 <= i < |acts| ==> acts[i].Store? && forall t :: 0 <= t < |acts[i].items| ==> acts[i].items[t].0 != name
    requires CastFrom(acts, 0, cls, memo).Some?
    ensures var m := CastFrom(acts, 0, cls, memo).value.1;
      forall i :: 0 <= i < |acts| ==>
        ((i, AttrName(cls, name)) in m <==> (i, AttrName(cls, name)) in memo)
        && ((i, AttrName(cls, name)) in memo ==> m[(i, AttrName(cls, name))] == memo[(i, AttrName(cls, name))])
  {
    KeepsUntouched(acts, 0, cls, memo);
    forall i | 0 <= i < |acts|
      ensures Untouched(acts, 0, cls, (i, AttrName(cls, name)))
    {
      forall t | 0 <= t < |acts[i].items|
        ensures AttrName(cls, name) != AttrName(cls, acts[i].items[t].0)
      {
        if AttrName(cls, name) == AttrName(cls, acts[i].items[t].0) {
          AttrNameInjective(cls, name, acts[i].items[t].0);
        }
      }
    }
  }

  /**
   * The memo round trip of rememberBallot and ballotChooserFor: after the
   * honest run, a chooserFun that picks "hon" for every voter casts exactly
   * the honest ballots, and leaves the memo as it was.
   */
  lemma HonestRoundTrip(rule: Rule, draws: seq<nat>, f: ChooserFun, voters: seq<seq<real>>, memo: Memos)
    requires AllPick(f, |voters|, "hon")
    requires CastFrom(Acts(rule, Honest(draws), voters), 0, ClassName(rule), memo).Some?
    ensures var (bs, m) := CastFrom(Acts(rule, Honest(draws), voters), 0, ClassName(rule), memo).value;
      CastFrom(Acts(rule, Stored(f), voters), 0, ClassName(rule), m) == Some((bs, m))
  {
    HonestActs(rule, draws, voters, memo);
    StoredActs(rule, f, "hon", voters);
    StoreThenRead(Acts(rule, Honest(draws), voters), Acts(rule, Stored(f), voters), ClassName(rule), memo, "hon");
  }

  /**
   * After the honest and then the strategic run, a chooserFun that picks
   * "strat" for every voter casts the strategic ballots, and one that picks
   * "hon" still casts the honest ones: no strategic entry overwrites them.
   */
  lemma StrategicRoundTrip(rule: Rule, draws: seq<nat>, info: seq<real>, fh: ChooserFun, fs: ChooserFun,
                           voters: seq<seq<real>>, memo: Memos)
    requires AllPick(fh, |voters|, "hon") && AllPick(fs, |voters|, "strat")
    requires CastFrom(Acts(rule, Honest(draws), voters), 0, ClassName(rule), memo).Some?
    requires CastFrom(Acts(rule, Strategic(info), voters), 0, ClassName(rule),
                      CastFrom(Acts(rule, Honest(draws), voters), 0, ClassName(rule), memo).value.1).Some?
    ensures var (hs, m1) := CastFrom(Acts(rule, Honest(draws), voters), 0, ClassName(rule), memo).value;
      var (ss, m2) := CastFrom(Acts(rule, Strategic(info), voters), 0, ClassName(rule), m1).value;
      && CastFrom(Acts(rule, Stored(fs), voters), 0, ClassName(rule), m2) == Some((ss, m2))
      && CastFrom(Acts(rule, Stored(fh), voters), 0, ClassName(rule), m2) == Some((hs, m2))
  {
    var cls := ClassName(rule);
    var ha, sa := Acts(rule, Honest(draws), voters), Acts(rule, Strategic(info), voters);
    var m1 := CastFrom(ha, 0, cls, memo).value.1;
    HonestActs(rule, draws, voters, memo);
    StrategicActs(rule, info, voters, m1);
    StoredActs(rule, fs, "strat", voters);
    StoredActs(rule, fh, "hon", voters);
    StoreThenRead(sa, Acts(rule, Stored(fs), voters), cls, m1, "strat");
    StoreOverRead(ha, sa, Acts(rule, Stored(fh), voters), cls, memo, "hon");
  }

  // ---------------------------------------------------------------------
  // multiResults

  /** One run of multiResults: its results and its chooser's name. */
  datatype Run = Run(results: seq<real>, chooser: string)

  /** Every chooserFun has a pick for each of n voters. */
  predicate Covers(extras: seq<ChooserFun>, n: nat)
  {
    forall k :: 0 <= k < |extras| ==> |extras[k].picks| >= n
  }

  /** The tabulation tie-breaks of run k: the injected draws, or none. */
  function RunDraws(tieDraws: seq<seq<nat>>, k: nat): seq<nat>
  {
    if k < |tieDraws| then tieDraws[k] else []
  }

  /** The runs, in order, named by `names`, where every one of them went through. */
  function Gather(outs: seq<Option<(seq<real>, Memos)>>, names: seq<string>): (r: Option<seq<Run>>)
    requires |outs| == |names|
    ensures r.Some? <==> forall k :: 0 <= k < |outs| ==> outs[k].Some?
    ensures r.Some? ==> |r.value| == |names| && forall k :: 0 <= k < |names| ==> r.value[k] == Run(outs[k].value.0, names[k])
  {
    if outs == [] then Some([])
    else
      match outs[0]
      case None => None
      case Some((res, _)) =>
        match Gather(outs[1..], names[1..])
        case None => None
        case Some(rs) => Some([Run(res, names[0])] + rs)
  }

  /**
   * The chooserFuns' runs, each cast on the memo the strategic run left:
   * they only read it, so each sees the memo the one before it left.
   */
  function ExtraOuts(rule: Rule, voters: seq<seq<real>>, extras: seq<ChooserFun>, memo: Memos,
                     tieDraws: seq<seq<nat>>): (outs: seq<Option<(seq<real>, Memos)>>)
    requires Covers(extras, |voters|)
    ensures |outs| == |extras|
  {
    seq(|extras|, k requires 0 <= k < |extras| => RunFor(rule, Stored(extras[k]), voters, memo, RunDraws(tieDraws, 2 + k)))
  }

  /** A run that raised makes the whole gathering fail. */
  lemma GatherFails(outs: seq<Option<(seq<real>, Memos)>>, names: seq<string>, k: nat)
    requires |outs| == |names| && k < |outs| && outs[k].None?
    ensures Gather(outs, names).None?
  {
  }

  /** Runs that each match their outcome, in order, are what gathering gives. */
  lemma {:induction false} GatherIs(outs: seq<Option<(seq<real>, Memos)>>, names: seq<string>, runs: seq<Run>)
    requires |outs| == |names| == |runs|
    requires forall k :: 0 <= k < |outs| ==> outs[k].Some? && runs[k] == Run(outs[k].value.0, names[k])
    ensures Gather(outs, names) == Some(runs)
  {
    if outs != [] {
      GatherIs(outs[1..], names[1..], runs[1..]);
      assert runs == [runs[0]] + runs[1..];
    }
  }

  /** The chooserFuns' names. */
  function Names(extras: seq<ChooserFun>): (names: seq<string>)
    ensures |names| == |extras| && forall k :: 0 <= k < |extras| ==> names[k] == extras[k].name
  {
    seq(|extras|, k requires 0 <= k < |extras| => extras[k].name)
  }

  /**
   * The runs of multiResults put together: 2 + len(chooserFuns) of them,
   * the honest one first, then the strategic one, then the chooserFuns' in
   * order; the memo is the one the strategic run left.
   */
  function Assemble(hon: (seq<real>, Memos), strat: (seq<real>, Memos), outs: seq<Option<(seq<real>, Memos)>>,
                    names: seq<string>): (r: Option<(seq<Run>, Memos)>)
    requires |outs| == |names|
    ensures r.Some? <==> forall k :: 0 <= k < |outs| ==> outs[k].Some?
    ensures r.Some? ==>
      && |r.value.0| == 2 + |names|
      && r.value.0[0] == Run(hon.0, "honBallot")
      && r.value.0[1] == Run(strat.0, "stratBallot")
      && (forall k :: 0 <= k < |names| ==> r.value.0[2 + k] == Run(outs[k].value.0, names[k]))
      && r.value.1 == strat.1
  {
    match Gather(outs, names)
    case None => None
    case Some(rs) => Some(([Run(hon.0, "honBallot"), Run(strat.0, "stratBallot")] + rs, strat.1))
  }

  /**
   * multiResults: the honest run, the strategic run on the information
   * `media` makes of the honest results, then one run per chooserFun; and
   * the memo after all of them.
   */
  function MultiSpec(rule: Rule, voters: seq<seq<real>>, honDraws: seq<nat>, media: seq<real> -> seq<real>,
                     extras: seq<ChooserFun>, tieDraws: seq<seq<nat>>, memo: Memos): Option<(seq<Run>, Memos)>
    requires Covers(extras, |voters|)
  {
    match RunFor(rule, Honest(honDraws), voters, memo, RunDraws(tieDraws, 0))
    case None => None
    case Some(hon) =>
      if !StratForReady(rule, media(hon.0)) then None
      else
        match RunFor(rule, Strategic(media(hon.0)), voters, hon.1, RunDraws(tieDraws, 1))
        case None => None
        case Some(strat) => Assemble(hon, strat, ExtraOuts(rule, voters, extras, strat.1, tieDraws), Names(extras))
  }

  /**
   * Where the honest run went through and then building stratBallotFor or
   * the strategic run raised, multiResults raises.
   */
  lemma MultiSpecStrat(rule: Rule, voters: seq<seq<real>>, honDraws: seq<nat>, media: seq<real> -> seq<real>,
                       extras: seq<ChooserFun>, tieDraws: seq<seq<nat>>, memo: Memos, hon: (seq<real>, Memos))
    requires Covers(extras, |voters|)
    requires RunFor(rule, Honest(honDraws), voters, memo, RunDraws(tieDraws, 0)) == Some(hon)
    requires !StratForReady(rule, media(hon.0)) || RunFor(rule, Strategic(media(hon.0)), voters, hon.1, RunDraws(tieDraws, 1)).None?
    ensures MultiSpec(rule, voters, honDraws, media, extras, tieDraws, memo).None?
  {
  }

  /** multiResults goes through only with an honest run whose poll Mav's stratBallotFor can be built on. */
  lemma MultiSpecPoll(rule: Rule, voters: seq<seq<real>>, honDraws: seq<nat>, media: seq<real> -> seq<real>,
                      extras: seq<ChooserFun>, tieDraws: seq<seq<nat>>, memo: Memos)
    requires Covers(extras, |voters|)
    ensures MultiSpec(rule, voters, honDraws, media, extras, tieDraws, memo).Some? ==>
      var h := RunFor(rule, Honest(honDraws), voters, memo, RunDraws(tieDraws, 0));
      h.Some? && StratForReady(rule, media(h.value.0))
  {
  }

  /**
   * With no voters the honest results are empty, and so is the poll the
   * identity media passes on: Mav's stratBallotFor raises on it, Plurality's
   * is never applied to anyone.
   */
  lemma EmptyElectorate()
    ensures MultiSpec(MavRule, [], [], (x: seq<real>) => x, [], [], map[]).None?
    ensures MultiSpec(MjRule, [], [], (x: seq<real>) => x, [], [], map[]).None?
    ensures MultiSpec(PluralityRule, [], [], (x: seq<real>) => x, [], [], map[]).Some?
  {
  }

  /** Where the honest and the strategic runs went through, multiResults puts them together with the chooserFuns' runs. */
  lemma MultiSpecIs(rule: Rule, voters: seq<seq<real>>, honDraws: seq<nat>, media: seq<real> -> seq<real>,
                    extras: seq<ChooserFun>, tieDraws: seq<seq<nat>>, memo: Memos, hon: (seq<real>, Memos),
                    strat: (seq<real>, Memos))
    requires Covers(extras, |voters|)
    requires RunFor(rule, Honest(honDraws), voters, memo, RunDraws(tieDraws, 0)) == Some(hon)
    requires StratForReady(rule, media(hon.0))
    requires RunFor(rule, Strategic(media(hon.0)), voters, hon.1, RunDraws(tieDraws, 1)) == Some(strat)
    ensures MultiSpec(rule, voters, honDraws, media, extras, tieDraws, memo)
         == Assemble(hon, strat, ExtraOuts(rule, voters, extras, strat.1, tieDraws), Names(extras))
  {
  }

  /** A ballotChooser's run leaves the memo as it was. */
  lemma StoredRunReads(rule: Rule, f: ChooserFun, voters: seq<seq<real>>, memo: Memos, draws: seq<nat>)
    requires |f.picks| >= |voters| && RunFor(rule, Stored(f), voters, memo, draws).Some?
    ensures RunFor(rule, Stored(f), voters, memo, draws).value.1 == memo
  {
    var acts := Acts(rule, Stored(f), voters);
    assert forall i :: 0 <= i < |acts| ==> acts[i].Read?;
    ReadsKeepMemo(acts, 0, ClassName(rule), memo);
  }
}
