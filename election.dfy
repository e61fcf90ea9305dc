/**
 * The running side of Method in dataClasses.py: one chooser call on a
 * voter, `resultsFor`, `multiResults` and `vseOn`, as methods over the
 * ballot memo and the side tallies, each proved against its specification
 * in Pipeline.
 */
module Election {
  import opened Seqs
  import opened Framework
  import opened Pipeline
  import IrvCount
  import Voters
  import Vse

  /** What the act of a chooser call promises of the call: the same ballot, or a raise, and the memo the act leaves. */
  ghost predicate Does(act: Act, j: nat, cls: string, memo: Memos, b: Option<seq<int>>, after: Memos)
  {
    var p := Perform(act, j, cls, memo);
    (b.Some? <==> p.Some?) && (p.Some? ==> b.value == p.value.0 && after == p.value.1)
  }

  /** The method's honBallot under rememberBallot: compute the ballot, store it as `<Method>_hon`, return it. */
  method HonestChoose(rule: Rule, draws: seq<nat>, j: nat, utils: seq<real>, cache: BallotCache) returns (b: Option<seq<int>>)
    modifies cache
    ensures Does(ActFor(rule, Honest(draws), j, utils), j, ClassName(rule), old(cache.entries), b, cache.entries)
  {
    if HonReady(rule, utils) {
      var x := Hon(rule, utils, IrvCount.Draw(draws, j));
      var ballot := cache.RememberBallot(j, ClassName(rule), "honBallot", x);
      b := Some(ballot);
      StoreOne(old(cache.entries), j, ClassName(rule), StripBallot("honBallot"), BallotMemo(x));
    } else {
      b := None;
    }
  }

  /** The method's stratBallot under rememberBallots: store every entry of the dictionary, return its "strat" ballot. */
  method StrategicChoose(rule: Rule, info: seq<real>, j: nat, utils: seq<real>, cache: BallotCache) returns (b: Option<seq<int>>)
    modifies cache
    ensures Does(ActFor(rule, Strategic(info), j, utils), j, ClassName(rule), old(cache.entries), b, cache.entries)
  {
    if StratReady(rule, info, utils) {
      var m := cache.RememberBallots(j, ClassName(rule), "stratBallot", Strat(rule, info, utils));
      b := if m.Some? && m.value.BallotMemo? then Some(m.value.ballot) else None;
    } else {
      b := None;
    }
  }

  /** ballotChooser: read the attribute `<Method>_<pick>` the chooserFun names; None if it holds no ballot. */
  method StoredChoose(rule: Rule, f: ChooserFun, j: nat, utils: seq<real>, cache: BallotCache) returns (b: Option<seq<int>>)
    requires j < |f.picks|
    ensures Does(ActFor(rule, Stored(f), j, utils), j, ClassName(rule), cache.entries, b, cache.entries)
  {
    var m := cache.Read(j, ClassName(rule), f.picks[j]);
    b := if m.Some? && m.value.BallotMemo? then Some(m.value.ballot) else None;
  }

  /** `chooser(cls, voter, tally)` for voter j. None where the call raises. */
  method Choose(rule: Rule, ch: Chooser, j: nat, utils: seq<real>, cache: BallotCache) returns (b: Option<seq<int>>)
    requires Picks(ch, j + 1)
    modifies cache
    ensures Does(ActFor(rule, ch, j, utils), j, ClassName(rule), old(cache.entries), b, cache.entries)
  {
    match ch
    case Honest(draws) => b := HonestChoose(rule, draws, j, utils, cache);
    case Strategic(info) => b := StrategicChoose(rule, info, j, utils, cache);
    case Stored(f) => b := StoredChoose(rule, f, j, utils, cache);
  }

  /** Storing a one-item dictionary writes that one entry. */
  lemma StoreOne(memo: Memos, j: nat, cls: string, name: string, v: Memo)
    ensures StoreAll(memo, j, cls, [(name, v)]) == memo[(j, AttrName(cls, name)) := v]
    ensures LastWith([(name, v)], name) == Some(v)
  {
    assert [(name, v)][1..] == [];
  }

  /** Nothing cast yet: the cast is the rest. */
  lemma AfterNothing(rest: Option<(seq<seq<int>>, Memos)>)
    ensures After([], rest) == rest
  {
    if rest.Some? {
      assert [] + rest.value.0 == rest.value.0;
    }
  }

  /** One more ballot cast: the cast so far, followed by the rest. */
  lemma AfterStep(acts: seq<Act>, j: nat, cls: string, memo: Memos, done: seq<seq<int>>)
    requires j < |acts| && Perform(acts[j], j, cls, memo).Some?
    ensures var (b, m) := Perform(acts[j], j, cls, memo).value;
      After(done, CastFrom(acts, j, cls, memo)) == After(done + [b], CastFrom(acts, j + 1, cls, m))
  {
    var (b, m) := Perform(acts[j], j, cls, memo).value;
    match CastFrom(acts, j + 1, cls, m)
    case None =>
    case Some((bs, m')) =>
      assert done + ([b] + bs) == (done + [b]) + bs;
  }

  /** The ballots of every voter in order, cast by one chooser; None where a call raises. */
  method CastAll(rule: Rule, ch: Chooser, voters: seq<seq<real>>, cache: BallotCache) returns (r: Option<seq<seq<int>>>)
    requires Picks(ch, |voters|)
    modifies cache
    ensures var spec := CastFrom(Acts(rule, ch, voters), 0, ClassName(rule), old(cache.entries));
      (r.Some? <==> spec.Some?) && (spec.Some? ==> r.value == spec.value.0 && cache.entries == spec.value.1)
  {
    var cls := ClassName(rule);
    ghost var acts := Acts(rule, ch, voters);
    ghost var memo := cache.entries;
    var ballots: seq<seq<int>> := [];
    var j := 0;
    AfterNothing(CastFrom(acts, 0, cls, memo));
    while j < |voters|
      invariant 0 <= j <= |voters| && |ballots| == j
      invariant CastFrom(acts, 0, cls, memo) == After(ballots, CastFrom(acts, j, cls, cache.entries))
    {
      ghost var before := cache.entries;
      var b := Choose(rule, ch, j, voters[j], cache);
      assert acts[j] == ActFor(rule, ch, j, voters[j]);
      if b.None? {
        assert CastFrom(acts, j, cls, before).None?;
        return None;
      }
      AfterStep(acts, j, cls, before, ballots);
      ballots := ballots + [b.value];
      j := j + 1;
    }
    assert ballots + [] == ballots;
    r := Some(ballots);
  }

  /** The method's `results` on the cast ballots: Irv counts them in its elimination loop. */
  method Count(rule: Rule, ballots: seq<seq<int>>, draws: seq<nat>) returns (res: Option<seq<real>>)
    ensures res == Tabulate(rule, ballots, draws)
  {
    if rule == IrvRule {
      var rounds := IrvCount.Results(ballots, draws);
      res := if rounds.Some? then Some(ToReals(rounds.value)) else None;
    } else {
      res := Tabulate(rule, ballots, draws);
    }
  }

  /**
   * resultsFor: fix the tally's keys (a chooser function declares none),
   * cast every voter's ballot in order, then tabulate them. None where a
   * ballot or the tabulation raises.
   */
  method ResultsFor(rule: Rule, voters: seq<seq<real>>, ch: Chooser, tally: SideTally<string>, cache: BallotCache,
                    draws: seq<nat>) returns (r: Option<Run>)
    requires Picks(ch, |voters|)
    modifies tally, cache
    ensures tally.initDone && tally.keyList == old(tally.keyList)
    ensures tally.counts == old(tally.counts) && tally.order == old(tally.order)
    ensures var spec := RunFor(rule, ch, voters, old(cache.entries), draws);
      && (r.Some? <==> spec.Some?)
      && (spec.Some? ==> r.value == Run(spec.value.0, ChooserName(ch)) && cache.entries == spec.value.1)
  {
    tally.InitKeys(NoKeys);
    var ballots := CastAll(rule, ch, voters, cache);
    if ballots.None? {
      return None;
    }
    var res := Count(rule, ballots.value, draws);
    r := if res.Some? then Some(Run(res.value, ChooserName(ch))) else None;
  }

  /** A tally as a fresh SideTally leaves it: no counts, no key list; the first `initKeys` call still to come or done. */
  ghost predicate Blank(t: SideTally<string>, keysFixed: bool)
    reads t
  {
    t.Valid() && t.counts == map[] && t.order == [] && t.keyList == None && t.initDone == keysFixed
  }

  /**
   * One chooserFun's run of multiResults, on a tally of its own; it only
   * reads the memo. `outs` is every chooserFun's run on the memo the run
   * starts from.
   */
  method ExtraRun(rule: Rule, voters: seq<seq<real>>, extras: seq<ChooserFun>, k: nat, tieDraws: seq<seq<nat>>,
                  ghost outs: seq<Option<(seq<real>, Memos)>>, ghost memo: Memos, cache: BallotCache)
    returns (run: Option<Run>)
    requires k < |extras| && Covers(extras, |voters|)
    requires outs == ExtraOuts(rule, voters, extras, memo, tieDraws) && cache.entries == memo
    modifies cache
    ensures run.Some? <==> outs[k].Some?
    ensures run.Some? ==> run.value == Run(outs[k].value.0, extras[k].name) && cache.entries == memo
  {
    var own := new SideTally<string>();
    run := ResultsFor(rule, voters, Stored(extras[k]), own, cache, RunDraws(tieDraws, 2 + k));
    if run.Some? {
      StoredRunReads(rule, extras[k], voters, memo, RunDraws(tieDraws, 2 + k));
    }
  }

  /** The chooserFuns' runs of multiResults, in order; they only read the memo. */
  method ExtraResults(rule: Rule, voters: seq<seq<real>>, extras: seq<ChooserFun>, tieDraws: seq<seq<nat>>,
                      cache: BallotCache) returns (r: Option<seq<Run>>)
    requires Covers(extras, |voters|)
    modifies cache
    ensures r == Gather(ExtraOuts(rule, voters, extras, old(cache.entries), tieDraws), Names(extras))
    ensures r.Some? ==> cache.entries == old(cache.entries)
  {
    ghost var outs := ExtraOuts(rule, voters, extras, cache.entries, tieDraws);
    r := GatherRuns(rule, voters, extras, tieDraws, outs, cache.entries, cache);
  }

  /** The loop of ExtraResults, over the runs `outs` the chooserFuns make on the memo it starts from. */
  method GatherRuns(rule: Rule, voters: seq<seq<real>>, extras: seq<ChooserFun>, tieDraws: seq<seq<nat>>,
                    ghost outs: seq<Option<(seq<real>, Memos)>>, ghost memo: Memos, cache: BallotCache)
    returns (r: Option<seq<Run>>)
    requires Covers(extras, |voters|) && outs == ExtraOuts(rule, voters, extras, memo, tieDraws) && cache.entries == memo
    modifies cache
    ensures r == Gather(outs, Names(extras))
    ensures r.Some? ==> cache.entries == memo
  {
    var runs: seq<Run> := [];
    var k := 0;
    while k < |extras|
      invariant 0 <= k <= |extras| && |runs| == k && cache.entries == memo
      invariant forall i :: 0 <= i < k ==> outs[i].Some? && runs[i] == Run(outs[i].value.0, extras[i].name)
    {
      var run := ExtraRun(rule, voters, extras, k, tieDraws, outs, memo, cache);
      if run.None? {
        GatherFails(outs, Names(extras), k);
        return None;
      }
      runs := runs + [run.value];
      k := k + 1;
    }
    GatherIs(outs, Names(extras), runs);
    r := Some(runs);
  }

  /**
   * The runs of multiResults: the honest run on `honTally`, the strategic
   * run on `stratTally` with the poll `media` makes of the honest results,
   * then the chooserFuns' runs. None where a run raises.
   */
  method MultiRuns(rule: Rule, voters: seq<seq<real>>, honDraws: seq<nat>, media: seq<real> -> seq<real>,
                   extras: seq<ChooserFun>, tieDraws: seq<seq<nat>>, honTally: SideTally<string>,
                   stratTally: SideTally<string>, cache: BallotCache) returns (r: Option<seq<Run>>)
    requires Covers(extras, |voters|)
    requires Blank(honTally, false) && Blank(stratTally, false) && honTally != stratTally
    modifies honTally, stratTally, cache
    ensures var spec := MultiSpec(rule, voters, honDraws, media, extras, tieDraws, old(cache.entries));
      && (r.Some? <==> spec.Some?)
      && (r.Some? ==> r.value == spec.value.0 && cache.entries == spec.value.1)
    ensures r.Some? ==> Blank(honTally, true) && Blank(stratTally, true)
  {
    ghost var memo := cache.entries;
    var hon := ResultsFor(rule, voters, Honest(honDraws), honTally, cache, RunDraws(tieDraws, 0));
    if hon.None? {
      return None;
    }
    ghost var h := (hon.value.results, cache.entries);
    var info := media(hon.value.results);
    if !StratForReady(rule, info) {
      MultiSpecStrat(rule, voters, honDraws, media, extras, tieDraws, memo, h);
      return None;
    }
    var strat := ResultsFor(rule, voters, Strategic(info), stratTally, cache, RunDraws(tieDraws, 1));
    if strat.None? {
      MultiSpecStrat(rule, voters, honDraws, media, extras, tieDraws, memo, h);
      return None;
    }
    ghost var st := (strat.value.results, cache.entries);
    var rs := ExtraResults(rule, voters, extras, tieDraws, cache);
    MultiSpecIs(rule, voters, honDraws, media, extras, tieDraws, memo, h, st);
    if rs.None? {
      return None;
    }
    r := Some([hon.value, strat.value] + rs.value);
  }

  /**
   * multiResults: the runs, each paired with its tally: the honest and
   * the strategic run's own, then those a Tallies generator makes as it is
   * zipped with the chooserFuns (which the runs never see: each
   * chooserFun's resultsFor makes its own). None where a run raises.
   */
  method MultiResults(rule: Rule, voters: seq<seq<real>>, honDraws: seq<nat>, media: seq<real> -> seq<real>,
                      extras: seq<ChooserFun>, tieDraws: seq<seq<nat>>, cache: BallotCache)
    returns (r: Option<seq<(Run, SideTally<string>)>>)
    requires Covers(extras, |voters|)
    modifies cache
    ensures var spec := MultiSpec(rule, voters, honDraws, media, extras, tieDraws, old(cache.entries));
      && (r.Some? <==> spec.Some?)
      && (spec.Some? ==> Firsts(r.value) == spec.value.0 && cache.entries == spec.value.1)
    ensures r.Some? ==> forall k :: 0 <= k < |r.value| ==> Blank(r.value[k].1, k < 2)
    ensures r.Some? ==> |r.value| >= 2 && fresh(r.value[0].1) && fresh(r.value[1].1) && r.value[0].1 != r.value[1].1
  {
    var honTally := new SideTally<string>();
    var stratTally := new SideTally<string>();
    var runs := MultiRuns(rule, voters, honDraws, media, extras, tieDraws, honTally, stratTally, cache);
    if runs.None? {
      return None;
    }
    var pairs := PairUp(runs.value, honTally, stratTally, |extras|);
    r := Some(pairs);
  }

  /**
   * `[(hon, honTally), (strat, stratTally)] + list(zip(extras, list(extraTallies)))`:
   * the first two runs with their own tallies, the rest with the tallies a
   * fresh Tallies generator makes as it is zipped with the n chooserFuns.
   */
  method PairUp(runs: seq<Run>, honTally: SideTally<string>, stratTally: SideTally<string>, n: nat)
    returns (r: seq<(Run, SideTally<string>)>)
    requires |runs| == 2 + n && Blank(honTally, true) && Blank(stratTally, true)
    ensures Firsts(r) == runs && forall k :: 0 <= k < |r| ==> Blank(r[k].1, k < 2)
    ensures r[0].1 == honTally && r[1].1 == stratTally && forall k :: 2 <= k < |r| ==> fresh(r[k].1)
  {
    var extraTallies := new Tallies<string>();
    var tallies := extraTallies.Zip(n, false);
    var ts := [honTally, stratTally] + tallies;
    forall k | 0 <= k < |ts|
      ensures Blank(ts[k], k < 2) && (k >= 2 ==> fresh(ts[k]))
    {
      if k >= 2 {
        assert ts[k] == tallies[k - 2];
      }
    }
    r := Paired(runs, ts);
    assert Firsts(r) == runs;
  }

  /** `zip(runs, tallies)`. */
  function Paired(runs: seq<Run>, tallies: seq<SideTally<string>>): (r: seq<(Run, SideTally<string>)>)
    requires |runs| == |tallies|
    ensures |r| == |runs| && forall k :: 0 <= k < |r| ==> r[k] == (runs[k], tallies[k])
  {
    seq(|runs|, k requires 0 <= k < |runs| => (runs[k], tallies[k]))
  }

  // ---------------------------------------------------------------------
  // vseOn

  /** A VseOneRun: the efficiency of the run's winner, the run's tally and its chooser's name. */
  datatype OneRun = OneRun(result: Vse.Efficiency, tally: SideTally<string>, strat: string)

  /** A VseMethodRun: the method's class name, the chooserFuns' names and one VseOneRun per run. */
  datatype MethodRun = MethodRun(methodClass: string, choosers: seq<string>, results: seq<OneRun>)

  /** The results of each run. */
  function Outcomes(runs: seq<Run>): (r: seq<seq<real>>)
    ensures |r| == |runs| && forall k :: 0 <= k < |runs| ==> r[k] == runs[k].results
  {
    seq(|runs|, k requires 0 <= k < |runs| => runs[k].results)
  }

  /**
   * What vseOn computes: every run of multiResults scored on the
   * electorate's social utilities, the k-th winner's ties broken by the
   * k-th draw; None where multiResults or a scoring raises.
   */
  function VseSpec(rule: Rule, voters: seq<seq<real>>, honDraws: seq<nat>, media: seq<real> -> seq<real>,
                   extras: seq<ChooserFun>, tieDraws: seq<seq<nat>>, winDraws: seq<nat>, memo: Memos)
    : Option<seq<Vse.Efficiency>>
    requires Covers(extras, |voters|)
  {
    match MultiSpec(rule, voters, honDraws, media, extras, tieDraws, memo)
    case None => None
    case Some(m) => Vse.VseAll(Voters.SocUtils(voters), Outcomes(m.0), winDraws, 0)
  }

  /**
   * vseOn scores the honest run first and the strategic run second, each
   * on the winner of its own results; where it goes through, every score is
   * at most 1, and exactly 1 where that run elected a candidate of the
   * best social utility.
   */
  lemma VseSpecRuns(rule: Rule, voters: seq<seq<real>>, honDraws: seq<nat>, media: seq<real> -> seq<real>,
                    extras: seq<ChooserFun>, tieDraws: seq<seq<nat>>, winDraws: seq<nat>, memo: Memos)
    requires Covers(extras, |voters|)
    requires VseSpec(rule, voters, honDraws, media, extras, tieDraws, winDraws, memo).Some?
    ensures var m := MultiSpec(rule, voters, honDraws, media, extras, tieDraws, memo);
      var v := VseSpec(rule, voters, honDraws, media, extras, tieDraws, winDraws, memo).value;
      var utils := Voters.SocUtils(voters);
      && m.Some? && |v| == |m.value.0| == 2 + |extras|
      && m.value.0[0].chooser == "honBallot" && m.value.0[1].chooser == "stratBallot"
      && forall k :: 0 <= k < |v| ==>
           var w := Winner(Nums(m.value.0[k].results), IrvCount.Draw(winDraws, k));
           && w < |utils| && v[k] == Vse.Eff(utils, w)
           && (v[k].Efficiency? ==> v[k].value <= 1.0 && (v[k].value == 1.0 <==> utils[w] == MaxOf(utils)))
  {
    var m := MultiSpec(rule, voters, honDraws, media, extras, tieDraws, memo);
    var v := VseSpec(rule, voters, honDraws, media, extras, tieDraws, winDraws, memo).value;
    var utils := Voters.SocUtils(voters);
    var outs := Outcomes(m.value.0);
    forall k | 0 <= k < |v|
      ensures var w := Winner(Nums(m.value.0[k].results), IrvCount.Draw(winDraws, k));
        && w < |utils| && v[k] == Vse.Eff(utils, w)
        && (v[k].Efficiency? ==> v[k].value <= 1.0 && (v[k].value == 1.0 <==> utils[w] == MaxOf(utils)))
    {
      Vse.WinnerHeads(utils, outs[k], IrvCount.Draw(winDraws, k));
      var w := Winner(Nums(outs[k]), IrvCount.Draw(winDraws, k));
      if v[k].Efficiency? {
        Vse.AtMostOne(utils, w);
      }
    }
  }

  /** The runs of multiResults carry the names honBallot, stratBallot, then the chooserFuns' names. */
  lemma ChooserNames(rule: Rule, voters: seq<seq<real>>, honDraws: seq<nat>, media: seq<real> -> seq<real>,
                     extras: seq<ChooserFun>, tieDraws: seq<seq<nat>>, memo: Memos)
    requires Covers(extras, |voters|)
    requires MultiSpec(rule, voters, honDraws, media, extras, tieDraws, memo).Some?
    ensures var runs := MultiSpec(rule, voters, honDraws, media, extras, tieDraws, memo).value.0;
      |runs| == 2 + |extras| && forall k :: 0 <= k < |runs| ==> runs[k].chooser == (["honBallot", "stratBallot"] + Names(extras))[k]
  {
    var hon := RunFor(rule, Honest(honDraws), voters, memo, RunDraws(tieDraws, 0)).value;
    var strat := RunFor(rule, Strategic(media(hon.0)), voters, hon.1, RunDraws(tieDraws, 1)).value;
    AssembleNames(hon, strat, ExtraOuts(rule, voters, extras, strat.1, tieDraws), Names(extras));
  }

  lemma AssembleNames(hon: (seq<real>, Memos), strat: (seq<real>, Memos), outs: seq<Option<(seq<real>, Memos)>>,
                      names: seq<string>)
    requires |outs| == |names| && Assemble(hon, strat, outs, names).Some?
    ensures var runs := Assemble(hon, strat, outs, names).value.0;
      |runs| == 2 + |names| && forall k :: 0 <= k < |runs| ==> runs[k].chooser == (["honBallot", "stratBallot"] + names)[k]
  {
    var runs := Assemble(hon, strat, outs, names).value.0;
    forall k | 0 <= k < |runs|
      ensures runs[k].chooser == (["honBallot", "stratBallot"] + names)[k]
    {
      if k >= 2 {
        assert runs[2 + (k - 2)] == Run(outs[k - 2].value.0, names[k - 2]);
      }
    }
  }

  /** Where multiResults goes through, vseOn scores its runs. */
  lemma VseSpecIs(rule: Rule, voters: seq<seq<real>>, honDraws: seq<nat>, media: seq<real> -> seq<real>,
                  extras: seq<ChooserFun>, tieDraws: seq<seq<nat>>, winDraws: seq<nat>, memo: Memos, runs: seq<Run>)
    requires Covers(extras, |voters|)
    requires MultiSpec(rule, voters, honDraws, media, extras, tieDraws, memo).Some?
    requires runs == MultiSpec(rule, voters, honDraws, media, extras, tieDraws, memo).value.0
    ensures VseSpec(rule, voters, honDraws, media, extras, tieDraws, winDraws, memo)
         == Vse.VseAll(Voters.SocUtils(voters), Outcomes(runs), winDraws, 0)
  {
  }

  /** The runs of a multiResults. */
  function Firsts(pairs: seq<(Run, SideTally<string>)>): (r: seq<Run>)
    ensures |r| == |pairs| && forall k :: 0 <= k < |pairs| ==> r[k] == pairs[k].0
  {
    seq(|pairs|, k requires 0 <= k < |pairs| => pairs[k].0)
  }

  /**
   * The list comprehension of vseOn on the runs of multiResults, `pairs`,
   * made on the memo `memo`: each run's winner scored, with the run's tally
   * and chooser name.
   */
  method ScoreRuns(rule: Rule, voters: seq<seq<real>>, honDraws: seq<nat>, media: seq<real> -> seq<real>,
                   extras: seq<ChooserFun>, tieDraws: seq<seq<nat>>, winDraws: seq<nat>, ghost memo: Memos,
                   pairs: seq<(Run, SideTally<string>)>) returns (r: Option<MethodRun>)
    requires Covers(extras, |voters|)
    requires MultiSpec(rule, voters, honDraws, media, extras, tieDraws, memo).Some?
    requires Firsts(pairs) == MultiSpec(rule, voters, honDraws, media, extras, tieDraws, memo).value.0
    ensures var spec := VseSpec(rule, voters, honDraws, media, extras, tieDraws, winDraws, memo);
      && (r.Some? <==> spec.Some?)
      && (r.Some? ==>
            && r.value.methodClass == ClassName(rule) && r.value.choosers == Names(extras)
            && |r.value.results| == |spec.value|
            && forall k :: 0 <= k < |spec.value| ==>
                 && r.value.results[k].result == spec.value[k]
                 && r.value.results[k].strat == (["honBallot", "stratBallot"] + Names(extras))[k])
    ensures r.Some? ==> |r.value.results| == |pairs| && forall k :: 0 <= k < |pairs| ==> r.value.results[k].tally == pairs[k].1
  {
    ChooserNames(rule, voters, honDraws, media, extras, tieDraws, memo);
    VseSpecIs(rule, voters, honDraws, media, extras, tieDraws, winDraws, memo, Firsts(pairs));
    var results := Scores(pairs, Voters.SocUtils(voters), winDraws);
    if results.None? {
      return None;
    }
    r := Some(MethodRun(ClassName(rule), Names(extras), results.value));
  }

  /** Each run's winner scored on `utils`, with the run's tally and chooser name. */
  method Scores(pairs: seq<(Run, SideTally<string>)>, utils: seq<real>, winDraws: seq<nat>)
    returns (r: Option<seq<OneRun>>)
    ensures var e := Vse.VseAll(utils, Outcomes(Firsts(pairs)), winDraws, 0);
      && (r.Some? <==> e.Some?)
      && (r.Some? ==>
            && |r.value| == |pairs|
            && forall k :: 0 <= k < |pairs| ==> r.value[k] == OneRun(e.value[k], pairs[k].1, pairs[k].0.chooser))
  {
    var effs := Vse.VseAll(utils, Outcomes(Firsts(pairs)), winDraws, 0);
    if effs.None? {
      return None;
    }
    r := Some(seq(|pairs|, k requires 0 <= k < |pairs| => OneRun(effs.value[k], pairs[k].1, pairs[k].0.chooser)));
  }

  /**
   * vseOn: multiResults, then for every run the efficiency of its winner
   * on the electorate's social utilities, with the run's tally and chooser
   * name. None where multiResults raises, or a winner is undefined.
   */
  method VseOn(rule: Rule, voters: seq<seq<real>>, honDraws: seq<nat>, media: seq<real> -> seq<real>,
               extras: seq<ChooserFun>, tieDraws: seq<seq<nat>>, winDraws: seq<nat>, cache: BallotCache)
    returns (r: Option<MethodRun>)
    requires Covers(extras, |voters|)
    modifies cache
    ensures var spec := VseSpec(rule, voters, honDraws, media, extras, tieDraws, winDraws, old(cache.entries));
      && (r.Some? <==> spec.Some?)
      && (r.Some? ==>
            && r.value.methodClass == ClassName(rule) && r.value.choosers == Names(extras)
            && |r.value.results| == |spec.value|
            && forall k :: 0 <= k < |spec.value| ==>
                 && r.value.results[k].result == spec.value[k]
                 && r.value.results[k].strat == (["honBallot", "stratBallot"] + Names(extras))[k])
    ensures r.Some? ==> forall k :: 0 <= k < |r.value.results| ==> Blank(r.value.results[k].tally, k < 2)
    ensures r.Some? ==>
      |r.value.results| >= 2 && fresh(r.value.results[0].tally) && fresh(r.value.results[1].tally)
      && r.value.results[0].tally != r.value.results[1].tally
  {
    var multi := MultiResults(rule, voters, honDraws, media, extras, tieDraws, cache);
    if multi.None? {
      return None;
    }
    r := ScoreRuns(rule, voters, honDraws, media, extras, tieDraws, winDraws, old(cache.entries), multi.value);
  }

}
