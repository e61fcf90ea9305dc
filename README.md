# vse-sim: a verified model of the election core

vse-sim simulates elections to compare honest and strategic voting
under several voting methods. It scores each outcome by its Voter
Satisfaction Efficiency (VSE): how close the elected candidate's social
utility comes to the best candidate's, measured from the average
candidate's.

This project models the deterministic part of that simulator in Dafny
and proves what its doctests and comments promise.

- **The five voting methods** of `methods.py`:
  - Plurality, Score, Majority Approval (Mav), Majority Judgment (Mj) and
    instant runoff (Irv);
  - for each, the honest ballot, the strategic ballot for a poll, and the
    way the ballots are tabulated.
- **The method framework** of `dataClasses.py`:
  - column-wise `results` and `winner`;
  - the `SideTally` counters and the `Tallies` generator;
  - the ballot memo that `rememberBallot(s)` write onto voters and that
    `ballotChooserFor` reads back;
  - the `resultsFor` / `multiResults` / `vseOn` pipeline.
- **Electorate construction** in `voterModels.py`:
  - `socUtils`;
  - the deterministic and reverse models;
  - the Polya urn loop;
  - `PersonalityVoter`'s class-level cluster counter, with `copyWithUtils`,
    `hybridWith` and `mutantChild`.

Utilities and scores are exact `real`s, so the doctest values hold
exactly. Ballots are `seq<int>`.

Randomness is passed in as explicit parameters, so every operation is a
function of its inputs:
- `random.choice` in `winner` becomes a draw index;
- `randrange` in the Polya loop becomes a list of draws;
- the Gaussian utilities and personalities become given values.

Where the Python code raises an exception that nothing catches, the
model either excludes the input with a `requires` clause or returns
`None`. It returns `None` when the error is a case the program meets in
practice:
- a failed Irv `resort`;
- a missing `ballot.index`;
- `ReverseModel` with an odd count;
- the length assertion of `hybridWith`;
- `randrange(0)`;
- a memo attribute that holds no ballot.

## Modules

| module | models |
|---|---|
| `Seqs` (seqs.dfy) | the sequence tools the methods share: orders and rankings, stable `sorted(enumerate(...))`, poll places, leader and runner-up, `sorted` on grades, `min`/`max`, `list.index` |
| `Framework` (framework.dfy) | `Method.winner`, `Method.results`, the mean, `SideTally`, `Tallies`, and the ballot memo (`rememberBallot(s)`, attribute naming) |
| `Plurality`, `Score`, `Mav`, `Mj` | the ballots and `candScore` of each method |
| `MavExamples` (mavexamples.dfy) | the doctests of `Mav.stratBallotFor` |
| `Irv` (irv.dfy) | `Irv.honBallot` and `Irv.stratBallotFor`, each as a specification and as the array-filling loop of the source |
| `IrvCount` (irvcount.dfy) | `Irv.resort` and `Irv.results` over arrays of piles and results mutated in place, with the invariants of the elimination count |
| `IrvExamples` (irvexamples.dfy) | the doctests of `Irv.results` |
| `Pipeline` (pipeline.dfy) | the choosers as specification functions: which ballot a chooser casts, what it stores, and `multiResults` as a function |
| `Election` (election.dfy) | `resultsFor`, `multiResults` and `vseOn` as methods over the memo, the tallies and the tally generator, proved against `Pipeline` |
| `Vse` (vse.dfy) | the efficiency `(u[w] - mean) / (best - mean)` and its bounds |
| `Voters` (voters.dfy) | `socUtils`, `DeterministicModel`, `ReverseModel`, `hybridWith`, and the `PersonalityVoter` cluster counter as a class holding the counter, with the Polya loop |

## Model

| member | source | states |
|---|---|---|
| Seqs.IndexOf | methods.py:361 | `list.index`: the first position holding the value, and `None` exactly when the value is absent (where Python raises ValueError) |
| Seqs.Inverse | methods.py:405-409 | giving rank k to the k-th candidate of an order of 0..n-1 yields a ranking: every rank 0..n-1 used exactly once |
| Seqs.RankingFromOrder | methods.py:407-408 | any ballot that gives each entry of an order its position is that inverse ranking |
| Seqs.Insert | methods.py:406 | inserting one index grows the order by exactly that element |
| Seqs.InsertSorted | methods.py:406 | stable insertion keeps the indices sorted by key, ties in index order |
| Seqs.SortPrefix | methods.py:406 | sorting the first n indices gives an order of 0..n-1 |
| Seqs.SortPrefixSorted | methods.py:406 | that order is sorted by key, with equal keys in index order |
| Seqs.SortIndices | methods.py:406 | `sorted(enumerate(voter), key=...)` lists every candidate once, ascending by utility, ties by index |
| Seqs.Places | methods.py:52 | the poll order lists every candidate once, from the highest poll value down, equal values in index order |
| Seqs.Leader | methods.py:57 | `places[0][0]` is the first index of a maximal poll value |
| Seqs.RunnerUp | methods.py:57 | `places[1][0]` differs from the leader and is the first index of the best value among the others |
| Seqs.TopTwo | methods.py:52-57 | with strictly ordered poll values, the leader and runner-up are the two best-polling candidates |
| Seqs.Negate | voterModels.py:164 | `-q for q in basevoter`: the elementwise negation, of the same length |
| Seqs.SortGrades | methods.py:201 | `sorted(scores)` is a permutation of the grades in nondecreasing order |
| Seqs.InsertGradeSorted | methods.py:201 | inserting a grade into a sorted column keeps it sorted |
| Seqs.MaxOf | methods.py:124 | `max(utils)` is attained and bounds every entry from above |
| Seqs.MinOf | methods.py:123 | `min(utils)` is attained and bounds every entry from below |
| Framework.Nums | dataClasses.py:127 | numeric results become numeric entries one for one, and a non-empty list of them has a numeric entry |
| Framework.MaxNumFacts | dataClasses.py:127 | `max` over the numeric entries is one of them and no numeric entry exceeds it |
| Framework.EntriesEqualFacts | dataClasses.py:128 | `winners` lists exactly the candidates whose entry equals the maximum |
| Framework.Winner | dataClasses.py:116-129 | the winner is a numeric entry that no numeric entry exceeds; a non-numeric entry is never chosen |
| Framework.WinnerIsMax | dataClasses.py:127-129 | the winner's entry is the maximum itself, whatever the draw |
| Framework.WinnerCoversTies | dataClasses.py:128-129 | every maximal entry is the winner for some draw: the random choice ranges over all ties |
| Framework.MaxNumIs | dataClasses.py:127 | an attained numeric value that no numeric entry exceeds is the maximum |
| Framework.WinnerUnique | dataClasses.py:122-123 | doctest: `[1,2,3,2,-100]` elects 2 for every draw |
| Framework.WinnerTied | dataClasses.py:124-125 | doctest: `[1,2,1,3,3,3,2,1,2]` elects one of 3, 4, 5 for every draw |
| Framework.Width | dataClasses.py:114 | `zip(*ballots)` yields as many columns as the shortest ballot has entries, none without ballots |
| Framework.Column | dataClasses.py:114 | column c holds every voter's entry for candidate c, in voter order |
| Framework.Results | dataClasses.py:106-114 | `results` has one entry per column |
| Framework.ResultsShape | dataClasses.py:106-114 | with n-candidate ballots there are n results, and entry c is `candScore` of column c |
| Framework.SumBounds | methods.py:24 | n values within [lo, hi] sum to within [n·lo, n·hi] |
| Framework.MeanBounds | methods.py:24 | the mean `candScore` of Plurality and Score lies between any bounds of its column |
| Framework.NewKeys | dataClasses.py:62 | the keys a pass of reads adds to the tally: each new key once, none already present |
| Framework.OrderStep | dataClasses.py:62 | one more read keeps the insertion order the whole pass leaves |
| Framework.ReadStep | dataClasses.py:62 | one defaultdict read moves the serialized prefix, the counts and the key order on by one key |
| Framework.SideTally.constructor | dataClasses.py:32-33 | a new tally is empty, has no key list and has not fixed its keys |
| Framework.SideTally.Get | dataClasses.py:26-33 | `tally[key]` gives the count, 0 for an unseen key, and inserts an unseen key at the end of the key order |
| Framework.SideTally.Add | dataClasses.py:77-79 | `tally[key] += n` adds n to the count (from 0 if unseen) and changes nothing else |
| Framework.SideTally.InitKeys | dataClasses.py:50-58 | only the first call sets `keyList` (later calls do nothing, on Python 3.10 or later): from the declared keys, else from the iterable chooser, else leaves none; the counts never change |
| Framework.SideTally.ReadNext | dataClasses.py:62 | one read of the `serialize` comprehension |
| Framework.SideTally.Serialize | dataClasses.py:60-64 | `[]` when no key list was set; otherwise the counts over `keyList` in order; the reads add the unseen keys with count 0 and change no count |
| Framework.SideTally.FullSerialize | dataClasses.py:66-70 | the counts of the populated keys, in insertion order |
| Framework.Tallies.constructor | dataClasses.py:72 | a new generator holds no tallies and has not been iterated |
| Framework.Tallies.Next | dataClasses.py:97-100 | `__next__` makes a fresh empty tally, appends it and returns it |
| Framework.Tallies.Zip | dataClasses.py:89-95 | the first `zip(tallies, xs)` appends len(xs)+1 fresh, distinct tallies (len(xs) with `xs` first) and pairs the first len(xs); later iterations only walk the stored list |
| Framework.TalliesExample | dataClasses.py:76-87 | doctest: after `zip(ts, [5,4,3])` the four tallies serialize to `[[],[],[],[]]` and in full to `[[5],[4],[3],[]]`, and after `initKeys` with 6, 4 and 3 to `[[0],[4],[3],[]]` |
| Framework.StripBallot | dataClasses.py:191 | `name[:-6]`: the name without its last six characters ("Ballot"), or "" if shorter |
| Framework.StripBallotExamples | dataClasses.py:191 | "honBallot" is stored as "hon" and "stratBallot" as "strat" |
| Framework.AttrNameInjective | dataClasses.py:181 | `<Method>_<strategy>` names differ for different strategies of one method |
| Framework.LastWith | dataClasses.py:202-205 | the value a dictionary item named `name` leaves after the whole loop, or none if no item has that name |
| Framework.StoreAllReadBack | dataClasses.py:202-205 | after storing every item, the attribute of a stored name holds that item's value |
| Framework.StoreAllKeepsOthers | dataClasses.py:202-203 | storing the items leaves every attribute they do not name unchanged |
| Framework.BallotCache.RememberBallot | dataClasses.py:185-194 | stores the ballot under `<Method>_<name minus "Ballot">`, makes no other change, returns the ballot; reading it back gives that ballot |
| Framework.BallotCache.RememberBallots | dataClasses.py:196-206 | stores every dictionary item, in order, and returns the item named after the function |
| Plurality.OneHot | methods.py:27-30 | a length-n ballot with a single 1 at `forWhom` and 0 elsewhere |
| Plurality.OneHotCastsOneVote | methods.py:27-30 | a plurality ballot sums to exactly one vote, every slot 0 or 1 |
| Plurality.OneVote | methods.py:27-30 | the slot-writing `oneVote` builds exactly that ballot |
| Plurality.HonBallot | methods.py:32-42 | the honest ballot is a one-hot vote for a candidate of maximal utility |
| Plurality.StratBallot | methods.py:44-69 | `stratGap` is the runner-up's utility minus the leader's; `isStrat` holds exactly when the gap is positive; the ballot is one-hot on the chosen frontrunner |
| Plurality.StratVotesForPreferredFrontrunner | methods.py:57-67 | the vote goes to one of the two frontrunners, one liked no less than the other, and to the runner-up exactly when strictly preferred, which is exactly when `isStrat` |
| Plurality.HonBallotExample | methods.py:37-38 | doctest: `[-3,-2,-1]` votes `[0,0,1]` |
| Plurality.StratBallotExample | methods.py:39-40 | doctest: poll `[3,2,1]` and voter `[-3,-2,-1]` vote `[0,1,0]` |
| Score.StretchRange | methods.py:125 | between min and max, `10.99·(u-bot)/scale` runs from 0 to 10.99 |
| Score.StretchedBetween | methods.py:125 | the floored grade is within 0..10: 0 at the minimum, 10 at the maximum |
| Score.StretchedMonotone | methods.py:125 | a higher utility never gets a lower grade |
| Score.HonBallot | methods.py:111-125 | one grade per candidate on 0..10; the least-liked get 0, the best-liked 10; the grades follow the utilities |
| Score.Clamp | methods.py:148 | `max(0, min(10, k))` is on 0..10 and leaves 0..10 unchanged |
| Score.Cuts | methods.py:135-144 | the two cut utilities are the frontrunners' utilities, the higher first |
| Score.StratBallot | methods.py:127-153 | `stratGap` and `isStrat` (gap > 0) as in the source; one grade per candidate from the two cuts |
| Score.StratBallotGrades | methods.py:134-152 | grades on 0..10 that follow the utilities; the preferred frontrunner gets 10 and the other 0 when their utilities differ; when they are equal, 10 exactly for utilities at least theirs, else 0 |
| Score.HonBallotExample | methods.py:118-119 | doctest: `[5,6,7]` grades `[0,5,10]` |
| Score.HonBallotOfRotation | methods.py:123-125 | a voter with utilities 0, 1, 2 in any order grades each candidate 5 times its utility |
| Score.ResultsForExample | methods.py:120-121 | doctest: the honest results on `DeterministicModel(3)(5,3)`, the first part of `resultsFor`'s tuple, are `[4.0, 6.0, 5.0]` |
| Score.StratBallotPivotLow | methods.py:76-77 | doctest: poll `[0,1,2]`, voter `[5,6,7]` gives `[0,0,10]` |
| Score.StratBallotPivotHigh | methods.py:78-79 | doctest: poll `[2,1,0]` gives `[0,10,10]` |
| Score.StratBallotPivotMiddle | methods.py:80-81 | doctest: poll `[1,0,2]` gives `[0,5,10]` |
| Score.StratBallotTies | methods.py:83-91 | the four tie doctests give all-or-nothing ballots |
| Mav.VoteFrom | methods.py:161-164 | the walk from index k stops at the first cutoff the utility does not exceed, or after the last |
| Mav.VoteFor | methods.py:157-164 | `toVote`'s grade is in 0..len(cutoffs) |
| Mav.VoteForUnique | methods.py:157-164 | any index below which every cutoff is exceeded, and whose cutoff is not exceeded, is the vote |
| Mav.VoteForMonotone | methods.py:157-164 | a larger utility never gets a smaller vote |
| Mav.ToVote | methods.py:157-164 | the loop returns the first index whose cutoff is at least the utility, else `len(cutoffs)` |
| Mav.HonCutoffs | methods.py:226 | four cutoffs, each at most its base cut and strictly under the voter's top utility |
| Mav.HonBallot | methods.py:212-227 | grades on 0..4 that follow the utilities, the favourites always 4 |
| Mav.HonBallotExampleShort | methods.py:222-224 | doctest: `[-1,-0.5,0.5]` grades `[0,1,4]` |
| Mav.HonBallotExampleLong | methods.py:217-220 | doctest: `[-1,-0.5,0.5,1,1.1]` grades `[0,1,2,3,4]` |
| Mav.FrontUtils | methods.py:264-279 | the frontrunners' utilities, the preferred one first |
| Mav.StratCutoffs | methods.py:280-287 | four strategic cutoffs |
| Mav.CutoffsFrom | methods.py:281-287 | four cutoffs from the frontrunner utilities, the floored poll scores and the top utility |
| Mav.Approve | methods.py:267-268 | the all-or-nothing ballot: `top` for utilities at least the cut, else 0 |
| Mav.StratBallot | methods.py:230-295 | `stratGap` as in the source, `isStrat` exactly when the gap is not negative, and two ballots of one grade per candidate |
| Mav.ExtraGradeFacts | methods.py:289-292 | the extreme grade is 4 for the preferred frontrunner, 0 for the other, and within 0..10 (its clamp) |
| Mav.StratBallotGrades | methods.py:271-292 | for unequal frontrunner utilities: grades on 0..4 that follow the utilities; the less-preferred frontrunner gets at most the runner-up's floored poll score; extreme ballot 4 and 0 at the frontrunners |
| Mav.StratBallotTied | methods.py:266-269 | a zero gap gives the all-or-nothing ballot at 4 as both ballots, with `isStrat` |
| Mav.RunEnd | methods.py:206-207 | the walk stops at the end of the median's run of equal grades |
| Mav.MedianIndex | methods.py:204 | `int((nvot-1)/2)` is the lower middle index |
| Mav.SmoothedBounds | methods.py:208-210 | when the run ends past the middle, the smoothed score moves at most half a grade |
| Mav.MavScoreNearMedian | methods.py:201-210 | the Mav score is within half a grade of the median grade |
| Mav.CandScore | methods.py:184-210 | the sorting and walking loop computes the Mav score of the column |
| Mav.MavScoreOfDistinct | methods.py:188-189 | doctest: `[1,2,3,4,5]` scores 3.0 |
| Mav.MavScoreOfTopRun | methods.py:190-191 | doctest: `[1,2,3,3,3]` scores 2.5 |
| Mav.MavScoreOfEven | methods.py:192-193 | doctest: `[1,2,3,4]` scores 2.5 |
| Mav.MavScoreOfEvenSplit | methods.py:194-195 | doctest: `[1,2,3,3]` scores 2.5 |
| Mav.MavScoreOfEvenRun | methods.py:196-197 | doctest: `[1,2,2,2]` scores 1.5 |
| Mav.MavScoreOfRun | methods.py:198-199 | doctest: `[1,2,3,3,5]` scores 2.7 |
| Mav.SmoothedAtMiddle | methods.py:208-210 | a run ending exactly at the middle of an even column scores base + 0.5 |
| Mav.SortGradesUnique | methods.py:201 | two sorted columns with the same grades are equal: `sorted` has a single answer |
| MavExamples.StratBallotVia | methods.py:288 | for unequal frontrunner utilities, the strat ballot is each utility's vote under the strategic cutoffs |
| MavExamples.StratBallotComplacent | methods.py:243-244 | doctest: poll `[0,1.1,1.9,0,0]`, voter `[-1,-0.5,0.5,1,2]` gives `[0,1,2,3,4]` |
| MavExamples.StratBallotExaggerates | methods.py:245-246 | doctest: poll `[0,2.1,2.9,0,0]` gives `[0,1,3,3,4]` |
| MavExamples.StratBallotSwaps | methods.py:247-248 | doctest: poll `[0,2.1,1.9,0,0]`, voter `[-1,0.4,0.5,1,2]` gives `[0,1,3,3,4]` |
| MavExamples.StratBallotTieExamples | methods.py:249-254 | the tied doctests: `[4,4,4]`, `[4,0,4]`, `[4,0,4]` |
| MavExamples.StratBallotNearTie | methods.py:255-256 | doctest: poll `[2.1,0,3]`, voter `[6,5,6.1]` gives `[2,2,4]` |
| Mj.BeyondPermutation | methods.py:325 | how many grades lie above or below a value does not depend on the column's order |
| Mj.RunStart | methods.py:331-332 | the downward walk stops just below the middle run, or at -1 |
| Mj.NudgeBounds | methods.py:334-339 | the score is strictly within half a grade of the middle grade; for an odd count it is above exactly when the run reaches less far up than down, and below in the opposite case |
| Mj.CandScore | methods.py:325-339 | the sorting and two-walk loop computes the Mj score of the column |
| Mj.MjScoreNearMiddle | methods.py:300 | the Mj score lies strictly within 0.5 of the middle grade |
| Mj.MjScoreLeans | methods.py:334-339 | for an odd count: above the median exactly when more grades lie above than below, below in the opposite case, equal when the two sides balance |
| Mj.MjScoreOfDistinct | methods.py:308-309 | doctest: `[1,2,3,4,5]` scores 3 |
| Mj.MjScoreOfRunAbove | methods.py:310-311 | doctest: `[1,2,3,3,5]` scores 2.7 |
| Mj.MjScoreOfCentredRun | methods.py:312-313 | doctest: `[1,3,3,3,5]` scores 3 |
| Mj.MjScoreOfRunBelow | methods.py:314-315 | doctest: `[1,3,3,4,5]` scores 3.3 |
| Mj.MjScoreOfTopRun | methods.py:316-317 | doctest: `[1,3,3,3,3]` scores 2.9 |
| Mj.MjScoreOfOneBelow | methods.py:318-319 | doctest: `[3]*24+[1]` scores 2.98 |
| Mj.MjScoreOfOneAbove | methods.py:320-321 | doctest: `[3]*24+[4]` scores 3.02 |
| Mj.MjScoreOfLongRuns | methods.py:322-323 | doctest: `[3]*13+[4]*12` scores 3.46 |
| Irv.HonBallotOrder | methods.py:397-409 | the honest ballot is a ranking; c ranks below d exactly when liked less, or equally with a smaller index |
| Irv.HonBallotFill | methods.py:405-409 | the loop filling a ballot of -1s from the sorted order gives that ranking |
| Irv.HonBallotExample | methods.py:402-403 | doctest: `[4,1,6,3]` ranks `[2,0,3,1]` |
| Irv.Kept | methods.py:438-447 | the filter keeps, in order, exactly the candidates strictly preferred to the leader (or exactly the others) |
| Irv.KeptSplit | methods.py:438-447 | the two filters share the poll between them |
| Irv.SplitAroundParts | methods.py:435-447 | the three parts of the strategic order add up to the whole poll |
| Irv.StratOrder | methods.py:435-447 | the strategic order from the bottom up lists every candidate once |
| Irv.StratBallot | methods.py:412-450 | `stratGap` as in the source, `isStrat` exactly when the gap is not negative; the ballot is a ranking, which is what the assertion at line 448 checks |
| Irv.StratBallotSplits | methods.py:435-447 | exactly the candidates the voter strictly prefers to the poll leader rank above it |
| Irv.StratBallotPollOrder | methods.py:421-447 | for two candidates other than the poll leader, with c before d in the poll order (higher poll value, or equal value and smaller index), c ranks below d when the voter prefers both to the leader and above d when the voter prefers neither |
| Irv.StratBallotFill | methods.py:421-449 | the source's loops over the poll fill exactly that ranking |
| Irv.FillAround | methods.py:435-448 | the three filling steps together fill the whole ballot |
| Irv.FillPreferred | methods.py:438-441 | the upward pass gives the preferred candidates the top ranks |
| Irv.FillRest | methods.py:444-447 | the downward pass gives the others the ranks under the leader's, so every rank is then filled |
| Irv.StratBallotExample | methods.py:418-419 | doctest: poll `[3,2,1,0]`, voter `[3,6,5,2]` ranks `[1,2,3,0]` |
| IrvCount.Target | methods.py:355-366 | the pile a ballot lands on: the candidate holding the rank, trying lower ranks while that pile is closed; none where resort raises |
| IrvCount.Place | methods.py:354-366 | one ballot of resort, from the start rank of this round |
| IrvCount.ResortAll | methods.py:350-366 | the ballots placed in order, failing at the first that cannot be placed |
| IrvCount.PlaceBallot | methods.py:359-366 | the loop appends the ballot to the pile Target finds and changes no other pile |
| IrvCount.ResortFailsOn | methods.py:365-366 | once one ballot cannot be placed, neither can the whole list |
| IrvCount.ResortOne | methods.py:355-366 | the body of resort's loop places one ballot |
| IrvCount.Resort | methods.py:350-366 | resort over the piles array places every ballot as ResortAll does |
| IrvCount.NegScores | methods.py:389-390 | minus each open pile's size, non-numeric at closed piles |
| IrvCount.Round | methods.py:388-393 | a round resorts, eliminates the least pile (tie broken by the draw), records the round, closes the pile |
| IrvCount.Start | methods.py:382-386 | empty piles, every ballot still to place, no loser, every result -1 |
| IrvCount.Results | methods.py:368-394 | the ncand-round loop over arrays mutated in place computes the elimination count |
| IrvCount.Eliminate | methods.py:388-393 | one loop body over the arrays is one round |
| IrvCount.PlaceHeld | methods.py:361 | placing a ballot adds one copy of that ballot and no other |
| IrvCount.ResortHeld | methods.py:354-366 | resort adds to the open piles exactly the ballots it moves |
| IrvCount.ResortPattern | methods.py:354-366 | resort never opens or closes a pile |
| IrvCount.RoundPattern | methods.py:391-393 | a round closes exactly one pile that was open and records round i for it |
| IrvCount.RoundKeepsBallots | methods.py:388-393 | no ballot is lost: the moved ballots join the open piles and the closed pile's ballots move next |
| IrvCount.RoundLoserSmallest | methods.py:389-391 | the eliminated candidate's pile is no larger than any pile left open |
| IrvCount.IrvResultsRanking | methods.py:387-394 | whatever the tie-breaks, a count that goes through gives every candidate a distinct round 0..n-1 |
| IrvCount.IrvKeepsBallots | methods.py:387-393 | at the end the last pile taken, the winner's, holds exactly the ballots cast |
| IrvCount.PlaceFinds | methods.py:358-362 | a ballot moved from the loser's pile always finds an open pile |
| IrvCount.RoundFinds | methods.py:388-393 | while a pile is open, a round on ranking ballots goes through |
| IrvCount.IrvResultsTotal | methods.py:350-394 | when every ballot ranks the same candidates, resort never runs out of ranks and every round finds a pile to eliminate |
| IrvExamples.SingleBallot | methods.py:373-374 | doctest: `results([[0,1,2]])[2] == 2` for any tie-breaks |
| IrvExamples.PairOfBallots | methods.py:375-376 | doctest: `results([[0,1,2],[2,1,0]])[1] == 0` for any tie-breaks |
| IrvExamples.PassOver | methods.py:359-364 | a ballot whose next rank is closed passes to the rank below |
| IrvExamples.MixedElection | methods.py:377-378 | doctest: `[[0,1,2]]*4+[[2,1,0]]*3+[[1,2,0]]*2` gives `[2,0,1]` |
| Pipeline.Tabulate | dataClasses.py:106-114 | the non-Irv methods always tabulate to one result per column |
| Pipeline.Acts | dataClasses.py:139-140 | one chooser call per voter, in order |
| Pipeline.CastFrom | dataClasses.py:139-140 | casting the rest of the electorate yields one ballot per remaining voter |
| Pipeline.CastNoRaise | dataClasses.py:139-140 | a cast that goes through had no chooser call that raised |
| Pipeline.KeepsUntouched | dataClasses.py:185-206 | casting leaves every memo entry that no call writes as it was |
| Pipeline.StoresFrom | dataClasses.py:185-206 | after casting, each storing voter's returned ballot sits under `<Method>_<name>` |
| Pipeline.PerformStores | dataClasses.py:189-205 | one call stores its returned ballot under its name and touches only entries of its own voter that it names |
| Pipeline.ReadBack | dataClasses.py:180-181 | readers of entries that hold ballots return those ballots and leave the memo as it was |
| Pipeline.ReadsKeepMemo | dataClasses.py:180-181 | calls that only read leave the memo as it was |
| Pipeline.StoredActs | dataClasses.py:176-183 | a ballotChooser reads what its chooserFun picks |
| Pipeline.HonestActs | dataClasses.py:185-194 | each honest call stores one item, named "hon", and returns it |
| Pipeline.ItemsNotHon | dataClasses.py:202-203 | no item of a strategic dictionary is named "hon" |
| Pipeline.StrategicActs | dataClasses.py:196-206 | each strategic call stores its dictionary, none of its items named "hon", and returns "strat" |
| Pipeline.StoreThenRead | dataClasses.py:176-206 | storing ballots under a name and then reading that name back gives exactly the stored ballots |
| Pipeline.StoreOverRead | dataClasses.py:176-206 | stores that do not use the name in between do not disturb that read-back |
| Pipeline.KeepsUnnamed | dataClasses.py:202-203 | storing dictionaries without an item of a name keeps every voter's entry of that name |
| Pipeline.HonestRoundTrip | dataClasses.py:176-194 | after the honest run, a chooserFun that picks "hon" casts exactly the honest ballots and changes nothing |
| Pipeline.StrategicRoundTrip | dataClasses.py:176-206 | after the honest and then the strategic run, "strat" reads the strategic ballots and "hon" still reads the honest ones |
| Pipeline.Gather | dataClasses.py:157-158 | the chooserFuns' runs in order, named by their functions, when all went through |
| Pipeline.GatherFails | dataClasses.py:157-158 | one run that raises makes the list comprehension raise |
| Pipeline.GatherIs | dataClasses.py:157-158 | runs that match their outcomes, in order, are what gathering gives |
| Pipeline.ExtraOuts | dataClasses.py:157-158 | one run per chooserFun |
| Pipeline.Names | dataClasses.py:182 | each ballotChooser carries its chooserFun's name |
| Pipeline.Assemble | dataClasses.py:159-160 | 2 + len(chooserFuns) runs: honBallot first, stratBallot second, then the chooserFuns in order; the memo the strategic run left |
| Pipeline.MultiSpecStrat | dataClasses.py:153-155 | an honest run that went through, followed by a Mav or Mj stratBallotFor on a poll of fewer than two places (methods.py:258-260) or by a strategic run that raised, makes multiResults raise |
| Pipeline.MultiSpecIs | dataClasses.py:142-160 | when stratBallotFor could be built on `media(honest results)` and the strategic run on that poll went through, the runs are put together as Assemble says |
| Pipeline.MultiSpecPoll | dataClasses.py:152-155 | multiResults goes through only after an honest run that went through and whose `media` poll has at least two places when the method is Mav or Mj, whatever the voters |
| Pipeline.EmptyElectorate | dataClasses.py:152-155 | with no voters and an identity media, multiResults raises for Mav and Mj (stratBallotFor reads `places[1]` of an empty poll, methods.py:258-260) and goes through for Plurality, whose poll is read only per voter |
| Pipeline.StoredRunReads | dataClasses.py:180-181 | a ballotChooser's run leaves the memo as it was |
| Election.HonestChoose | dataClasses.py:189-192 | computes the honest ballot, stores it as `<Method>_hon`, returns it |
| Election.StrategicChoose | dataClasses.py:200-205 | stores every dictionary item, returns "strat" |
| Election.StoredChoose | dataClasses.py:180-181 | reads `<Method>_<pick>` without changing the memo; none if it holds no ballot |
| Election.Choose | dataClasses.py:139 | `chooser(cls, voter, tally)` for one voter |
| Election.StoreOne | dataClasses.py:202-205 | storing a one-item dictionary writes that one entry |
| Election.AfterStep | dataClasses.py:139-140 | one more ballot cast, followed by the rest |
| Election.CastAll | dataClasses.py:139-140 | the loop casts every voter's ballot in order, as CastFrom says, or fails exactly when a call raises |
| Election.Count | dataClasses.py:139 | the cast ballots are tabulated with the method's results |
| Election.ResultsFor | dataClasses.py:131-140 | fixes the tally's keys without changing its counts, casts and tabulates; the run carries the chooser's name |
| Election.ExtraRun | dataClasses.py:157 | one chooserFun's run matches its outcome and only reads the memo |
| Election.ExtraResults | dataClasses.py:157-158 | the chooserFuns' runs in order; they leave the memo as it was |
| Election.GatherRuns | dataClasses.py:157-158 | the comprehension's loop gathers the runs |
| Election.MultiRuns | dataClasses.py:151-158 | the honest, strategic and chooserFun runs are what MultiSpec says, so Mav and Mj raise on a poll of fewer than two places before any strategic ballot is cast; the two own tallies have fixed their keys |
| Election.MultiResults | dataClasses.py:142-160 | the runs paired with tallies: two fresh own ones first, then generator tallies that stay empty; the memo as MultiSpec says |
| Election.PairUp | dataClasses.py:156-160 | the first two runs keep their tallies, the rest get fresh tallies from a Tallies generator |
| Election.Paired | dataClasses.py:160 | `zip` pairs the k-th run with the k-th tally |
| Election.Outcomes | dataClasses.py:173 | each run's results |
| Election.VseSpecRuns | dataClasses.py:162-173 | the honest run is scored first and the strategic second; every score is at most 1, and exactly 1 when the winner has the best social utility |
| Election.ChooserNames | dataClasses.py:152-160 | the runs are named honBallot, stratBallot, then the chooserFuns' names |
| Election.AssembleNames | dataClasses.py:159-160 | the same for any assembled list of runs |
| Election.VseSpecIs | dataClasses.py:166-173 | vseOn scores the runs of multiResults on the social utilities |
| Election.Firsts | dataClasses.py:173 | the runs of the pairs |
| Election.ScoreRuns | dataClasses.py:171-173 | scores every run with its tally and chooser name |
| Election.Scores | dataClasses.py:171-173 | the comprehension's loop |
| Election.VseOn | dataClasses.py:162-174 | one efficiency per run, tagged with its tally and chooser name, the method's class and the chooserFuns; fails exactly when multiResults or a scoring fails |
| Vse.VseAll | dataClasses.py:171-173 | every run scored with its own draw, failing exactly when one run fails |
| Vse.MeanBelowBest | dataClasses.py:168-169 | `rand <= best`, with equality exactly when all social utilities are equal |
| Vse.UndefinedIffFlat | dataClasses.py:172 | the efficiency is undefined exactly when every candidate has the same social utility |
| Vse.AtMostOne | dataClasses.py:172 | the efficiency is at most 1, and exactly 1 when the winner has the best social utility |
| Vse.NonNegativeIffAboveMean | dataClasses.py:172 | the efficiency is at least 0 exactly when the winner is at least as good as the mean |
| Vse.WinnerHeads | dataClasses.py:172 | the scored winner heads the run's results |
| Voters.Repeat | voterModels.py:163-164 | `[x] * k` is k copies of x |
| Voters.SocUtils | voterModels.py:114-122 | one mean per candidate |
| Voters.SocUtilsBounds | voterModels.py:122 | a candidate's social utility lies between the least and the most any voter gives it |
| Voters.SocUtilsExample | voterModels.py:118-120 | doctest: `[[1,2],[3,4]]` gives `[2.0, 3.0]` |
| Voters.PyMod | voterModels.py:146 | Python's `%`: the remainder has the sign of the modulus |
| Voters.PyModPeriod | voterModels.py:146 | Python remainders repeat with period abs(m) |
| Voters.DeterministicUtils | voterModels.py:145-147 | nvot rows of ncand utilities |
| Voters.DeterministicRange | voterModels.py:146 | with a positive modulus every utility is in 0..modulo-1 |
| Voters.DeterministicPeriod | voterModels.py:146 | the voters repeat with period abs(modulo) |
| Voters.DeterministicShift | voterModels.py:146 | each voter is the one before rotated by one candidate |
| Voters.DeterministicExample | voterModels.py:137-138 | doctest: `DeterministicModel(3)(4,3)` |
| Voters.DeterministicFive | voterModels.py:145-147 | `DeterministicModel(3)(5,3)`, the electorate of the Score and Irv doctests |
| Voters.Hybrid | voterModels.py:57-60 | fails exactly when the lengths differ, else keeps the length |
| Voters.HybridOpposite | voterModels.py:156-157 | a voter mixed with its opposite at weight 1 is all zeros |
| Voters.HybridExamples | voterModels.py:45-55 | the three hybridWith doctests |
| Voters.Clusters.constructor | voterModels.py:86 | the counter starts at 0 |
| Voters.Clusters.Reset | voterModels.py:101-103 | `resetClusters` sets the counter to 0 |
| Voters.Clusters.NewVoter | voterModels.py:88-92 | a new voter takes the current count as its cluster, and the counter goes up by one |
| Voters.Clusters.CopyWithUtils | voterModels.py:105-109 | the copy keeps the parent's cluster and personality; the construction still moves the counter |
| Voters.Clusters.HybridWith | voterModels.py:36-60 | the mixed utilities on a copy of v; on a length mismatch no voter is built and the counter stays |
| Voters.Clusters.MutantChild | voterModels.py:68-82 | v mixed with a fresh voter of the same length; keeps v's cluster and personality; the counter moves by two |
| Voters.Clusters.Deterministic | voterModels.py:145-147 | voter j carries row j of the model and cluster count + j |
| Voters.Clusters.Reverse | voterModels.py:159-165 | an odd count fails before building anything; otherwise half copies of the base voter, half of its negation, two constructions |
| Voters.Clusters.Polya | voterModels.py:208-220 | resets the counter and runs the loop; the result and the final counter are what PolyaFrom says |
| Voters.UrnStepAppends | voterModels.py:214-219 | one iteration appends exactly one voter of ncand utilities: a mutant sharing an earlier voter's cluster and personality, or a fresh cluster |
| Voters.PolyaShape | voterModels.py:212-220 | fails exactly when it must draw from an empty urn; otherwise ends with max(len(seed), nvot) voters, the seed untouched at the front |
| Voters.PolyaLineage | voterModels.py:214-219 | every appended voter shares an earlier voter's cluster and personality or has a cluster handed out during the loop |

## Left out

- Randomness is passed in, not drawn:
  - the tie draws of `winner` and of the Irv rounds (`IrvCount.Draw` gives 0 once the draws run out);
  - the Polya `randrange` draws;
  - every Gaussian utility and personality (`Voter.rand`, `random.gauss`).
  The statistical doctests (voterModels.py:27-31, 71-79, 181-183) are about distributions and are not modelled.
- `sqrt(1 + w2 ** 2)` in `hybridWith` is a parameter `root` with `root > 0` and `root * root == 1 + w * w`.
- Voters.Clusters.Polya: `alpha` is a `nat`, the number of wildcard places in the urn that the docstring describes. voterModels.py:204 accepts any integer, and a negative `alpha` with `len(election) + alpha > 0` still gives a valid `randrange` (voterModels.py:215), drawing only among the existing voters; the model does not cover negative values.
- `RandomModel`, `QModel` and the seed model of `PolyaModel` are not part of this model. `Voters.Clusters.Polya` takes the seed electorate, and the number of voters its construction made, as inputs.
- The sampled bias constants (methods.py:22, 100, 106, 180, 348) are measurements, not logic.
- Floating point:
  - utilities and scores are exact reals;
  - numpy's `floor` is `Floor` on reals;
  - a numpy `nan` from `(best - rand) == 0` in `vseOn` is the value `Undefined`.
- Mav.StratBallot: `stratGap is 0` (methods.py:266) is an identity test, true only for a Python integer zero. It is modelled as a gap equal to 0, which is what it means for the integer voters of the doctests. For float utilities a gap of 0.0 fails the test and takes the else branch, where `extraStrat` divides by `frontUtils[0] - frontUtils[1] == 0.0` (methods.py:289-292). With plain Python floats (the utilities `Voter.rand` draws) that raises ZeroDivisionError. With numpy.float64 utilities (every voter built by `hybridWith`, which divides by numpy's `sqrt` at voterModels.py:58-59, and so every `mutantChild` of the Polya urn) it gives ±inf or nan with only a warning; numpy's `floor` (methods.py:7) and `max(0, min(10, ·))` then make `extraStrat` 10 where the utility is at least `frontUtils[1]` and 0 elsewhere, and `strat` is `toVote` over the else branch's cutoffs. The model returns the all-or-nothing ballot at 4 in both cases, which differs from both outcomes.
- Mav.ExtraGradeFacts: the extreme ballot is clamped to 10, not 4, as the source writes it (methods.py:289-292).
- Mav.CandScore and Mj.CandScore: the source says they only work for an odd number of voters. The model computes the source's formula for every count. Mj.MjScoreLeans requires an odd count, and the other bounds hold for every count.
- The Irv doctest `resultsFor(DeterministicModel(3)(5,3), honBallot)[0] == [0, 1, 2]` (methods.py:371-372) is not modelled. The other three `Irv.results` doctests are.
- Framework.SideTally.InitKeys: the source makes later calls do nothing by storing `staticmethod(lambda x:x)` on the instance (dataClasses.py:58). A second call goes through only on Python 3.10 or later, where a `staticmethod` object can be called; on older versions it raises TypeError. The model assumes Python 3.10 or later. The pipeline calls `initKeys` once per tally either way.
- Score.ResultsForExample: the doctest at methods.py:120-121 shows a bare list, but `resultsFor` returns the tuple `(results, chooser.__name__)` (dataClasses.py:139-140), so the doctest is out of date. The lemma states the first part of that tuple, `[4.0, 6.0, 5.0]`.
- Score.HonBallot: requires the voter's utilities not to be all equal. The source divides by zero there.
- Voters.DeterministicUtils: requires a nonzero modulo whenever there is a utility to compute. `(i+j) % modulo` with modulo 0 raises ZeroDivisionError in the source (voterModels.py:146).
- Mav's stratBallotFor (inherited by Mj) builds `front` from `places[0]` and `places[1]` as soon as it is called, before any voter (methods.py:258-260), so it raises on a poll of fewer than two places whatever the voters are. `Pipeline.MultiSpec` checks this (`Pipeline.StratForReady`) before the strategic run, and `Election.MultiRuns` returns the raise there.
- The strategic ballots of Plurality and Score read the poll only when applied to a voter; they raise on a poll of fewer than two places, or when one of the two frontrunners `places[0][0]`, `places[1][0]` is not a candidate of the voter (methods.py:52-57, 132-135). Mav's ballot also raises when a frontrunner is not a candidate of the voter (methods.py:264). The `requires` of these ballots (`Seqs.FrontKnown`) excludes exactly those inputs, and `Pipeline.ActFor` turns them into a raise for the voter concerned.
- Irv.StratBallot: requires a poll of at least two candidates and exactly as long as the voter. A longer poll raises in the source, because the loops read `voter[nextLoser]` for every place (methods.py:438-447).
- Irv.StratBallot on a poll shorter than the voter: the source does not raise. It fills the `len(info)` polled candidates and leaves `-1` for the others (methods.py:436-448). The model does not build that -1-padded ballot, and `Pipeline.ActFor` reports it as a raise. In `multiResults` the poll is `media` of the honest results, which have one entry per candidate; when `media` keeps the length and all voters have the same number of candidates, the poll is exactly as long as each voter.
- The `media` filter is a pure function of the honest results. The source passes it `stratTally` as a second argument, and writes to that tally are not modelled.
- A chooserFun is the list of strategy names it picks, one per voter. Its own body is not part of this model.
- `ballotChooserFor` on an attribute that holds something other than a ballot (a strategic dictionary's `isStrat`, say) yields `None`: that run fails.
- `getattr` on a missing attribute (AttributeError) also yields `None`.
- Election.ExtraResults: the memo is stated unchanged only when every run goes through.
- Election.ResultsFor: when a run fails, the memo left behind is not stated.
- Pipeline.StoresFrom and Pipeline.HonestRoundTrip: the memo is kept per voter position, while the source keeps it per voter object. `ReverseModel` builds its electorate as `[basevoter] * (nvot//2) + [vType(-q …)] * (nvot//2)` (voterModels.py:163-164): two objects, each at nvot/2 positions. The `setattr` of rememberBallot(s) (dataClasses.py:191, 203) then writes onto the shared object, and `getattr` in ballotChooserFor (dataClasses.py:181) reads back the last alias's ballot for every alias. Where the aliases' ballots differ (Plurality's honest ballot breaks ties with an injected draw per voter), the source's read-back differs from the per-position read-back these lemmas state. The model does not capture this aliasing.
- Pipeline.ExtraOuts: each chooserFun's run starts on the memo the strategic run left. That is exact, because ballotChoosers only read (Pipeline.StoredRunReads).
- Election.MultiResults: freshness is stated for the honest and strategic tallies only. Election.PairUp states it for the chooserFuns' tallies.
- Election.VseOn: freshness is stated for the honest and strategic tallies only.
- `multiResults` calls `resultsFor` without the generated tally (dataClasses.py:157), so the generator's tallies stay empty. The model keeps this.
- `VseOneRun`'s one-element list of scores is a single value.
- `VseMethodRun.method` is the method's class name.
- `debug(...)` at dataClasses.py:57 is a log line and produces nothing here.
- The `AttributeError` branch of `fullSerialize` (dataClasses.py:69-70) cannot be reached for a dictionary and is not modelled.
- Where the behaviour described for the system differs from the code, the code is modelled:
  - the Irv strategic ballot reorders every voter's ranking, whether or not the runner-up is preferred, around the poll leader;
  - Irv `resort` catches only the AttributeError of a closed pile; a rank missing from a ballot raises ValueError, which the model reports as a failed count;
  - `initKeys` without keys leaves no `keyList` (so `serialize` gives `[]`); it does not set an empty one.
