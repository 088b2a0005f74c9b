# Retro-funding voting simulation — a Dafny model

This project models the core of a small simulator of retroactive public-goods
funding rounds. It has two parts.

**The quorum-gated voting engine** (`voting_model.py`):
- **Projects** collect votes.
- **Voters** spend a budget of OP tokens across projects, by a strategy or by the
  default ballot generator.
- **A round** scores every project from the amounts it received. The score is
  gated by a vote quorum, uses one of several statistics, and is floored at a
  minimum amount. The round then normalises the scores into shares of the round's
  funding.
- **A simulation** repeats vote, score and reset.

**The rule registry of the mesa-based VotingModel** (`model/VotingModel.py`):
- It keeps a dictionary from a rule name to an allocation rule, discovered by
  reflection on a rules object and edited by name.
- It turns the latest voting matrix into a table with one column per rule plus a
  "Project" label column. The label column silently replaces a rule registered
  under the name "Project".

## Modules

- `base.dfy`, module `Base`:
  - `Option` and `Result`, and the exceptions the code raises as `Error` values.
  - `Distinct`.
- `numerics.dfy`, module `Numerics`:
  - the numpy and Python primitives the scoring uses: `sum`, `np.median`,
    `np.mean`, and `np.quantile` with linear interpolation;
  - an abstract `np.sqrt`;
  - the descending ranking used by `np.argsort(-x)`, by `sorted(..., reverse=True)`
    and by `max(...)`.
- `scoring.dfy`, module `Scoring`: the pure part of `calculate_allocations`.
  - Per project: quorum gate, per-method statistic, minimum-amount floor.
  - Over the projects: scoring stops at the first error, then normalisation.
  - Corrected definitions of the two findings, with their properties proved.
- `entities.dfy`, module `Entities`:
  - the `Vote` record and the `Project` and `Voter` classes;
  - voting plans: which projects a voter votes on, and how each amount is priced
    from the running balance;
  - the strategy methods, and `Voter.Vote` dispatching over them.
- `rounds.dfy`, module `Rounds`:
  - the `Round` class (`calculate_allocations` as two loops over the projects);
  - the ballot `simulate_voting` builds for each voter;
  - the `Simulation` class (voting, scoring, reset, and the loop of
    `simulate_voting_and_scoring`).
- `registry.dfy`, module `Registry`: the `VotingModel` class, with rule discovery,
  lookup, editing and the allocation table.

Amounts are `real`. An absent vote amount (`None`) is `Option<real>.None`. A score
or allocation that numpy can make NaN is a `Num`, which is `Num(r)` or `NaN`.

Randomness is supplied by the caller:
- every `np.random.uniform(lo, hi)` becomes `lo + (hi - lo) * u`, for a given
  fraction `u` in [0, 1);
- `simulate_voting` takes one sequence of subjectivity fractions and one sequence
  of amount fractions per voter.

`np.sqrt`, the two phantom-median functions of `aggregation_methods` and the rule
bodies are parameters of the model, whose bodies are not modelled. So is the matrix
the voter agent casts.

## Model

| member | source | states |
|---|---|---|
| Numerics.MedianWithinRange | voting_model.py:161 | the median of a non-empty vote list is a number between its smallest and largest vote |
| Numerics.MeanWithinRange | voting_model.py:163 | the mean of a non-empty vote list is a number between its smallest and largest vote |
| Numerics.QuantileWithinRange | voting_model.py:167-168 | a linear-interpolation quantile of a non-empty list lies between its smallest and largest element |
| Numerics.SortAsc | voting_model.py:161 | sorting (used by the median and the quantiles) gives an ascending permutation of the votes |
| Numerics.Rank | voting_model.py:259 | the descending ranking holds every index exactly once, and each index comes before any index with a smaller key (ties in index order) |
| Numerics.RankIsPermutation | voting_model.py:259 | the ranking of the perceived ratings has no repeated index, so it is a permutation of the projects |
| Numerics.RankHeadIsFirstMaximum | voting_model.py:126 | the first-ranked index has the largest key, and no earlier index has that key, as `max` picks it |
| Numerics.RankPrefixIsTop | voting_model.py:115 | the first m ranked indices are distinct and each has a key at least that of any index not among them |
| Numerics.SqrtAtLeastOne | voting_model.py:265 | np.sqrt of a number of at least 1 is at least 1, so a ballot's cap never exceeds balance times laziness |
| Scoring.Within | voting_model.py:169 | the filtered votes all lie in [lo, hi], are drawn from the votes, and include every vote in [lo, hi] |
| Scoring.ScoresBy | voting_model.py:154-180 | when scoring succeeds there is one score per project, each the scorer's result for that project's votes |
| Scoring.ScoresOf | voting_model.py:154-180 | when scoring succeeds, project j's score is the quorum-gated, floored statistic of its votes |
| Scoring.ScoresByFailureSticks | voting_model.py:155-179 | once some project's score raises, the whole scoring raises that error |
| Scoring.ScoresByAllSucceed | voting_model.py:155-180 | if every project scores, the scoring returns exactly those scores in project order |
| Scoring.ScoresByFirstFailure | voting_model.py:155-179 | the scoring raises the error of the first project whose statistic raises |
| Scoring.Total | voting_model.py:182 | the total is a number exactly when no score is NaN |
| Scoring.TotalIsSum | voting_model.py:182 | with no NaN score, the total is the sum of the scores |
| Scoring.NormalizeElementwise | voting_model.py:182-192 | normalising raises exactly when it divides a non-empty list by a zero total; otherwise it gives each project its own allocation, in order |
| Scoring.Shares | voting_model.py:187 | each project's share is its score over the total times max_funding |
| Scoring.ShareIsScaled | voting_model.py:187 | a share is the score scaled by max_funding over the total; the total's share is max_funding and a zero score's share is 0 |
| Scoring.QuorumGate | voting_model.py:157-158 | a project with fewer votes than the quorum scores 0, whatever its votes are |
| Scoring.FloorHolds | voting_model.py:177-178 | a finite score of a project that met the quorum is 0 or at least min_amount |
| Scoring.CentralScoreWithinVotes | voting_model.py:160-163 | 'median' and 'mean' never raise, and their score is 0 (the floor) or between the smallest and largest vote |
| Scoring.UnknownMethodScoresSum | voting_model.py:175-176 | an unrecognised method name scores the floored sum of the votes and raises nothing |
| Scoring.NormalizedSharesSumToFunding | voting_model.py:182-192 | with a finite non-zero total, every allocation is finite, a zero score gets 0, and the allocations add up to max_funding |
| Scoring.SharesSumTo | voting_model.py:185-187 | shares of a total that is the sum of the scores add up to max_funding |
| Scoring.RawScoresWithoutNormalize | voting_model.py:188-189 | without normalisation the allocations are the raw scores |
| Scoring.AllocationPerProject | voting_model.py:185-192 | a successful calculation yields one allocation per project |
| Scoring.NoQuorumRaises | voting_model.py:182-187 | as written: when no project reaches the quorum, normalising raises ZeroDivisionError |
| Scoring.AllZeroScores | voting_model.py:155-158 | when no project reaches the quorum, scoring succeeds with a 0 for every project |
| Scoring.NormalizeGuarded | voting_model.py:182-192 | corrected normalisation never raises: a zero total gives every project 0, and a finite non-zero total gives finite allocations summing to max_funding |
| Scoring.OutliersOfTwoDistinctVotes | voting_model.py:166-169 | as written: 'outliers' on two distinct votes scores NaN |
| Scoring.QuartilesOfTwo | voting_model.py:167-168 | the quartiles of two ascending votes lie strictly between them |
| Scoring.QuartilesOfTwoSwapped | voting_model.py:167-168 | the quartiles of two descending votes lie strictly between them |
| Scoring.SortTwo | voting_model.py:167-168 | sorting two distinct votes puts the smaller first |
| Scoring.NoneWithin | voting_model.py:169 | two votes both outside [q25, q75] leave the filtered list empty |
| Scoring.QuantileOfPair | voting_model.py:167-168 | a quantile of two distinct votes interpolates linearly from the smaller to the larger |
| Scoring.QuantileOfTwo | voting_model.py:167-168 | a quantile of two sorted votes interpolates linearly between them |
| Scoring.OutliersCorrected | voting_model.py:166-169 | corrected 'outliers' raises exactly on an empty vote list, and otherwise scores a number between the smallest and largest vote |
| Entities.AmountsAppend | voting_model.py:37-38 | the amounts of a concatenation of vote lists are the amounts of each, in order |
| Entities.SpentAppend | voting_model.py:80-81 | one more vote adds its amount, or nothing when it is None, to what the votes spent |
| Entities.Project.constructor | voting_model.py:7-19 | a new project keeps its id, rating and owner, holds no votes, has no score, and has a zero mean and token amount |
| Entities.Project.ResetProject | voting_model.py:21-26 | reset_project restores that initial state, and num_votes again counts the amounts |
| Entities.Project.AddVote | voting_model.py:28-31 | add_vote appends exactly that vote; get_votes gains its amount, or nothing when it is None; num_votes again counts the non-None amounts |
| Entities.Project.AddZeroes | voting_model.py:33-35 | add_zeroes(m) appends m anonymous zero votes (none when m < 0) and raises num_votes by exactly m |
| Entities.Weight | voting_model.py:265 | a ballot place's cap factor laziness/sqrt(places left) is between 0 and the laziness factor |
| Entities.BallotWeights | voting_model.py:265 | every on-ballot place gets a cap factor between 0 and the laziness factor |
| Entities.RandomPlan | voting_model.py:104-107 | random_voting votes on every project, in list order |
| Entities.EqualSplitPlan | voting_model.py:109-112 | equal_distribution raises ZeroDivisionError exactly when there are no projects; otherwise it votes on every project in order, with amounts whose n-fold sum is total_op |
| Entities.TopKPlan | voting_model.py:114-118 | top_k raises exactly when k = 0; otherwise it votes on min(k, n) distinct projects, each rated at least as high as any project left out, with total_op/k each |
| Entities.TopThenRest | voting_model.py:126-130 | partial commitment visits every project once: the first highest-rated one first, then the others |
| Entities.PartialCommitmentPlan | voting_model.py:124-131 | raises ZeroDivisionError exactly for one project and the max() error exactly for none; otherwise it gives 70% of total_op to the first highest-rated project and splits the rest equally over the others |
| Entities.PrescribedAmount | voting_model.py:76-83 | the amount a plan's next vote carries, when not None, is the rule's offer at the balance the earlier votes left |
| Entities.CastsFollowAt | voting_model.py:76-83 | each vote of a followed plan is the one the plan prescribes after the votes before it |
| Entities.FollowStep | voting_model.py:76-83 | casting the prescribed vote extends a followed plan by one step |
| Entities.EachTargetGetsItsVote | voting_model.py:104-131 | over distinct projects, each project a plan names gets exactly the vote cast for it, and no other project gets any |
| Entities.BallotOfferBelowBalance | voting_model.py:262-270 | a ballot offers an amount only within the ballot size and when the cap is at least 1, and that amount is below the cap, which is at most the balance |
| Entities.BallotSpendsWithin | voting_model.py:262-270 | a ballot never offers a negative amount or more than the current balance |
| Entities.RandomSpendsWithin | voting_model.py:104-107 | random_voting never offers a negative amount or more than the current balance |
| Entities.DrawBelowCap | voting_model.py:270 | a uniform draw from [0, cap) lies in [0, cap) |
| Entities.FollowKeepsBalance | voting_model.py:76-83 | following a plan that never overspends keeps the balance between 0 and where it started |
| Entities.Voter.constructor | voting_model.py:57-70 | a new voter keeps its id, budget, laziness and expertise, has the 'random' strategy, no votes, and its whole budget as balance |
| Entities.Voter.ResetVoter | voting_model.py:72-74 | reset_voter empties the votes and restores the balance to total_op |
| Entities.Voter.CastVote | voting_model.py:76-83 | cast_vote appends the same vote to the voter and the project; it carries None on an owned project; the balance drops by exactly the amount cast, or not at all for None |
| Entities.Voter.CastOn | voting_model.py:76-83 | one cast_vote, seen from all projects: only the project voted on gains the vote |
| Entities.Voter.CastNext | voting_model.py:76-83 | casting a plan's next vote extends the followed plan by one step; the balance becomes the plan's starting balance less what all its votes spent; each project gains exactly that vote if it is on it |
| Entities.Voter.CastAll | voting_model.py:104-131 | a strategy's loop casts one vote per planned project, following the plan; the balance drops by the amounts cast; each project gains exactly the votes on it |
| Entities.Voter.FollowPlan | voting_model.py:104-131 | the voter's new votes follow the plan from its old balance, and each project gains exactly the votes on it |
| Entities.Voter.RandomVoting | voting_model.py:104-107 | random_voting follows the random plan over every project |
| Entities.Voter.EqualDistributionVoting | voting_model.py:109-112 | equal_distribution raises and changes nothing with no projects; otherwise it follows the equal-split plan |
| Entities.Voter.TopKVoting | voting_model.py:114-118 | top_k raises and changes nothing for k = 0; otherwise it follows the top-k plan |
| Entities.Voter.StrategicVoting | voting_model.py:120-122 | the strategic placeholder changes nothing |
| Entities.Voter.PartialCommitmentVoting | voting_model.py:124-131 | partial commitment raises and changes nothing for zero or one project; otherwise it follows the 70/30 plan |
| Entities.Voter.IssueBasedVoting | voting_model.py:133-135 | the issue-based placeholder changes nothing |
| Entities.Voter.Vote | voting_model.py:90-102 | vote dispatches on the strategy name (top_k with k = 3); 'strategic', 'issue_based' and unknown names cast nothing; an error changes nothing |
| Rounds.Round.constructor | voting_model.py:138-143 | a new round has the given funding, no projects or voters, and zero counters |
| Rounds.Round.AddProjects | voting_model.py:145-147 | add_projects appends the projects and keeps num_projects equal to the list's length |
| Rounds.Round.AddVoters | voting_model.py:149-151 | add_voters appends the voters and keeps num_voters equal to the list's length |
| Rounds.Round.CalculateAllocations | voting_model.py:153-192 | returns the allocations of the projects' vote lists; sets every score when scoring succeeds and every token amount when the call succeeds; on an error, leaves each score as it was or correctly scored, and leaves every token amount unchanged |
| Rounds.Round.ScoreProjects | voting_model.py:154-180 | the first loop returns the scores of the vote lists, stops at the first error, and records every score it computes |
| Rounds.Round.PayOut | voting_model.py:182-192 | the second loop returns the normalised allocations and records each as the project's token amount; a zero total raises before any is set |
| Rounds.Trunc | voting_model.py:253 | int() truncates toward zero: the result is within 1 of x, on x's side of 0 |
| Rounds.BallotSizeWithin | voting_model.py:253 | for laziness in [0, 1], the ballot size is between 0 and the number of projects |
| Rounds.Perceived | voting_model.py:256-257 | each perceived rating is the true rating times a subjectivity draw from [expertise, 2 - expertise) |
| Rounds.BallotPlan | voting_model.py:256-270 | the ballot ranks every project exactly once, by perceived rating, and prices each place by the ballot rule |
| Rounds.BallotWeightsCaps | voting_model.py:265 | with laziness in [0, 1] and draws in [0, 1), every on-ballot cap factor is between 0 and the laziness factor |
| Rounds.BallotRuleCapped | voting_model.py:262-270 | the ballot rule offers nothing from the ballot size on; every offer is below balance times laziness, which is then at least 1; it never overspends |
| Rounds.BallotOfferBelowLaziness | voting_model.py:265-270 | an offer made at a non-negative balance is below balance times laziness, which is at least 1 |
| Rounds.PastSizeAbsent | voting_model.py:262-263 | projects ranked at or past the ballot size get a None vote |
| Rounds.AmountBelowCap | voting_model.py:265-270 | every amount cast is below the balance left before it times laziness, and that product is at least 1 |
| Rounds.BallotOf | voting_model.py:253-270 | a voter's ballot names every project exactly once |
| Rounds.BallotOfCapped | voting_model.py:253-270 | a voter's ballot offers nothing past its size, keeps every amount below balance times laziness, and never overspends |
| Rounds.BallotWithinCaps | voting_model.py:260-271 | projects past the ballot size get None, and the balance stays between 0 and where it started |
| Rounds.BallotKeepsBalance | voting_model.py:262-271 | with laziness in [0, 1] and draws in [0, 1), a voter who casts its ballot from a non-negative balance is left with a balance between 0 and where it started |
| Rounds.BallotVotesEveryProject | voting_model.py:259-271 | one ballot over distinct projects gives every project exactly one vote, from this voter |
| Rounds.OneVotePerVoter | voting_model.py:252-271 | after every voter's ballot, each project holds exactly one vote per voter, in voter order |
| Rounds.CastBallot | voting_model.py:253-271 | one voter's turn: its votes grow by a full ballot that follows its plan; its balance drops by the amounts; each project gains exactly the votes on it |
| Rounds.CastAndGather | voting_model.py:260-271 | after one more ballot, each project holds its votes so far plus that ballot's votes on it |
| Rounds.Turn | voting_model.py:252-271 | voter k casts its ballot from its balance before the turn, and every other voter is unchanged |
| Rounds.TakeTurns | voting_model.py:252-271 | the loop over the voters: after it every voter has cast, in order, the ballot its draws determine from its starting balance, and each project holds its starting votes plus all the ballots' votes on it, with its score and token amount unchanged |
| Rounds.VoteAll | voting_model.py:252-271 | every voter casts, in order, the ballot its draws determine from its starting balance; each project gains the ballots' votes on it, voter by voter, and keeps its score and token amount |
| Rounds.AnyPaid | voting_model.py:293-299 | true exactly when some allocation is a payout above 0, the condition for np.max of the payouts not to raise |
| Rounds.Payouts | voting_model.py:276 | the payouts are exactly the allocations that are numbers above 0, and there is one exactly when AnyPaid holds |
| Rounds.ResetHoldsNoVotes | voting_model.py:21-26 | reset projects have empty vote lists |
| Rounds.Simulation.constructor | voting_model.py:196-197 | a new simulation has no round |
| Rounds.Simulation.InitializeRound | voting_model.py:199-200 | initialize_round installs a fresh empty round with the given funding |
| Rounds.Simulation.ResetRound | voting_model.py:202-209 | with non-zero counts every project and voter is back in its initial state; a zero count leaves that side untouched |
| Rounds.ResetProjects | voting_model.py:205-206 | after reset_project on each project of the list, every one of them is back in its initial state, its vote count matching its votes |
| Rounds.ResetVoters | voting_model.py:208-209 | after reset_voter on each voter of the list, every one of them is back in its initial state, its balance matching its votes |
| Rounds.Simulation.SimulateVoting | voting_model.py:247-271 | every voter casts, in voter order, a full ballot from its draws and its balance; each project gains those ballots' votes on it; no project's score or token amount changes |
| Rounds.Simulation.ScoreRound | voting_model.py:291 | calculate_allocations on the round returns the allocations of the vote lists the projects hold and sets each token amount on success, leaving every token amount unchanged on an error; once scoring succeeds every project holds its own score, and otherwise each score is as it was or the project's own; no vote of any voter or project changes |
| Rounds.Simulation.AllocateVotes | voting_model.py:274-276 | allocate_votes returns the allocations of the vote lists the projects hold; on success each project's token amount is its allocation and the payouts are the allocations above 0, while on an error no token amount changes; once scoring succeeds every project holds its own score, and otherwise each score is as it was or the project's own; no vote of any voter or project changes |
| Rounds.Simulation.VoteAndScore | voting_model.py:290-293 | every voter casts, in order, the ballot its draws make from its balance, and each project gains those ballots' votes on it; the allocations are those of the vote lists the projects held plus the votes just cast; on success each project's token amount is its allocation, and on an error no token amount changes; once scoring succeeds every project holds its own score from those lists, and otherwise each score is as it was or the project's own |
| Rounds.Simulation.Run | voting_model.py:290-302 | one pass of the loop: the voters cast the ballots their draws make from the balances they start the run with; the allocations are those of the run's votes on top of the initial vote lists (first run) or empty ones (later runs); with a payout the round is then reset, without one it is left as the ballots made it |
| Rounds.Simulation.Step | voting_model.py:290-302 | a run stops the loop exactly when its allocations fail or have no payout: with calculate_allocations' error in the first case, with np.max's ValueError in the second; any other run adds its allocations to the results and leaves the round reset for the next run |
| Rounds.Simulation.Simulate | voting_model.py:288-302 | the loop over the round's projects and voters, with the same promise as simulate_voting_and_scoring |
| Rounds.Simulation.SimulateVotingAndScoring | voting_model.py:288-323 | n <= 0 raises as results[0] does; on success there is one result per run, each the allocations of that run's votes on top of the reset (or, for the first run, initial) vote lists, each with a payout, and the round ends reset; every run's ballots follow its draws from the balances the voters start it with; on a failure after some run, every earlier run had a payout, and the last run failed with calculate_allocations' error or, having no payout, with np.max's ValueError, leaving the round as its ballots made it |
| Registry.DiscoveredNames | model/VotingModel.py:32-39 | exactly the names of callable, non-dunder attributes are discovered |
| Registry.DiscoveredRule | model/VotingModel.py:32-39 | a discovered name is bound to the last callable attribute of that name |
| Registry.DiscoverVotingRules | model/VotingModel.py:32-39 | the loop builds the discovered dictionary, whose keys are exactly the callable, non-dunder attribute names |
| Registry.NatToString | model/VotingModel.py:73 | str(n) is a non-empty string of decimal digits |
| Registry.DecimalRoundTrip | model/VotingModel.py:73 | reading str(n) back as a decimal gives n |
| Registry.NatToStringInjective | model/VotingModel.py:73 | different numbers have different strings |
| Registry.ProjectLabels | model/VotingModel.py:73 | the label column has num_projects entries, entry i being "Project " + str(i + 1) |
| Registry.ProjectLabelsDistinct | model/VotingModel.py:73 | no two projects get the same label |
| Registry.Zeros | model/VotingModel.py:27 | np.zeros((rows, cols)) has rows rows of cols zeros |
| Registry.VotingModel.constructor | model/VotingModel.py:10-30 | a new model keeps its sizes and budget, starts with an all-zero matrix, and holds the discovered rules |
| Registry.VotingModel.Step | model/VotingModel.py:41-43 | step replaces the matrix with the one the voter agent cast and returns it |
| Registry.VotingModel.RunSimulation | model/VotingModel.py:54-57 | run_simulation steps with the agent's matrix, then returns the allocation table of that matrix |
| Registry.VotingModel.AllocateFunds | model/VotingModel.py:59-62 | raises the unknown-method error exactly for an unregistered name; otherwise applies that rule to the matrix, total OP tokens and voter count |
| Registry.VotingModel.AddVotingRule | model/VotingModel.py:64-65 | the name now maps to the new rule, replacing any previous one, and every other name allocates as before |
| Registry.VotingModel.RemoveVotingRule | model/VotingModel.py:67-69 | the name is no longer registered; removing an absent name changes nothing; every other name allocates as before |
| Registry.VotingModel.CompileFundAllocations | model/VotingModel.py:71-76 | the columns are the rule names plus "Project"; each rule's column is its allocate_funds result; "Project" holds the labels, replacing a rule of that name; a rule column whose length is not num_projects makes it fail |

## Left out

- Randomness: every `np.random` draw is a caller-supplied fraction in [0, 1) or a
  subjectivity sequence. The model says nothing about distributions.
- `randomize_voters` and `randomize_projects` only draw random attributes for
  new objects; their constructors are modelled.
- `Rounds.Round.CalculateAllocations` states allocations before `np.round(..., 2)`.
  Floating-point rounding and overflow are not modelled: amounts are exact reals.
  So a positive allocation below 0.005 counts as a payout in the model, while the
  source rounds it to `0.0`; that can change whether `np.max` of the payouts fails.
- `Scoring.Normalize` treats a zero total as raising in every case. In the source
  a zero total raises when it is a Python int or float (every score the literal
  `0`, or a zero `sum(votes)`); only a numpy-float zero total (from `np.median`,
  `np.mean` or the 'quadratic' sum) gives NaN allocations with a warning.
- `np.sqrt` is any function that is a non-negative square root on non-negative
  reals.
- `median_with_moving_phantoms` and `quadratic_median_with_moving_phantoms` are
  parameters. Their code is not part of this model.
- The 'outliers' quartiles follow numpy's default linear interpolation. The other
  quantile methods are not modelled.
- `Numerics.Rank` breaks ties between equal perceived ratings by index.
  `np.argsort`'s default quicksort does not promise an order among ties.
  `sorted` and `max` do keep list order, so top-k and partial commitment are exact.
- `Entities.Voter.PartialCommitmentVoting` requires distinct projects. The source
  skips every list entry equal to the top project, so a repeated top project is
  skipped more than once.
- `Entities.Voter.Vote` requires distinct projects for the same reason, when the
  strategy is 'partial_commitment'.
- `Rounds.Simulation.SimulateVoting` requires the round's voters to be distinct
  objects. The source does not check this; a repeated voter would cast two ballots.
- `Rounds.Simulation.VoteAndScore`, `Rounds.Simulation.Run` and
  `Rounds.Simulation.SimulateVotingAndScoring` have the same requirement.
- `Rounds.Simulation.SimulateVoting`, `ScoreRound`, `AllocateVotes`, `VoteAndScore`,
  `Run`, `Pass`, `ResetCounted`, `Step`, `SimulateVotingAndScoring`, `Simulate` and
  `ResetRound` require an initialised round
  (`round != null`). Called before `initialize_round`, the source fails with an
  AttributeError on `None`; that error path is not modelled.
- `Rounds.Simulation.AllocateVotes` returns the allocations and the payouts instead
  of the summary dictionary. The payouts' mean, median and `np.max` are left out,
  and so is the ValueError `np.max` raises when there is no payout.
- `Rounds.Simulation.SimulateVotingAndScoring` returns each run's allocations
  instead of the summary dictionary. Left out are:
  - the averages and medians of the payouts;
  - the per-project data averaged over runs (`show_results`, `get_project_data`).

  The failures those computations can raise are kept: `np.max` of no payouts, and
  `results[0]` after no runs.
- `test()` is a driver built from the modelled operations plus summary
  statistics.
- `Voter.get_votes` and `Project.show_results` are reporting only.
- The `mean` field of a project is only ever reset, never computed.
- The round uses the as-written 'outliers' and normalisation, which are recorded
  under "## Findings". The corrected definitions are modelled and proved beside
  them and are not wired into the round.
- The registry's mesa parts are left out: `Model`, the `RandomActivation` schedule,
  the `ProjectAgent` objects and `voter_type`. The voter agent
  (`agents/VoterAgent.py`) is not part of this model: the matrix its `vote` returns
  is a parameter of `Registry.VotingModel.Step` and `Registry.VotingModel.RunSimulation`.
- Rule bodies (`VotingRules`) are opaque functions.
- Python's `dir()` ordering is not assumed: discovery takes the attributes in any
  order, and a later attribute of the same name wins.
- The allocation table is a map from column name to column. pandas' column order
  and row index are not modelled.
- Negative numbers of voters or projects are excluded by `nat`; `np.zeros` would
  raise on them.
- The experiment drivers under `experiments/` are not part of this model.

## Findings

| source | as written | input that shows it | evidently intended | confidence | as-written member | corrected member |
|---|---|---|---|---|---|---|
| voting_model.py:187 | normalising divides each score by `total_score` without checking it | a round in which no project reaches the quorum, so every score is `0`: ZeroDivisionError | no project scores, so every allocation is 0 | not executed | Scoring.NoQuorumRaises | Scoring.NormalizeGuarded |
| voting_model.py:166-169 | 'outliers' averages the votes between the 25th and 75th percentiles | votes [a, b] with a != b: both quartiles fall strictly between a and b, the filtered list is empty, and `np.mean([])` is NaN | a number between the smallest and largest vote, here the median | not executed | Scoring.OutliersOfTwoDistinctVotes | Scoring.OutliersCorrected |
