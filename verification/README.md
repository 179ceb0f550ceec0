# ModelSentry: a verified model

ModelSentry watches language-model deployments: it runs probes on a schedule, compares the embeddings of their answers
with a baseline, and alerts when they drift. This project models the parts of it whose promises span several functions,
and proves those promises with Dafny 4.11. `dafny verify dfyconfig.toml` checks everything.

## What is modelled

**The calibrated drift test** (`Distances`, `Gram`, `TwoSample`, `GramTotals`, `Shuffle`, `SplitMix`, `Words`,
`PermutationTest`, `Conformal`, `Moments`, `Gate`, `Assessment`, `Assess`). The in-place algorithms are methods over
arrays and a generator object, each proved equal to a function of its inputs. Their claims of exactness are finite
counting theorems. `MonteCarlo` proves one general theorem, that a rank test whose null points are reached by one-to-one
moves is calibrated, and it is applied twice: to the permutation test (the moves are shuffles) and to the stratified
gate (the moves are joint draws). `GateExactness` proves single-sample runs exact at the level of scores and test
points, `RunExactness` carries that to whole runs, and `GateLimits` says what the gate can resolve. For one prompt
`OnePrompt`, `SingleSample`, `SeveralWitness` and `SeveralCount` count experiments of one kind for every number of run
samples: a labelling of the points, the choices of all shuffles and the gate's picks; `ManyPrompts` counts those of
several prompts. `Floors` finds the least p-value that runs of a shape can report, and `Clusters`, `Excursions` and
`Attained` the data that report it. `FixedSeed`, `FourPoints` and `DefaultSeed` look at single seeds. `Resampling` and
`Labellings` hold the counting that this needs; `Counting`, `Grids`, `Sums` and `Arithmetic` the mathematics.

**The sequential alerting protocol** (`Keys`, `SpendStore`, `Ledger`, `AlertEngine`, `AlertStore`, `AlertJob`,
`AlertProtocol`, `AlertResolution`, `FalseAlarms`). The stores are classes over string-keyed tables. `Ledger` relates
the pruned table to the full history of debits. `AlertProtocol` is a state machine in which looks at different rules,
rule edits, deletions and acknowledgements interleave freely, and its safety theorems range over all reachable states.
`AlertJob` connects the two: what the daemon's job does stage by stage is a run of that state machine. `AlertResolution`
and `FalseAlarms` join the protocol to the drift test: which alerts its p-values can raise, and how many false ones to
expect.

**The run store and the scheduler** (`RunStore`, `Schedule`, `Scheduler`, `Daemon`, `Punctual`, `Edits`, `Overtaken`,
`HotLoop`). Three tables behind a reversed-timestamp index; a reconcile over tracked loops; and a state machine of
loops, permits, reconciles, store edits, shutdown and aborts that take effect late.

## Conventions

- Numbers that the source keeps as `f64` or `f32` are reals. The square root and the exponential are uninterpreted.
- Instants are unbounded counts of nanoseconds; where a key narrows them to 64 bits the clamping is written out.
- A table is a map from strings or ids, read in the lexicographic order of its keys. A transaction is one step.
- Ids print with 36 characters. Clock readings, fresh event ids, the answer of the cron library, and whether a store
  accepts a read, write or drop of the schedule are parameters.
- The exactness theorems count over all draws as equally likely; `SplitMix.DrawsAreEven` bounds how far the bounded draw
  can be from even for equally likely words.

## Assumptions of the protocol theorems

These are preconditions of steps in `AlertProtocol` and `Daemon`, because the source relies on them: the looks at one
rule follow each other and its clock readings never go back; two debits of one rule have different nanoseconds; a window
is not negative; no task is cancelled between firing an event and recording its debit; run ids are fresh; the cron
library answers with firings strictly later than it was asked. `Ledger.LedgerAgainstHistory` says exactly what is lost
when two debits share a stamp.

## Where the source's own words do not hold

- The comment on the stratified test (assessment.rs:314-324) and `docs/DRIFT_DETECTION_METHODOLOGY.md` call the gate
  valid on the path with two or more run samples. The permutation test is calibrated given its B+1 statistics, whichever
  of them is the observed one (`MonteCarlo.RankCalibrated`). The gate's pool leaves out the observed statistic and is
  resampled, and `SeveralCount.SeveralSamplesExceed` gives five points for which it passes too many experiments, at
  least 1344 of every 4000 at the level 1/3. For one prompt `OnePrompt.SeveralSamplesBound` says how far off it can be
  for any data: the share that passes is at most (1 + alpha B) / (B + 1). For several prompts there is no such limit: at
  the level 1/2 with one draw the share comes as near to 1 as one likes when prompts are added
  (`ManyPrompts.ManyPromptsPass`), so the budget of false alarms does not hold for them either
  (`FalseAlarms.ManyPromptsAlarm`). With one run sample a prompt the share is at most alpha (`GateExactness.GateExact`,
  `SingleSample.SingleSampleExact`). Some data with several samples also stay within alpha, so the number of samples is
  not an exact condition, and none is claimed.
- The p-values are called exact, and all counts here average over the shuffles or draws as well as over labellings. The
  daemon leaves the seed at 0 for every run (main.rs:111-115), so all runs share one sequence. For a fixed sequence the
  labellings alone need not be calibrated: `FixedSeed.FixedSeedExceeds`.
- The gate is called never silently unable to alert, its resolution being 1/(B+1) (assessment.rs:20-29), and free of a
  floor with two or more run samples (assessment.rs:187-191). A joint draw that picks the test point itself, or a
  shuffle that makes the observed split again, reaches the observed statistic whatever the data, so a run reports at
  least (1+Z)/(B+1), where Z counts such draws of the seed (`Floors.RunFloor`), and some data report exactly that
  (`Attained.LeastPAttained`). Hence a look can raise an alert if and only if its level exceeds (1+Z)/(B+1)
  (`AlertResolution.CanFireIff`), and a run can get a severity level if and only if the configured target does
  (`AlertResolution.CanShowIff`). `DefaultSeed.NeverAlerts` is a probe that the defaults never alert on; for one prompt
  with one sample the source itself speaks of a limit near 1/(k+1). Nor are the permutations raised for the rate of a
  rule: `AlertResolution.RuleBelowConfiguredTarget` and, for a nearly spent budget, `AlertResolution.DebitedButMuted`.
  Where no draw reaches the observed value, the level is muted exactly for configured targets of 2^-64 or less, at which
  the permutation count saturates (`GateLimits.NeverMuted`).
- A failed write of the next run is said to lose only restart precision (scheduler.rs:317-318). The old, past instant is
  then read back and the loop runs again at once: `Schedule.WaitsIffWritten` gives the exact condition, and
  `HotLoop.FailedWritesSpin` the runs that follow, any number of them at one instant.
- An edit is said to take effect now (scheduler.rs:186-187). The store may fail to drop the old pending run, and a loop
  that has been told to stop can still store its own next run after the reconcile dropped it (`Edits.OldLoopOvertakes`);
  `Overtaken.EditOvertaken` is a whole run in which it does. `Edits.EditTakesEffectIff` gives the exact condition over
  all runs: the new loop follows the new schedule unless the old pending run was left and is untouched, or another
  loop's write still stands, when it plans.
- `RunStore::list_for_probe` with a limit of 0 returns one run.

## Model

| member | source | states |
|---|---|---|
| Distances.MedianHeuristicBandwidth | crates/core/src/drift/twosample.rs:107-129 | the two counting loops with the sort return the floored median of all pair distances, averaging the two middle ones when their number is even |
| Distances.MedianMeaning | crates/core/src/drift/twosample.rs:107-129 | in any ascending order of the distances the bandwidth is the middle one, or the mean of the two in the middle, and a millionth where that is less |
| Distances.MedianBandwidthReorder | crates/core/src/drift/twosample.rs:107-129 | the pooled bandwidth is the same for every order of the points |
| Distances.SqDistAppend | crates/core/src/drift/twosample.rs:89-100 | each coordinate adds the square of its difference |
| Gram.GramMatrix | crates/core/src/drift/twosample.rs:135-165 | filling the upper triangle and mirroring it leaves in every flat slot the kernel of the two points that the slot's row and column name: the negative distance, or exp(-d^2 / (2 s s)) with the given width s, or the pooled median where that is no positive number |
| Gram.SettledPair | crates/core/src/drift/twosample.rs:135-153 | the kernel that the settled width gives is that one, for every pair of points |
| Gram.FlatFacts | crates/core/src/drift/twosample.rs:155-160 | the flat index of row i and column j stays inside the n by n buffer and leads back to i and j |
| Gram.PairValueSymmetric | crates/core/src/drift/twosample.rs:149-151 | both kernels are symmetric, which the mirroring relies on |
| TwoSample.WithinSum | crates/core/src/drift/twosample.rs:186-203 | the within-group loop sums every ordered pair of the group, without the diagonal in the unbiased form |
| TwoSample.AcrossSum | crates/core/src/drift/twosample.rs:204-209 | the across-group loop sums every pair of one member of each group |
| TwoSample.StatisticFromGram | crates/core/src/drift/twosample.rs:174-226 | the accumulated statistic is the two within-group means less twice the across-group mean, read off the matrix through the permutation |
| TwoSample.EntryOfGram | crates/core/src/drift/twosample.rs:177-183 | for a permutation of the points no lookup falls back to its default, and the entry read is the kernel of the two points |
| TwoSample.SharedGramRefines | crates/core/src/drift/twosample.rs:174-226 | at every relabelling, for both kernels, indexing the one shared matrix gives the statistic of the two regrouped samples rebuilt from scratch, bandwidth included |
| TwoSample.DiscrepancyIs | crates/core/src/drift/twosample.rs:262-270 | under a Gaussian of width s the statistic is the mean of exp(-d^2 / (2 s s)) over the ordered pairs of different points of each sample, less twice its mean across |
| TwoSample.EnergyIs | crates/core/src/drift/twosample.rs:276-283 | the energy distance is twice the mean distance across, less the mean distances within |
| GramTotals.GramConserved | crates/core/src/drift/twosample.rs:186-209 | at every relabelling and split the two within-sums and twice the across-sum, as read off the matrix, add up to the sum of all its slots, less its diagonal in the unbiased form |
| TwoSample.StatisticReorder | crates/core/src/drift/twosample.rs:174-226 | the statistic depends only on which points are in which group |
| GramTotals.SamplesSwap | crates/core/src/drift/twosample.rs:174-226 | for both kernels the statistic of two samples, bandwidth included, is the same whichever is called the first |
| GramTotals.EnergyOfSame | crates/core/src/drift/twosample.rs:276-283 | the energy distance of two samples with the same points, in any order, is 0 |
| Shuffle.ShuffleIsBijection | crates/core/src/drift/twosample.rs:387-393 | choices j in [0, i] for i from n-1 down to 1 are mapped one-to-one onto all n! orders, so no relabelling is favoured |
| Shuffle.ShuffledInjective | crates/core/src/drift/twosample.rs:387-393 | different choice vectors give different orders of any list without repeats |
| Shuffle.ShuffledSurjective | crates/core/src/drift/twosample.rs:387-393 | every reordering of any list is reached by some choice vector |
| Shuffle.ShuffledSelect | crates/core/src/drift/twosample.rs:376-380 | shuffling a relabelling is relabelling by a shuffle: the choices act on positions, never on values |
| SplitMix.SplitMix64.NextBounded | crates/core/src/drift/twosample.rs:418-424 | a draw is below its bound and uses up exactly one step of the generator; a bound of 0 gives 0 and uses none |
| SplitMix.DrawsAreEven | crates/core/src/drift/twosample.rs:418-424 | multiply-shift gives every result floor(W / bound) or floor(W / bound) + 1 of the W words, for any word size and bound |
| PermutationTest.FisherYates | crates/core/src/drift/twosample.rs:387-393 | the in-place loop of swaps leaves the slice in the order that the recursive shuffle gives for the generator's choices, and the generator where that many draws put it |
| PermutationTest.PooledNulls | crates/core/src/drift/twosample.rs:366-382 | the statistics come from successive shuffles of one index array against one matrix, and equal those of the relabelled samples rebuilt from scratch |
| PermutationTest.PermutationNulls | crates/core/src/drift/twosample.rs:358-383 | either the first validation error, or the statistic of the two samples and the list of its relabelled values |
| PermutationTest.TwoSampleTest | crates/core/src/drift/twosample.rs:297-319 | either the validation error, or p = (1 + number of nulls within tolerance of observed or above) / (1 + B) with the standardized excursion |
| PermutationTest.TwoSamplePIs | crates/core/src/drift/twosample.rs:303-309 | its p-value is the share of B+1 statistics, the observed one included, that reach the observed one or miss it by no more than a millionth |
| PermutationTest.ValidateMeaning | crates/core/src/drift/twosample.rs:230-256 | two samples are valid exactly if both have two points and all points share one positive dimension; otherwise the complaint is about too few points, then no coordinates, then the first point of another dimension |
| Excursions.MomentsAre | crates/core/src/drift/assessment.rs:287-312 | mean and variance are the sums of the values and of their squared distances to the mean, over their number |
| Excursions.DeviationMeaning | crates/core/src/drift/assessment.rs:287-312 | the deviation is the root of the variance, and a millionth where that is larger |
| Excursions.ExcursionMeaning | crates/core/src/drift/twosample.rs:326-346 | the effect size times the deviation of the nulls is the distance of the observed value above their mean, and 0 below it or without nulls |
| PermutationTest.TestIsRank | crates/core/src/drift/twosample.rs:297-319 | what the test computes on any relabelled data set is the rank of that relabelling among those its own shuffles lead to, and the null statistics a shuffle can give are the same whichever labelling was observed: those of all labellings |
| PermutationTest.PermutationTestExact | crates/core/src/drift/twosample.rs:297-319 | over all labellings of the pooled points and all shuffle choices, at most a share alpha of the experiments report p <= alpha, for both kernels and any number of permutations |
| FixedSeed.FixedSeedExceeds | crates/core/src/drift/twosample.rs:297-319 | with the shuffles of one seed fixed the share can exceed alpha: for four points in two pairs and the two shuffles of seed 6, half of the labellings get a p-value of one third |
| MonteCarlo.RankCalibrated | crates/core/src/drift/twosample.rs:303-309 | letting each of B+1 statistics in turn be the observed one, at most c of them have rank c or less, for any tolerance of 0 or more |
| MonteCarlo.MonteCarloExact | crates/core/src/drift/twosample.rs:303-309 | a rank test against points reached by uniform one-to-one moves is calibrated: the counting theorem behind both exactness results |
| MonteCarlo.ExchangeBound | crates/core/src/drift/twosample.rs:303-309 | of all sequences over a finite set at most a share alpha put their first entry at a rank of c <= alpha n or less |
| Conformal.AugmentedScores | crates/core/src/drift/assessment.rs:360-376 | the loops give each point of the augmented set its mean distance to all the others |
| Conformal.ScoreMeaning | crates/core/src/drift/assessment.rs:360-376 | times the number of the other points, a score is the sum of the root distances to them |
| Conformal.ScoresEquivariant | crates/core/src/drift/assessment.rs:360-376 | whichever point is held out, the scores are the same numbers with that point's moved to the front |
| Conformal.StandardizedEquivariant | crates/core/src/drift/assessment.rs:393-414 | so are the standardized scores |
| Conformal.HeldOutP | crates/core/src/drift/assessment.rs:381-388 | the conformal p-value of a held-out point is its score's rank among all k+1 |
| Conformal.ConformalExact | crates/core/src/drift/assessment.rs:378-388 | of the k+1 choices of the held-out point at most a share alpha get p <= alpha |
| Conformal.ConformalFloor | crates/core/src/drift/assessment.rs:378-388 | no conformal p-value is below 1/(k+1) |
| Gate.OneDraw | crates/core/src/drift/assessment.rs:329-339 | one joint draw adds up one positive excursion from every non-empty pool and uses one generator step for each |
| Gate.StratifiedPermutationP | crates/core/src/drift/assessment.rs:325-347 | the counting loop returns the share of joint draws, the observed one included, whose total is within tolerance of the observed total or above |
| Gate.GatePValue | crates/core/src/drift/assessment.rs:325-347 | its p-value is the share of B+1 aggregates, the observed one included, that reach the observed one or miss it by no more than a millionth |
| Assessment.ScorePrompt | crates/core/src/drift/assessment.rs:251-283 | two or more run samples give the standardized energy score with its permutation null, one gives the standardized conformal score |
| Assessment.PromptScores | crates/core/src/drift/assessment.rs:205-217 | every prompt of an assessment is scored against rounds that start from the configured seed plus the prompt's own number; with several samples its attribution is the p-value of that test, with one sample the share of the augmented set as far out as the test point |
| Assessment.PromptSeedsDiffer | crates/core/src/drift/assessment.rs:210-211 | prompts with different numbers below 2^64 start from different states of the generator, so no two are shuffled in lockstep |
| Assessment.EffectIsAverage | crates/core/src/drift/assessment.rs:222-225 | the effect size lies between the least and the greatest positive excursion of the prompts, so it does not grow with their number |
| Assessment.AssessPerPrompt | crates/core/src/drift/assessment.rs:195-237 | either the first prompt's error, or the gate's p-value on the accumulated pools and excursions, its severity, and each prompt's attribution p-value in order, which with several samples is that of the two-sample test started from the configured seed plus the prompt's number |
| Assess.AssessPooled | crates/core/src/drift/assessment.rs:417-454 | the fallback reports the pooled two-sample test, its p-value and its standardized excursion, with the permutation count raised to resolve the target |
| Assess.PoolConcat | crates/core/src/drift/assessment.rs:421-428 | pooling puts the prompts' clouds, and their samples, one after the other |
| Assess.AssessRun | crates/core/src/drift/assessment.rs:140-177 | mismatched or unusable input is an error; every cloud of two or more selects the per-prompt gate, otherwise the pooled test decides; p-value, level, effect size and per-prompt breakdown are those of the chosen test |
| Assess.UsableMeaning | crates/core/src/drift/assessment.rs:140-165 | the usable prompts are exactly those with a cloud and a sample, in their order, each with its own number and points |
| GateExactness.SinglesAreScored | crates/core/src/drift/assessment.rs:273-282 | with one sample a prompt the assessment scores exactly the standardized augmented sets |
| GateExactness.HeldOutScore | crates/core/src/drift/assessment.rs:273-282 | holding out another point of an augmented set only moves that point's standardized score to the front of the pool |
| GateExactness.GateIsRank | crates/core/src/drift/assessment.rs:325-347 | the gate's p-value is the rank of the test positions among the joint positions drawn |
| GateExactness.GateExact | crates/core/src/drift/assessment.rs:179-236 | single-sample mode: over all choices of the test points and all joint draws, at most a share alpha of the experiments pass the gate at alpha, for any number of prompts and draws |
| GateLimits.EnumeratedGateExact | crates/core/src/drift/assessment.rs:325-347 | the fully enumerated gate: over all choices of test points at most a share alpha get a p-value of alpha or less |
| GateLimits.EnumeratedFloor | crates/core/src/drift/assessment.rs:192-194 | no enumerated p-value is below one over the number of joint draws, which for one prompt is k+1 |
| GateLimits.SinglePromptLimit | crates/core/src/drift/assessment.rs:192-194 | with one stratum the draws that reach the test point number exactly its conformal rank when its excursion is positive, and all k+1 otherwise |
| GateLimits.RankPRange | crates/core/src/drift/assessment.rs:319-322 | a p-value lies between 1/(B+1) and 1, and is 1/(B+1) when nothing reaches the observed value |
| GateLimits.RankPAntitone | crates/core/src/drift/assessment.rs:325-347 | on the same draws a larger observed statistic never has a larger p-value |
| GateLimits.ResolvesTarget | crates/core/src/drift/assessment.rs:349-354 | the raised permutation count puts 1/(B+1) strictly below the target if and only if the target exceeds 2^-64, since the count saturates there |
| GateLimits.PermutationsLeast | crates/core/src/drift/assessment.rs:349-354 | the permutation count is the least one that is no less than the configured one and makes 1/B the target or less, or the largest `usize` |
| GateLimits.NeverMuted | crates/core/src/drift/assessment.rs:199-203 | when no draw reaches the observed value the severity level is not None, if and only if the configured target exceeds 2^-64; the same in both modes |
| GateLimits.SeverityIs | crates/core/src/drift/assessment.rs:464-477 | the five levels split the p-values at the target and at a tenth, a hundredth and a thousandth of it |
| GateLimits.MediumNeedsDraws | crates/core/src/drift/assessment.rs:464-477 | a level of Medium or worse implies B+1 > 10/target |
| Floors.SameSplitSame | crates/core/src/drift/twosample.rs:174-226 | a relabelling that makes the same two groups, or swaps two of equal size, has the observed statistic, for either kernel and whatever the points |
| Floors.RunFloor | crates/core/src/drift/assessment.rs:140-237 | in both modes and whatever the data, a run reports no less than (1+Z)/(B+1), Z counting the seed's draws that repeat the observed arrangement in every prompt, or its shuffles that repeat the pooled split |
| Attained.LeastPAttained | crates/core/src/drift/assessment.rs:185-194 | the floor is sharp: some data of every shape that can be judged report exactly that p-value, up to half a million points and a million permutations |
| SingleSample.SingleSampleExact | crates/core/src/drift/assessment.rs:273-282 | one prompt with one run sample, counted as all labellings of the points, all shuffles and all gate picks: at most a share alpha of the experiments pass at alpha |
| OnePrompt.SeveralSamplesBound | crates/core/src/drift/assessment.rs:251-283 | the same count with two or more run samples: for any points, group sizes, number of draws and level, at most a share (1 + alpha B) / (B + 1) pass at alpha, which is less than alpha + 1/(B+1) |
| SeveralCount.SeveralSamplesExceed | crates/core/src/drift/assessment.rs:314-324 | that share can exceed alpha: for the points 0, 18, 36, 108 and 432 on a line, three in the cloud and two run samples, with two draws, more than a third of the experiments pass at 1/3 |
| ManyPrompts.ManyPromptsPass | crates/core/src/drift/assessment.rs:178-194 | several prompts with several samples each: for four points in two pairs and one draw, of the experiments of k prompts at most a share (2/3)^k fail to pass the level one half, for every k |
| ManyPrompts.FourPromptsExceed | crates/core/src/drift/assessment.rs:178-194 | with four such prompts the share that passes exceeds what bounds it for one prompt |
| Resampling.WeakBound | crates/core/src/drift/assessment.rs:325-347 | of all sequences of a start and B others with B picks from the others, at most a share (B+1 + cB) / (B+1)^2 have fewer than c picks that reach the start, whatever the scores: the counting theorem behind the bound |
| RunExactness.RunIsGate | crates/core/src/drift/assessment.rs:140-237 | a whole run with one sample a prompt reports the gate's p-value at its test points and at the positions that its seed draws |
| RunExactness.RunFalseAlarms | crates/core/src/drift/assessment.rs:140-237 | the p-value of such a run is that of one of the counted experiments, of which at most a share alpha are at alpha or less |
| RunExactness.RunIsPromptP | crates/core/src/drift/assessment.rs:140-237 | a whole run of one prompt with any number of samples reports what the labelling counts speak of, at the shuffles and picks of its seeds |
| Keys.DigitsOrder | crates/store/src/spend_store.rs:22-25 | numbers written with a fixed count of zero-padded digits sort as the numbers do |
| Keys.StampedOrder | crates/store/src/spend_store.rs:43-49 | keys of an id, a bar and a padded number sort by id, then by number, then by what follows |
| Keys.IncreasingUnique | crates/store/src/spend_store.rs:72-75 | a set of keys has one ascending listing, so a scan is determined by which keys it selects |
| SpendStore.KeyOrder | crates/store/src/spend_store.rs:43-49 | ledger keys sort by rule and then in time, and different rules or stamps never share a key |
| SpendStore.StampKeepsOrder | crates/store/src/spend_store.rs:50-60 | filing keeps the order of instants; an instant that fits the key is filed under itself and one before the epoch under 0 |
| SpendStore.BetweenKeys | crates/store/src/spend_store.rs:67-72 | a key between two keys of one rule is a key of that rule with a stamp between theirs |
| SpendStore.AlphaSpendStore.SpentSince | crates/store/src/spend_store.rs:66-77 | the range scan's running total is the sum of everything the table holds for the rule from that stamp on |
| SpendStore.MalformedSpendsNothing | crates/store/src/spend_store.rs:121-125 | entries that do not decode add nothing |
| SpendStore.AlphaSpendStore.RecordSpend | crates/store/src/spend_store.rs:86-118 | afterwards the rule's entries before the cut are gone, its entry at the stamp is the new level, and every other entry is as before |
| SpendStore.SpendEntry | crates/store/src/spend_store.rs:86-118 | the whole effect of a debit, entry by entry |
| Ledger.LedgerAgainstHistory | crates/store/src/spend_store.rs:86-118 | the pruned ledger never reports more than the unpruned history, and the same if and only if no debit with a positive level shares its rule and stamp with a later one |
| Ledger.LedgerRefinesHistory | crates/store/src/spend_store.rs:66-118 | with distinct instants, a query from no earlier than any cut returns the sum of the full history filtered by rule and time |
| Ledger.HeldLevel | crates/store/src/spend_store.rs:97-114 | what the ledger holds for an unpruned stamp is the last debit filed under it, or nothing |
| AlertEngine.Engine.WithSequential | crates/core/src/alert.rs:126-129 | a control is kept as it is if its budget is positive and switched off otherwise |
| AlertEngine.EvaluateAndFire | crates/core/src/alert.rs:162-212 | the loop over the rules yields, in order, the event and the debit of each rule's own look |
| AlertEngine.OutcomeMeaning | crates/core/src/alert.rs:139-228 | with or without sequential control, an event is in the outcome exactly for an active rule with p below its level and no cooldown running; a debit exactly, under sequential control, for each active rule with budget left, bringing it to its rate or to the end of the budget |
| AlertResolution.RunPRange | crates/core/src/drift/assessment.rs:140-237 | in both modes a run's p-value lies between 1/(B+1) and 1, B being the raised permutation count |
| AlertResolution.FiresOnlyAbove | crates/core/src/alert.rs:175-190 | whatever the data, a look raises an alert only if its level exceeds the least p-value of the data's shape, which is 1/(B+1) or more |
| AlertResolution.CanFireIff | crates/core/src/alert.rs:175-190 | some data with given numbers of baseline points and run samples raise an alert on an active rule outside its cooldown, if and only if the assessment can judge that shape and the level of the look exceeds the shape's least p-value (1+Z)/(B+1), Z counting the seed's draws that only repeat the observed arrangement |
| AlertResolution.CanShowIff | crates/core/src/drift/assessment.rs:199-203 | some data of a shape get a severity level if and only if the shape can be judged and the configured target exceeds its least p-value |
| AlertResolution.RuleBelowConfiguredTarget | crates/daemon/src/main.rs:111-113 | the permutations are raised for the configured target alone: with 0.01 and 200 permutations, a rule with a rate of 0.001 is never alerted on |
| AlertResolution.DebitedButMuted | crates/core/src/alert.rs:175-190 | nor is a rule with no more than 1/(B+1) of its budget left, although each such look debits it |
| DefaultSeed.NeverAlerts | crates/core/src/drift/assessment.rs:72-81 | with the defaults of 1%, 200 permutations and seed 0, one prompt with 20 baseline points and one run sample never gets a p-value below 8/201, a level, or an alert at 1%, although 1/201 is below the target |
| AlertStore.AlertRuleStore.PutEvent | crates/store/src/alert_store.rs:98-119 | the event is stored and the rule's latest fire becomes the later of the old one and this one |
| AlertStore.AlertRuleStore.RemoveRule | crates/store/src/alert_store.rs:73-87 | the rule and its latest fire are dropped, its events are kept, and the answer says whether it existed |
| AlertStore.AlertRuleStore.AcknowledgeEvent | crates/store/src/alert_store.rs:164-187 | a known event gets its flag and nothing else changes; an unknown one changes nothing |
| AlertStore.AlertRuleStore.LastFiredForRule | crates/store/src/alert_store.rs:149-157 | the point lookup of the index |
| AlertStore.LastFiredIsLatest | crates/store/src/alert_store.rs:98-119 | after any operations in any order the index holds the latest fire stored since the rule was last deleted, and nothing if there is none |
| AlertStore.LookupRefinesScan | crates/store/src/alert_store.rs:139-157 | while a rule is never deleted the point lookup gives what a scan of the whole event table would |
| AlertStore.RulesAreLatest | crates/store/src/alert_store.rs:37-87 | after any operations the table holds each rule as it was last stored, and none that was deleted since |
| AlertStore.EventKept | crates/store/src/alert_store.rs:164-187 | a stored event survives every later operation, even its rule's deletion, and only its flag changes, and only by its own acknowledgement |
| AlertJob.AlertSection | crates/daemon/src/scheduler.rs:353-395 | the imperative sequence (load fires, load spends of the configured window, evaluate, store events, record debits and prune by that window) leaves both stores as the looks at the individual rules determine |
| AlertJob.JobIsRun | crates/daemon/src/scheduler.rs:353-395 | doing each stage for all rules before the next stage leaves the tables as complete looks made one rule after the other: every job is a run of the protocol |
| AlertProtocol.KeepStep | crates/daemon/src/scheduler.rs:353-395 | every step of every look, edit, deletion and acknowledgement keeps the protocol's invariant |
| AlertProtocol.BudgetHolds | crates/daemon/src/scheduler.rs:362-395 | in every reachable state and for every t, a rule's debits from t less the configured window to t sum to at most its budget, and so does what the ledger would report at t |
| AlertProtocol.EveryFirePays | crates/daemon/src/scheduler.rs:375-395 | every stored event belongs to a look at a level above its p-value and at most the rule's rate, which has debited that level or is about to |
| AlertProtocol.SpendIsExact | crates/core/src/alert.rs:175-186 | while all of a rule's n looks fall in one configured window, it has spent exactly n * rate, or the budget where that is less |
| AlertProtocol.FiresAreSpaced | crates/core/src/alert.rs:192-209 | in every reachable state two stored events of a rule not deleted in between are at least a cooldown apart |
| FalseAlarms.FalseAlarmsWithinBudget | crates/common/src/config.rs:113-127 | in every reachable state and for every t, if nothing has drifted, the false-alarm probabilities of a rule's looks from t less the configured window to t, at the levels they debit, sum to at most the budget when every look made an exact test, and to at most 1/(B+1) more for each look at one prompt with several run samples and 1 more for each look at several such prompts |
| FalseAlarms.ManyPromptsAlarm | crates/common/src/config.rs:113-127 | that 1 cannot be lowered: for every k there are k prompts that raise a false alarm at level one half with a probability of 1 - (2/3)^k or more |
| RunStore.KeyOrder | crates/store/src/run_store.rs:48-53 | index keys of one probe sort by later start, then by run id, and determine the probe, the clamped instant and the run |
| RunStore.PrefixBlock | crates/store/src/run_store.rs:134-137 | the keys that start with a prefix are contiguous in any table and the prefix sorts before them |
| RunStore.RunStore.Put | crates/store/src/run_store.rs:62-85 | metadata without embeddings, embeddings and index entry are all written |
| RunStore.RunStore.ListForProbe | crates/store/src/run_store.rs:126-148 | the scan returns the newest runs of the probe, later starts first, as many as there are up to max(limit, 1) |
| RunStore.RunStore.Remove | crates/store/src/run_store.rs:157-194 | exactly the runs that the probe's index block leads to leave all three tables; the answer is the size of the block |
| RunStore.ListingMeaning | crates/store/src/run_store.rs:126-148 | a listing is strictly ordered by start, later first, then by run id, a start outside 0..2^63-1 counting as 0, and holds exactly the probe's runs |
| RunStore.SortedUnique | crates/store/src/run_store.rs:126-148 | only one list has those runs in that order, so the scan is the sort |
| RunStore.InsertKeepsIff | crates/store/src/run_store.rs:62-85 | storing a run keeps the three tables consistent if and only if its id is new or was already filed under the same key |
| RunStore.DeleteMeaning | crates/store/src/run_store.rs:157-194 | deleting a probe's runs removes exactly those from every table and keeps them consistent |
| RunStore.DeleteCount | crates/store/src/run_store.rs:176-193 | the reported count is the number of the probe's runs |
| RunStore.OtherListing | crates/store/src/run_store.rs:157-194 | storing or deleting runs of one probe leaves every other probe's listing alone |
| RunStore.TablesHoldKept | crates/store/src/run_store.rs:62-117 | after any operations with fresh ids the tables are consistent, and metadata put together with its embeddings is the stored run, for exactly the runs not deleted |
| RunStore.ListingIsHistory | crates/store/src/run_store.rs:126-148 | a listing over any history is the probe's stored and undeleted runs, later starts first, without embeddings |
| Schedule.NextRunIsLater | crates/daemon/src/scheduler.rs:466-486 | the next run is strictly later than its argument for every schedule, at least a minute for EveryMinutes even with 0, and never earlier when asked later |
| Schedule.NextRunIs | crates/daemon/src/scheduler.rs:466-486 | the next run of EveryMinutes(m) is exactly max(m, 1) minutes later, a cron firing is taken as it is, and an expression that does not parse or never fires again gives an hour later |
| Schedule.ScheduleStore.ScheduledNextRun | crates/daemon/src/scheduler.rs:285-306 | the stored instant if it can be read, otherwise a fresh one, max(m, 1) minutes on for EveryMinutes(m), that is also persisted |
| Schedule.ScheduleStore.Advance | crates/daemon/src/scheduler.rs:309-323 | the following run, max(m, 1) minutes on for EveryMinutes(m), is persisted, or nothing changes where the write fails |
| Schedule.WaitsIffWritten | crates/daemon/src/scheduler.rs:317-323 | after an overdue run the loop waits again if and only if its next run could be written or the stored one cannot be read |
| Scheduler.Registry.Reconcile | crates/daemon/src/scheduler.rs:146-208 | a failed listing changes nothing; otherwise loops of deleted probes are aborted and dropped, then each listed probe is refreshed in turn |
| Scheduler.Registry.RefreshOne | crates/daemon/src/scheduler.rs:177-207 | an up-to-date loop is left alone; an edited probe's old loop is aborted, its pending run dropped if the store can drop it, and a new loop spawned |
| Scheduler.Registry.Shutdown | crates/daemon/src/scheduler.rs:106-111 | every tracked loop is aborted and none is tracked any more |
| Scheduler.ReconcileMeaning | crates/daemon/src/scheduler.rs:146-208 | afterwards exactly the listed probes have loops, at their listed versions; up-to-date loops keep their handles; a running loop is aborted if and only if no listed probe has its id and version; exactly the edited probes whose pending run the store can drop lose it |
| Scheduler.ReconcileTwice | crates/daemon/src/scheduler.rs:146-208 | reconciling against an unchanged store is a no-op, whichever drops would fail |
| Daemon.KeepStep | crates/daemon/src/scheduler.rs:98-124 | every step of every loop, reconcile, edit, shutdown and late abort keeps the permit count and the tracking of loops |
| Daemon.PermitsAndLoops | crates/daemon/src/scheduler.rs:257-276 | under every interleaving free permits and runs in flight add up to the limit, or to 1 for a limit of 0, and a spawned loop has been aborted exactly when it is not the tracked one of its probe |
| Daemon.OneLoopEach | crates/daemon/src/scheduler.rs:146-208 | right after a reconcile every stored probe has exactly one live loop, at its stored version, and no other loop is live |
| Daemon.LoopsArePaced | crates/daemon/src/scheduler.rs:232-279 | a spawned loop wakes and starts runs no faster than its schedule, at least max(m, 1) minutes apart for EveryMinutes(m), as long as no other loop of its probe writes a next run and its own write after a run does not fail over a stored one; through provider failures, overdue starts, failed writes of a plan and all other activity |
| Punctual.WakesOnTime | crates/daemon/src/scheduler.rs:232-323 | nor is a loop late: once it has persisted its next run, it can wake exactly from that run's time on, whatever else the daemon does meanwhile, as long as nothing touches the entry before it plans |
| Punctual.MinutesOnTime | crates/daemon/src/scheduler.rs:232-323 | for EveryMinutes(m) that is max(m, 1) minutes after the run that it persisted at |
| Edits.StoredByHistory | crates/daemon/src/scheduler.rs:184-323 | after any run of the daemon a probe has a stored next run if and only if some write of one still stands or the initial one was never dropped or overwritten, and it is what that write wrote |
| Edits.EditTakesEffectIff | crates/daemon/src/scheduler.rs:184-190 | over every run from the reconcile to the new loop's first plan: the plan follows the new schedule from that clock if nothing is stored or it cannot be read; something is stored if and only if the store failed to drop the old pending run and nothing touched it since, or another loop's write since the reconcile still stands; and then the new loop waits for that instant |
| Edits.OldLoopOvertakes | crates/daemon/src/scheduler.rs:232-323 | such a write can happen from both phases in which a loop told to stop may still be, after a run and before planning, and it follows the old schedule |
| Overtaken.EditOvertaken | crates/daemon/src/scheduler.rs:184-190 | for every probe and every edit of it there is a run of the daemon from its start, with no failure of the store, after which the loop spawned for the edit waits for the old schedule's next run |
| HotLoop.FailedWritesSpin | crates/daemon/src/scheduler.rs:309-323 | a due loop whose writes fail k times can start k runs at one and the same instant, for every k |

## Left out

- Floating-point rounding and the narrowing from `f64` to `f32`: the theorems are over the reals.
- The statistical meaning of exchangeability: what is proved is the counting.
- The quality of SplitMix64 as a source of randomness, and that the gate and prompt 0 start from the same seed: draws
  are counted as equally likely and independent.
- `drift_score` (a logarithm of the p-value), `cloud_spread` with its low-variance flag, and the `interpret` text.
- `mmd2_unbiased` and `energy_distance` as entry points of their own: the same matrix and statistic without the
  shuffles.
- OnePrompt.SeveralSamplesBound: bounds runs of one prompt; for several prompts see `ManyPrompts.ManyPromptsPass`, whose
  prompts share their points and whose gate makes one draw.
- SeveralCount.SeveralSamplesExceed: assumes that the square root is right, as do the other concrete points.
- AlertResolution.CanFireIff: assumes that the square root is right and that the exponential is 1 at 0 and at most 2/3
  from -1/2 down, and covers shapes of fewer than half a million points and at most a million permutations; beyond that
  the tolerance of the ranks is not small against a single point or shuffle.
- FalseAlarms.FalseAlarmsWithinBudget: a probability is a share of equally likely experiments, and the expectations of
  the looks are added; several prompts with several samples are taken to share their points.
- AlertJob.AlertSection: the job runs its stages without interference here; interference is what `AlertProtocol` covers.
- AlertProtocol.FiresAreSpaced: deletions that fall between two events of a rule end the guarantee, as in the source.
- Daemon.LoopsArePaced: ends where another loop of the probe writes or a write after a run fails, see above.
- Delivery of notifications (webhook, Slack, email), address checks, and the payloads: firing a channel changes no state
  here.
- Errors of the database, of serialization and of transactions, other than failed reads, writes and drops of the
  schedule; malformed table values other than a ledger entry, and malformed run or event records.
- `delete_for_probe` collects in one transaction and removes in another; here both are one step.
- `list_events`, `get_rules_for_probe`, baseline, probe and vault stores: reads and writes of one table.
- The parser of cron expressions, `validate_schedule`, probe execution, baseline capture, the providers, the HTTP API,
  the command line and the dashboard.
- A semaphore that is closed and a task that panics: neither occurs in the source.
- A daemon restart with the tables kept: `Daemon.Initial` starts with any stored schedule, but one process's run is not
  joined to the next's.
