# PPO trainer bookkeeping, in Dafny

A model of the bookkeeping in `ppo_op.py`, the proximal-policy-optimisation
trainer for job-shop scheduling. The neural networks, the environment, randomness
and the clock are abstract inputs. Real quantities are Dafny `real`, so the
arithmetic is exact.

The modules follow the parts of `PPO.train`, `PPO.update` and `PPO.learn`:

- `DiscountedReturn`: the backward pass `v <- r + gamma * v` over an episode's
  rewards, then the reversal (`ComputeReturns`). It is proved equal to the
  recursive definition `Returns`. `Returns` is proved to satisfy the
  recurrence, and equals the closed form `G_i = sum_k gamma^k r_(i+k)`.
- `EpochBuffer`: the rollout loop that records states, actions, rewards and
  action probabilities (`Rollout`), and the end-slice appends of each finished
  episode to the epoch lists `bs`, `ba`, `br`, `bp` (`AddEpisode`). The lemmas
  give the layout of the assembled lists.
- `Training`: the epoch loop of `train` (`Train`, `RunEpoch`, `Observe`):
  - the running minimum makespan;
  - the 30-entry convergence window;
  - the per-episode report rows;
  - the stop rule and the returned tuple.

  The loop is proved against step-by-step specifications (`Observed`,
  `EpochObserved`, `Trained`). Those are proved equal to definitions over the
  whole history of episodes (`After(History(...))`): the window is the last 30
  makespans, the minimum is the running minimum, and the report has one row per
  episode.
- `PriorityReplay`: the priority array of `update`, a class whose `array` is
  written in place:
  - the negative-advantage floor (`FloorNegatives`);
  - the mini-batch write-back (`WriteBack`) and full sweep (`Sweep`), over a
    shuffled order cut into batches that partition `0..n-1`;
  - the pass counter and the replay-size schedule (`Pass`, `Update`);
  - the checks `np.random.choice` makes of the normalised priorities.
- `ClippedSurrogate`: `min(r * A, clamp(r, 1 - eps, 1 + eps) * A)` and the
  actor loss.
- `Sums`, `Wrappers`: real sums and the `Result` type used where Python raises.

Inputs that stand for what is not modelled:

- `episodeOf(epoch, m)` is the m-th episode of an epoch as the environment plays
  it: the recorded steps and the final `current_time`, the makespan.
- `inTime` is the number of epochs that start within the 3600-second budget.
  Elapsed time only grows, so "the check at the top of epoch e passes" is
  exactly "e < inTime".
- The advantages of each sweep and the shuffled order (`SubsetRandomSampler`)
  are parameters.
- `pow` stands for `x ** 0.6`.

The model follows the code, including where it departs from the usual account of the algorithm:

- A zero advantage is not floored. Only negative advantages become 1e-5, so a
  stored priority can be `pow(0)`, not a strictly positive value
  (`PriorityReplay.Floored`).
- The first value `train` returns is `min` of the window, not the minimum
  makespan seen over the run (`Training.ReturnedMinIsWindowMin` gives a run
  where the two differ).
- The sampling distribution is the whole capacity-sized priority array normalised
  and handed to a choice over the epoch's `len(ba)` indices, so it fails whenever
  the epoch is shorter than the capacity (`PriorityReplay.PriorityBuffer.Pass`,
  see Findings).

## Model

| member | source | states |
|---|---|---|
| DiscountedReturn.Reversed | ppo_op.py:198 | the reversal has the same length and element i is element n-1-i of the input |
| DiscountedReturn.Returns | ppo_op.py:193-198 | there is one discounted return per reward |
| DiscountedReturn.ComputeReturns | ppo_op.py:193-198 | the backward accumulation followed by the reversal yields exactly the returns G_i = r_i + gamma G_(i+1) |
| DiscountedReturn.ReturnsRecurrence | ppo_op.py:193-198 | every return is its reward plus gamma times the next return; the last return is the last reward |
| DiscountedReturn.ReturnsSuffix | ppo_op.py:193-198 | the returns of a suffix of the rewards are the same suffix of the returns |
| DiscountedReturn.FirstReturnClosedForm | ppo_op.py:193-198 | the first return is the discounted sum of all rewards |
| DiscountedReturn.ReturnsClosedForm | ppo_op.py:193-198 | G_i is the sum over k of gamma^k times r_(i+k) |
| DiscountedReturn.ReturnsExample | ppo_op.py:193-198 | rewards [1, 2, 3] with gamma 0.9 give returns [5.23, 4.7, 3.0] |
| DiscountedReturn.PowerSumShift | ppo_op.py:193-198 | raising every exponent of the discounted sum by one multiplies it by gamma |
| EpochBuffer.ProjectionsExtend | ppo_op.py:185-188 | recording one more step extends each of the four episode lists by that step's field |
| EpochBuffer.Rollout | ppo_op.py:182-191 | the episode lists hold the states, actions, rewards and probabilities of the steps in order, and the episode reward is their sum |
| EpochBuffer.Extend | ppo_op.py:200-203 | the epoch lists after one finished episode: each list with the episode's states, actions, discounted returns and probabilities appended at its end; its layout is stated by ExtendAppends |
| EpochBuffer.ExtendAppends | ppo_op.py:200-203 | appending an episode grows each epoch list by the episode length, keeps the earlier entries and puts the new ones in time order, with the episode's own returns |
| EpochBuffer.AddEpisode | ppo_op.py:179-203 | the epoch lists after one finished episode are the old lists extended by its states, actions, discounted returns and probabilities; the reward is the sum of its rewards |
| EpochBuffer.AssembledLength | ppo_op.py:177-203 | the four epoch lists have equal length, one entry per step collected |
| EpochBuffer.AssembledLayout | ppo_op.py:177-203 | step t of episode e sits after all earlier episodes' steps in all four lists, with the return computed within its own episode |
| Training.MinIsSmallest | ppo_op.py:224 | min of a non-empty window is one of its entries and no entry is smaller |
| Training.MaxIsLargest | ppo_op.py:218 | max of a non-empty window is one of its entries and no entry is larger |
| Training.RecentIsSuffix | ppo_op.py:212-214 | the last n makespans are the whole list when it is short, and otherwise its suffix of length n |
| Training.WindowHoldsMostRecent | ppo_op.py:212-214 | the window holds the most recent min(30, seen) makespans in arrival order |
| Training.WindowStep | ppo_op.py:212-214 | append-then-pop on the window gives the window of the makespans seen so far plus the new one |
| Training.PushWindow | ppo_op.py:212-214 | the window after one makespan: appended, then the oldest entry popped once it holds 31; its effect is stated by WindowStep and PushWindowEvictsOldest |
| Training.PushWindowEvictsOldest | ppo_op.py:212-214 | a push never makes the window exceed 30; below 30 it only appends; at 30 the oldest entry leaves |
| Training.StopTest | ppo_op.py:218 | the stop test fails exactly on an empty window, where `min` raises; when it holds, the window has at least 30 entries |
| Training.StopTestMeansConstant | ppo_op.py:218 | on a non-empty window the stop test holds exactly when the window has at least 30 entries that are all equal |
| Training.RunningMin | ppo_op.py:206-207 | `min_make_span` after a sequence of makespans, starting from 100000; its bounds are stated by RunningMinBounds and RunningMinNonIncreasing |
| Training.RunningMinBounds | ppo_op.py:206-207 | the running minimum is at most 100000 and at most every makespan seen, and is 100000 or one of them |
| Training.RunningMinNonIncreasing | ppo_op.py:206-207 | seeing more makespans never raises the running minimum |
| Training.ReturnedMinIsWindowMin | ppo_op.py:224 | after a makespan of 5 and thirty of 7 the returned min is 7 while the running minimum is 5 |
| Training.EpochRecords | ppo_op.py:178 | an epoch collects exactly memory_size episodes |
| Training.OffsetIsProduct | ppo_op.py:205 | the episodes of the first e epochs number e * memory_size |
| Training.HistoryLength | ppo_op.py:174-178 | the history after e epochs has e * memory_size episodes |
| Training.Report | ppo_op.py:211 | the report has one row per collected episode |
| Training.ReportRows | ppo_op.py:205-211 | row k is keyed k and holds episode k's epoch, makespan, reward and the running minimum over episodes 0..k |
| Training.ReportRunningMin | ppo_op.py:206-211 | the reported minima never increase row to row, and each is at most every makespan reported up to its row |
| Training.MakespansAt | ppo_op.py:212 | entry j of the makespan list is episode j's makespan |
| Training.MakespansPrefix | ppo_op.py:212 | the makespans of a prefix of the history are the prefix of its makespans |
| Training.HistoryStep | ppo_op.py:205-214 | updating the bookkeeping one episode at a time agrees with the window, minimum and report over the whole history |
| Training.Observe | ppo_op.py:205-214 | one episode lowers the running minimum, adds the report row keyed by the episode index and pushes its makespan on the window |
| Training.EpochObservedIsAfter | ppo_op.py:178-214 | observing an epoch's episodes in order gives the bookkeeping over the history extended by them |
| Training.TrainedIsAfter | ppo_op.py:174-214 | after e epochs the bookkeeping is the window of the last 30 makespans, the running minimum and the report over all episodes |
| Training.TrainedSizes | ppo_op.py:205-214 | after e epochs the report has e * memory_size rows; the window is empty exactly when no episode was collected |
| Training.AssembledStep | ppo_op.py:200-203 | collecting one more episode appends its steps to the epoch lists |
| Training.EpochAssembledIsAssembled | ppo_op.py:177-203 | the epoch lists built episode by episode are those of the epoch's episodes in collection order |
| Training.RunEpoch | ppo_op.py:177-218 | one epoch turns the bookkeeping after e epochs into that after e + 1, returns the assembled epoch lists and the last episode index, and returns the stop test: an error when memory_size is 0, otherwise whether the window converged |
| Training.Train | ppo_op.py:165-224 | at most 4000 epochs within the budget; no epoch before the last converged; the run ends at 4000, at the budget or on convergence; the report covers every episode; with `update` taken to succeed, a value is returned exactly when an episode was collected, and it is (min of the window, index of the last episode); otherwise the run fails, which happens only with no epoch or with memory_size 0 after one epoch |
| PriorityReplay.Floored | ppo_op.py:133-135 | negative advantages become exactly 1e-5, the others, 0 included, are unchanged; same length, all non-negative |
| PriorityReplay.FloorNegatives | ppo_op.py:133-135 | the in-place loop leaves the array equal to the floored advantages |
| PriorityReplay.LearnPriorities | ppo_op.py:136-137 | one priority per advantage, the power of the floored advantage |
| PriorityReplay.FlattenAppend | ppo_op.py:149 | concatenating batch lists concatenates their flattenings |
| PriorityReplay.Batches | ppo_op.py:149 | the BatchSampler chunks of the sweep order; their sizes, order and coverage are stated by BatchSizes, BatchesFlatten and BatchesPartition |
| PriorityReplay.BatchesFlatten | ppo_op.py:149 | the mini-batches concatenate back to the sweep order |
| PriorityReplay.BatchSizes | ppo_op.py:149 | every batch is non-empty and at most batch_size; all but the last have exactly batch_size |
| PriorityReplay.FlattenAt | ppo_op.py:149 | index j of batch b sits at the offset of the earlier batches plus j in the sweep order |
| PriorityReplay.FlattenPrefixGrows | ppo_op.py:149 | earlier batches end no later than later batches begin |
| PriorityReplay.BelowMembers | ppo_op.py:149 | range(n) holds exactly the n indices below n |
| PriorityReplay.ElementsOfMembers | ppo_op.py:149 | the set of the first n sweep positions holds exactly their indices |
| PriorityReplay.ElementsOfDistinct | ppo_op.py:149 | n distinct sweep positions hold n different indices |
| PriorityReplay.PermutationCovers | ppo_op.py:149 | a shuffle of range(n) holds every index below n |
| PriorityReplay.BatchesPartition | ppo_op.py:149 | the mini-batches cover 0..n-1, hold only indices below n and are pairwise disjoint |
| PriorityReplay.FlattenLocate | ppo_op.py:149 | every position of the sweep order lies in some batch at some offset |
| PriorityReplay.NextBatch | ppo_op.py:149 | the batches taken so far followed by the next form a prefix of the sweep order |
| PriorityReplay.BatchOfPermutation | ppo_op.py:149-150 | a batch of the shuffle holds distinct indices below n, none written by an earlier batch |
| PriorityReplay.LearnPrioritiesSlice | ppo_op.py:150 | the priorities of a batch's advantages are that batch's slice of the sweep's priorities |
| PriorityReplay.ReplaySize | ppo_op.py:153-155 | the replay count never exceeds batch_size, and is at least 1 whenever batch_size is |
| PriorityReplay.ReplaySizeAtStart | ppo_op.py:153-155 | at train step 0 the replay count is init_size 1 |
| PriorityReplay.ReplaySizeMonotone | ppo_op.py:147-155 | the replay count never decreases as train steps grow |
| PriorityReplay.ReplaySizeSaturates | ppo_op.py:153-155 | from train step 2000 on the replay count is batch_size |
| PriorityReplay.FloorMonotone | ppo_op.py:155 | the floor behind int() is monotone: a larger value never has a smaller floor |
| PriorityReplay.ScaledSquareMonotone | ppo_op.py:153-154 | a non-negative multiple of the square of the progress grows with it |
| PriorityReplay.ChoiceDistribution | ppo_op.py:152-155 | when np.random.choice accepts the normalised vector, the vector and the result both have the length of the index range |
| PriorityReplay.ChoiceDistributionValid | ppo_op.py:152-155 | np.random.choice accepts the normalised vector exactly when the range is not empty and the vector has the right length, a non-zero total and no negative share; an accepted one is non-negative and sums to 1 |
| PriorityReplay.PositivePrioritiesAccepted | ppo_op.py:152-155 | non-negative priorities with one positive entry always give an accepted distribution |
| PriorityReplay.ReplayDistributionAsWritten | ppo_op.py:152-155 | the sampling as the code does it can only succeed when the epoch fills the capacity, and then it equals the distribution over the epoch's indices |
| PriorityReplay.AsWrittenRejectsShortEpoch | ppo_op.py:152-155 | with an epoch shorter than the capacity the sampling as written raises: for a length mismatch, or for an empty range when the epoch has no transition |
| PriorityReplay.ReplayDistribution | ppo_op.py:152-155 | the distribution restricted to the epoch's n indices has length n when it exists |
| PriorityReplay.ReplayDistributionWellDefined | ppo_op.py:152-155 | restricted to 0..n-1 the distribution exists for every epoch length up to the capacity once one priority is positive, and sums to 1 |
| PriorityReplay.PriorityBuffer.constructor | ppo_op.py:69-76 | the priority array has capacity entries, all 0, and the pass counter starts at 0 |
| PriorityReplay.PriorityBuffer.WriteBack | ppo_op.py:150 | each index of the batch receives the priority of its advantage, every other entry is unchanged |
| PriorityReplay.PriorityBuffer.Sweep | ppo_op.py:149-150 | after the full sweep every index order[k] holds the priority of advantage k, and entries from n on are unchanged |
| PriorityReplay.PriorityBuffer.Pass | ppo_op.py:146-155 | the pass counter goes up by one before use, the sweep is written back, and the replay count is that of the new counter; the distribution is the as-written one over the new array, which fails for an empty range when the epoch has no transition and with a length mismatch whenever a non-empty epoch is shorter than the capacity |
| PriorityReplay.PriorityBuffer.Update | ppo_op.py:139-163 | passes are made until ten are done or one's sampling is rejected: every pass but the last is accepted, fewer than ten passes means the last was rejected, and the last pass's result is the as-written distribution over the final array, so an early stop means that array is rejected; an empty epoch gives exactly one pass with an empty range, and a non-empty epoch shorter than the capacity exactly one pass with a length mismatch; the counter rises by the number of passes, pass p's replay count uses counter value old + p + 1, the array ends with the last pass's sweep, entries from n on are unchanged |
| ClippedSurrogate.Clamp | ppo_op.py:116 | clamp lies in the range and leaves values inside it unchanged |
| ClippedSurrogate.Surrogate | ppo_op.py:114-118 | the clipped term never exceeds r * A, and inside 1 - eps..1 + eps it is r * A |
| ClippedSurrogate.SurrogateNonNegativeAdvantage | ppo_op.py:114-118 | with A non-negative the clipped term is min(r, 1 + eps) * A |
| ClippedSurrogate.SurrogateNegativeAdvantage | ppo_op.py:114-118 | with A negative the clipped term is max(r, 1 - eps) * A |
| ClippedSurrogate.SurrogateAtBoundaries | ppo_op.py:114-118 | at both clip boundaries the clipped term equals the unclipped one |
| ClippedSurrogate.TrainerClipBounds | ppo_op.py:114-118 | with the trainer's clip range 0.2 the clipped term is at most 1.2 A for A >= 0 and at most 0.8 A for A < 0, whatever the ratio |
| ClippedSurrogate.SurrogateTerms | ppo_op.py:115-118 | one clipped term per transition |
| ClippedSurrogate.UnclippedTerms | ppo_op.py:115 | one unclipped term per transition |
| ClippedSurrogate.ActorLoss | ppo_op.py:118 | when every ratio lies inside 1 - eps..1 + eps the actor loss is the unclipped loss -mean(r * A) |
| ClippedSurrogate.ActorLossPessimistic | ppo_op.py:118 | the actor loss is never below the loss of the unclipped objective |

## Left out

- The Actor and Critic networks (ppo_op.py:14-43) are not modelled. Neither are `select_action`, `get_value`, the forward passes, autograd, the Adam steps, gradient-norm clipping or the value loss (ppo_op.py:78-131). Advantages and probability ratios are inputs.
- The environment `JobEnv` is abstract. Each episode is an input (its steps and final makespan). Because episodes come from `episodeOf`, the dependence of later episodes on the updated policy is folded into that input.
- `Training.Train`: does not call `update`; `Training.Train` and `Training.RunEpoch` carry on as if every `update` succeeded. In the source `update` raises, and so ends `train`, in three cases: a ValueError at ppo_op.py:155 for an epoch shorter than the capacity (see Findings), an IndexError at ppo_op.py:150 for an epoch longer than the capacity, and a ValueError at ppo_op.py:155 when every priority is 0. `update`'s priority bookkeeping, failures included, is modelled on its own by `PriorityReplay.PriorityBuffer.Update`; the networks' updates reach the modelled state only through the episodes.
- `Training.Train`: the wall clock is not modelled. The check at the top of each epoch becomes `epochs < inTime`, and the elapsed time, the third value `train` returns, is not returned.
- Randomness is an input: `Categorical` sampling, the `SubsetRandomSampler` shuffle (a permutation of 0..n-1), and the indices `np.random.choice` draws. Only the checks `np.random.choice` makes of its probability vector are modelled. The second `learn` call on the sampled indices (ppo_op.py:163) only trains the networks; its priorities are discarded.
- `x ** 0.6` has no closed form over `real`, so it is the function parameter `pow`.
- Float32 and float64 rounding are not modelled; all arithmetic is exact.
- `print`, the pandas results table and its CSV file, `os.makedirs`, `save_params` and `load_params` are I/O. The table is the sequence of report rows.
- The `__main__` driver (ppo_op.py:227-239) iterates over a directory of cases and is not modelled.
- The weighting path with `w` and `beta` (ppo_op.py:72-74, 102-105, 156-162) is never used by `update` and is not modelled.
- `Training.RunEpoch`: does not call `update` (ppo_op.py:216); the epoch ends as if `update` succeeded, so the exceptions `update` raises, listed on the `Training.Train` line above, do not end it.
- `Training.Train`: with memory_size 0 the source fails inside `update` on the empty epoch (ppo_op.py:155), before `min` at ppo_op.py:218; since `update` is not called, the model reports that failure as `EmptyWindow`.
- `PriorityReplay.PriorityBuffer.Sweep`: requires the epoch length to be at most the capacity; a longer epoch raises IndexError at ppo_op.py:150 in the source, and that path is not modelled.
- `PriorityReplay.PriorityBuffer.Pass`: requires the epoch length to be at most the capacity, as `Sweep` does; the IndexError path for a longer epoch is not modelled.
- `PriorityReplay.PriorityBuffer.Update`: requires the epoch length to be at most the capacity, as `Sweep` does; the IndexError path for a longer epoch is not modelled.
- `PriorityReplay.PriorityBuffer.Update`: states each pass's replay count and ties the last pass's result to the final priority array, but does not tie each earlier accepted distribution to the array after its own pass; `PriorityReplay.PriorityBuffer.Pass` states that for a single pass.

## Findings

| source | as written | input that shows it | evidently intended | confidence | as-written member | corrected member |
|---|---|---|---|---|---|---|
| ppo_op.py:152-155 | `prob1` is normalised over the whole capacity-length priority array, then passed as `p` to `np.random.choice(len(ba), ...)`, which requires `len(p) == len(ba)` | any epoch with fewer transitions than `memory_size * job_num * machine_num`, e.g. capacity 4 and an epoch of 3 transitions: `np.random.choice` raises ValueError | sample from the current epoch's indices 0..n-1 with the priorities of those indices normalised over them | high; not executed | PriorityReplay.AsWrittenRejectsShortEpoch | PriorityReplay.ReplayDistributionWellDefined |
