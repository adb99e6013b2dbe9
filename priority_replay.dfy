/**
 * Priority bookkeeping of `PPO.update` and `PPO.learn`: the negative-advantage
 * floor (ppo_op.py:133-137), the full-sweep mini-batches and the in-place
 * priority write-back (ppo_op.py:146-150), the sampling distribution
 * (ppo_op.py:152, 155) and the replay-size schedule (ppo_op.py:153-155).
 * Advantages, the shuffled sweep order and the power `x ^ alpha` are inputs.
 */
module PriorityReplay {
  import opened Wrappers
  import opened Sums

  /** Value a negative advantage is replaced by (ppo_op.py:135). */
  const ADVANTAGE_FLOOR: real := 0.00001
  /** Replay batch size at train step 0 (ppo_op.py:75). */
  const INIT_SIZE: int := 1
  /** Train step at which the replay size reaches the batch size (ppo_op.py:73). */
  const CONVERGENCE_EPISODE: int := 2000
  /** Passes per call of `update` (ppo_op.py:60). */
  const UPDATE_STEPS: nat := 10

  // ---------------------------------------------------------------- floor

  function FloorAdvantage(a: real): real
  {
    if a < 0.0 then ADVANTAGE_FLOOR else a
  }

  /**
   * The advantages after the loop of ppo_op.py:133-135: negative entries become
   * exactly 1e-5, all others (0 included) stay as they are.
   */
  function Floored(advantages: seq<real>): (r: seq<real>)
    ensures |r| == |advantages|
    ensures forall i :: 0 <= i < |r| ==> r[i] >= 0.0
    ensures forall i :: 0 <= i < |r| && advantages[i] < 0.0 ==> r[i] == ADVANTAGE_FLOOR
    ensures forall i :: 0 <= i < |r| && advantages[i] >= 0.0 ==> r[i] == advantages[i]
  {
    seq(|advantages|, i requires 0 <= i < |advantages| => FloorAdvantage(advantages[i]))
  }

  /** The in-place floor of ppo_op.py:133-135. */
  method FloorNegatives(advantage: array<real>)
    modifies advantage
    ensures advantage[..] == Floored(old(advantage[..]))
  {
    for i := 0 to advantage.Length
      invariant forall j :: 0 <= j < i ==> advantage[j] == FloorAdvantage(old(advantage[j]))
      invariant forall j :: i <= j < advantage.Length ==> advantage[j] == old(advantage[j])
    {
      if advantage[i] < 0.0 {
        advantage[i] := ADVANTAGE_FLOOR;
      }
    }
  }

  function Abs(x: real): real
  {
    if x < 0.0 then -x else x
  }

  /**
   * The priorities `learn` returns: `abs(advantage) ** alpha` of the floored
   * advantages (ppo_op.py:136-137), with `pow` standing for `x ^ 0.6`. The
   * `abs` has no effect once the advantages are floored.
   */
  function LearnPriorities(advantages: seq<real>, pow: real -> real): (r: seq<real>)
    ensures |r| == |advantages|
    ensures forall i :: 0 <= i < |r| ==> r[i] == pow(Floored(advantages)[i])
  {
    var floored := Floored(advantages);
    assert forall i :: 0 <= i < |floored| ==> Abs(floored[i]) == floored[i];
    seq(|floored|, i requires 0 <= i < |floored| => pow(Abs(floored[i])))
  }

  // ---------------------------------------------------------------- mini-batches

  /** Concatenation of a sequence of batches. */
  function Flatten(batches: seq<seq<nat>>): seq<nat>
  {
    if batches == [] then [] else Flatten(batches[..|batches| - 1]) + batches[|batches| - 1]
  }

  lemma {:induction false} FlattenAppend(xs: seq<seq<nat>>, ys: seq<seq<nat>>)
    ensures Flatten(xs + ys) == Flatten(xs) + Flatten(ys)
    decreases |ys|
  {
    if ys == [] {
      assert xs + ys == xs;
    } else {
      var init := ys[..|ys| - 1];
      assert (xs + ys)[..|xs + ys| - 1] == xs + init;
      FlattenAppend(xs, init);
    }
  }

  /**
   * `BatchSampler(order, size, drop_last=False)`: consecutive chunks of `size`
   * indices of the sweep order, the last chunk possibly shorter.
   */
  function Batches(order: seq<nat>, size: nat): seq<seq<nat>>
    requires size > 0
    decreases |order|
  {
    if order == [] then []
    else if |order| <= size then [order]
    else [order[..size]] + Batches(order[size..], size)
  }

  /** Concatenating the batches gives back the sweep order. */
  lemma {:induction false} BatchesFlatten(order: seq<nat>, size: nat)
    requires size > 0
    ensures Flatten(Batches(order, size)) == order
    decreases |order|
  {
    if order != [] {
      if |order| <= size {
        assert Flatten([order]) == Flatten([]) + order;
      } else {
        var rest := order[size..];
        BatchesFlatten(rest, size);
        FlattenAppend([order[..size]], Batches(rest, size));
        assert Flatten([order[..size]]) == Flatten([]) + order[..size];
        assert order[..size] + rest == order;
      }
    }
  }

  /** Every batch is non-empty and holds at most `size` indices; all but the last hold exactly `size`. */
  lemma {:induction false} BatchSizes(order: seq<nat>, size: nat)
    requires size > 0
    ensures forall b :: 0 <= b < |Batches(order, size)| ==> 0 < |Batches(order, size)[b]| <= size
    ensures forall b :: 0 <= b < |Batches(order, size)| - 1 ==> |Batches(order, size)[b]| == size
    decreases |order|
  {
    if |order| > size {
      BatchSizes(order[size..], size);
    }
  }

  /** Position of the j-th index of batch b inside the flattened sequence. */
  lemma {:induction false} FlattenAt(xs: seq<seq<nat>>, b: nat, j: nat)
    requires b < |xs| && j < |xs[b]|
    ensures |Flatten(xs[..b])| + j < |Flatten(xs[..b + 1])| <= |Flatten(xs)|
    ensures Flatten(xs)[|Flatten(xs[..b])| + j] == xs[b][j]
  {
    var upTo, rest := xs[..b + 1], xs[b + 1..];
    assert upTo[..b] == xs[..b];
    assert Flatten(upTo) == Flatten(xs[..b]) + xs[b];
    assert upTo + rest == xs;
    FlattenAppend(upTo, rest);
  }

  /** Earlier batches end no later than later batches begin. */
  lemma {:induction false} FlattenPrefixGrows(xs: seq<seq<nat>>, b1: nat, b2: nat)
    requires b1 <= b2 <= |xs|
    ensures |Flatten(xs[..b1])| <= |Flatten(xs[..b2])|
  {
    FlattenAppend(xs[..b1], xs[b1..b2]);
    assert xs[..b1] + xs[b1..b2] == xs[..b2];
  }

  /** `order` lists each of 0..n-1 exactly once (what `SubsetRandomSampler(range(n))` yields). */
  predicate IsPermutation(order: seq<nat>, n: nat)
  {
    |order| == n &&
    (forall k :: 0 <= k < n ==> order[k] < n) &&
    (forall k1, k2 :: 0 <= k1 < k2 < n ==> order[k1] != order[k2])
  }

  /** The indices 0..n-1 as a set. */
  function Below(n: nat): set<nat>
  {
    if n == 0 then {} else Below(n - 1) + {n - 1}
  }

  lemma {:induction false} BelowMembers(n: nat)
    ensures |Below(n)| == n
    ensures forall x: nat :: x in Below(n) <==> x < n
  {
    if n > 0 {
      BelowMembers(n - 1);
    }
  }

  /** The elements of the first n entries of `order`. */
  function ElementsOf(order: seq<nat>, n: nat): set<nat>
    requires n <= |order|
  {
    if n == 0 then {} else ElementsOf(order, n - 1) + {order[n - 1]}
  }

  lemma {:induction false} ElementsOfMembers(order: seq<nat>, n: nat)
    requires n <= |order|
    ensures forall x :: x in ElementsOf(order, n) <==> x in order[..n]
  {
    if n > 0 {
      ElementsOfMembers(order, n - 1);
      assert order[..n] == order[..n - 1] + [order[n - 1]];
    }
  }

  lemma {:induction false} ElementsOfDistinct(order: seq<nat>, n: nat)
    requires n <= |order|
    requires forall k1, k2 :: 0 <= k1 < k2 < n ==> order[k1] != order[k2]
    ensures |ElementsOf(order, n)| == n
  {
    if n > 0 {
      ElementsOfDistinct(order, n - 1);
      ElementsOfMembers(order, n - 1);
      assert order[n - 1] !in order[..n - 1];
    }
  }

  /** A list of n distinct indices below n holds every index below n. */
  lemma {:induction false} PermutationCovers(order: seq<nat>, n: nat, i: nat)
    requires IsPermutation(order, n) && i < n
    ensures i in order
  {
    var hit := ElementsOf(order, n);
    ElementsOfDistinct(order, n);
    ElementsOfMembers(order, n);
    BelowMembers(n);
    assert order[..n] == order;
    assert hit <= Below(n);
    assert |Below(n) - hit| == |Below(n)| - |hit| == 0;
    assert i in hit;
  }

  /** Index `i` occurs in one of the batches. */
  predicate InSomeBatch(batches: seq<seq<nat>>, i: nat)
  {
    exists b :: 0 <= b < |batches| && i in batches[b]
  }

  /**
   * For a full sweep over a permutation of 0..n-1, every index below n lies in
   * some batch, every batch holds only indices below n, and no index occurs twice
   * across (or within) the batches.
   */
  lemma {:induction false} BatchesPartition(order: seq<nat>, n: nat, size: nat)
    requires size > 0 && IsPermutation(order, n)
    ensures forall i :: 0 <= i < n ==> InSomeBatch(Batches(order, size), i)
    ensures forall b, j :: 0 <= b < |Batches(order, size)| && 0 <= j < |Batches(order, size)[b]| ==>
      Batches(order, size)[b][j] < n
    ensures forall b1, j1, b2, j2 ::
      0 <= b1 < |Batches(order, size)| && 0 <= j1 < |Batches(order, size)[b1]| &&
      0 <= b2 < |Batches(order, size)| && 0 <= j2 < |Batches(order, size)[b2]| &&
      Batches(order, size)[b1][j1] == Batches(order, size)[b2][j2]
      ==> b1 == b2 && j1 == j2
  {
    var bs := Batches(order, size);
    BatchesFlatten(order, size);
    forall b, j | 0 <= b < |bs| && 0 <= j < |bs[b]|
      ensures bs[b][j] < n
    {
      FlattenAt(bs, b, j);
    }
    forall b1, j1, b2, j2 |
      0 <= b1 < |bs| && 0 <= j1 < |bs[b1]| && 0 <= b2 < |bs| && 0 <= j2 < |bs[b2]| && bs[b1][j1] == bs[b2][j2]
      ensures b1 == b2 && j1 == j2
    {
      FlattenAt(bs, b1, j1);
      FlattenAt(bs, b2, j2);
      if b1 < b2 {
        FlattenPrefixGrows(bs, b1 + 1, b2);
      } else if b2 < b1 {
        FlattenPrefixGrows(bs, b2 + 1, b1);
      }
    }
    forall i | 0 <= i < n
      ensures InSomeBatch(bs, i)
    {
      PermutationCovers(order, n, i);
      var k :| 0 <= k < n && order[k] == i;
      var b, j := FlattenLocate(bs, k);
      assert bs[b][j] == i;
    }
  }

  /** The batch and offset holding position k of the flattened sequence. */
  lemma {:induction false} FlattenLocate(xs: seq<seq<nat>>, k: nat) returns (b: nat, j: nat)
    requires k < |Flatten(xs)|
    ensures b < |xs| && j < |xs[b]| && Flatten(xs)[k] == xs[b][j]
  {
    var init := xs[..|xs| - 1];
    if k < |Flatten(init)| {
      b, j := FlattenLocate(init, k);
    } else {
      b, j := |xs| - 1, k - |Flatten(init)|;
    }
  }

  /** The batches consumed so far followed by batch b form a prefix of the flattened sequence. */
  lemma {:induction false} NextBatch(batches: seq<seq<nat>>, b: nat)
    requires b < |batches|
    ensures Flatten(batches[..b + 1]) == Flatten(batches[..b]) + batches[b]
    ensures Flatten(batches[..b + 1]) <= Flatten(batches)
  {
    assert batches[..b + 1][..b] == batches[..b];
    FlattenAppend(batches[..b + 1], batches[b + 1..]);
    assert batches[..b + 1] + batches[b + 1..] == batches;
  }

  /** A slice of a permutation holds distinct indices below n, none of them earlier in the order. */
  lemma {:induction false} BatchOfPermutation(order: seq<nat>, n: nat, start: nat, end: nat)
    requires IsPermutation(order, n) && start <= end <= n
    ensures forall j :: 0 <= j < end - start ==> order[start..end][j] < n
    ensures forall j1, j2 :: 0 <= j1 < j2 < end - start ==> order[start..end][j1] != order[start..end][j2]
    ensures forall k :: 0 <= k < start ==> order[k] !in order[start..end]
    ensures forall i :: i !in order[..start] && i !in order[start..end] ==> i !in order[..end]
  {
    assert order[..end] == order[..start] + order[start..end];
  }

  /** The priorities of a slice of the advantages are the slice of the priorities. */
  lemma {:induction false} LearnPrioritiesSlice(advantages: seq<real>, start: nat, end: nat, pow: real -> real)
    requires start <= end <= |advantages|
    ensures forall k :: start <= k < end ==>
      LearnPriorities(advantages[start..end], pow)[k - start] == LearnPriorities(advantages, pow)[k]
  {
  }

  // ---------------------------------------------------------------- replay size

  /** Python's `int()` on a float: truncation toward zero. */
  function Trunc(x: real): int
  {
    if x >= 0.0 then x.Floor else -((-x).Floor)
  }

  /**
   * `min(batch_size, int(init_size + (batch_size - init_size) * (train_steps / 2000) ** 2))`
   * (ppo_op.py:153-155).
   */
  function ReplaySize(batchSize: int, trainSteps: nat): (r: int)
    ensures r <= batchSize
    ensures batchSize >= 1 ==> 1 <= r
  {
    var progress := (trainSteps as real) / (CONVERGENCE_EPISODE as real);
    var replay := (INIT_SIZE as real) + ((batchSize - INIT_SIZE) as real) * (progress * progress);
    if Trunc(replay) < batchSize then Trunc(replay) else batchSize
  }

  lemma {:induction false} FloorMonotone(x: real, y: real)
    requires x <= y
    ensures x.Floor <= y.Floor
  {
  }

  lemma {:induction false} ScaledSquareMonotone(c: real, p: real, q: real)
    requires c >= 0.0 && 0.0 <= p <= q
    ensures 0.0 <= c * (p * p) <= c * (q * q)
  {
    assert p * p <= p * q <= q * q;
  }

  /** At train step 0 the replay size is the initial size. */
  lemma {:induction false} ReplaySizeAtStart(batchSize: int)
    requires batchSize >= 1
    ensures ReplaySize(batchSize, 0) == INIT_SIZE
  {
  }

  /** The replay size never decreases as train steps accumulate. */
  lemma {:induction false} ReplaySizeMonotone(batchSize: int, t1: nat, t2: nat)
    requires batchSize >= 1 && t1 <= t2
    ensures ReplaySize(batchSize, t1) <= ReplaySize(batchSize, t2)
  {
    var p1 := (t1 as real) / (CONVERGENCE_EPISODE as real);
    var p2 := (t2 as real) / (CONVERGENCE_EPISODE as real);
    var c := (batchSize - INIT_SIZE) as real;
    assert 0.0 <= p1 <= p2;
    ScaledSquareMonotone(c, p1, p2);
    var r1 := (INIT_SIZE as real) + c * (p1 * p1);
    var r2 := (INIT_SIZE as real) + c * (p2 * p2);
    FloorMonotone(r1, r2);
    assert Trunc(r1) == r1.Floor && Trunc(r2) == r2.Floor;
  }

  /** From train step 2000 on, every replay batch has the full batch size. */
  lemma {:induction false} ReplaySizeSaturates(batchSize: int, trainSteps: nat)
    requires batchSize >= 1 && trainSteps >= CONVERGENCE_EPISODE
    ensures ReplaySize(batchSize, trainSteps) == batchSize
  {
    var p := (trainSteps as real) / (CONVERGENCE_EPISODE as real);
    var c := (batchSize - INIT_SIZE) as real;
    ScaledSquareMonotone(c, 1.0, p);
    FloorMonotone(batchSize as real, (INIT_SIZE as real) + c * (p * p));
  }

  // ---------------------------------------------------------------- sampling distribution

  /** The ValueErrors `np.random.choice` raises for an empty range or a bad probability vector. */
  datatype SampleError = EmptyPopulation | SizeMismatch | NotANumber | NegativeProbability

  /**
   * `p = priorities / sum(priorities)` followed by the checks
   * `np.random.choice(count, size, p=p)` makes, in its order: first that the
   * range is not empty (the replay size is at least 1, so samples are always
   * taken), then the length, NaN and sign of `p`.
   */
  function ChoiceDistribution(priorities: seq<real>, count: nat): (r: Result<seq<real>, SampleError>)
    ensures r.Ok? ==> |priorities| == count && |r.value| == count
  {
    var total := Sum(priorities);
    if count == 0 then Err(EmptyPopulation)
    else if |priorities| != count then Err(SizeMismatch)
    else if total == 0.0 then Err(NotANumber)
    else if exists i :: 0 <= i < |priorities| && priorities[i] / total < 0.0 then Err(NegativeProbability)
    else Ok(Scaled(priorities, total))
  }

  /**
   * Whenever `np.random.choice` accepts the vector, it is a probability
   * distribution over 0..count-1; it accepts exactly the vectors of length
   * `count` with a non-zero total and no negative share.
   */
  lemma {:induction false} ChoiceDistributionValid(priorities: seq<real>, count: nat)
    ensures ChoiceDistribution(priorities, count).Ok? <==>
      |priorities| == count && Sum(priorities) != 0.0 &&
      forall i :: 0 <= i < |priorities| ==> priorities[i] / Sum(priorities) >= 0.0
    ensures ChoiceDistribution(priorities, count).Ok? ==>
      var p := ChoiceDistribution(priorities, count).value;
      |p| == count && Sum(p) == 1.0 && forall i :: 0 <= i < |p| ==> p[i] >= 0.0
  {
    var total := Sum(priorities);
    if ChoiceDistribution(priorities, count).Ok? {
      SumScaled(priorities, total);
      assert total / total == 1.0;
    }
  }

  /** Non-negative priorities with at least one positive entry are always accepted. */
  lemma {:induction false} PositivePrioritiesAccepted(priorities: seq<real>, i: nat)
    requires forall k :: 0 <= k < |priorities| ==> priorities[k] >= 0.0
    requires i < |priorities| && priorities[i] > 0.0
    ensures ChoiceDistribution(priorities, |priorities|).Ok?
  {
    SumPositive(priorities, i);
    var total := Sum(priorities);
    assert total > 0.0;
    forall k | 0 <= k < |priorities|
      ensures priorities[k] / total >= 0.0
    {
      assert priorities[k] >= 0.0;
    }
  }

  /**
   * The distribution as the code computes it (ppo_op.py:152, 155): the whole
   * capacity-sized priority array is normalised and handed to a choice over
   * `n = len(ba)` indices. It can only be accepted when the epoch fills the
   * capacity, and then it is the distribution over the epoch's indices.
   */
  function ReplayDistributionAsWritten(priorities: seq<real>, n: nat): (r: Result<seq<real>, SampleError>)
    ensures r.Ok? ==> n == |priorities|
    ensures n == |priorities| ==> r == ReplayDistribution(priorities, n)
  {
    assert priorities[..|priorities|] == priorities;
    ChoiceDistribution(priorities, n)
  }

  /**
   * An epoch with fewer transitions than the capacity makes the as-written
   * sampling fail: for a length mismatch, or for an empty range when the
   * epoch has no transition at all.
   */
  lemma {:induction false} AsWrittenRejectsShortEpoch(priorities: seq<real>, n: nat)
    requires n < |priorities|
    ensures ReplayDistributionAsWritten(priorities, n) == if n == 0 then Err(EmptyPopulation) else Err(SizeMismatch)
  {
  }

  /** The distribution normalised over the current epoch's indices 0..n-1 only. */
  function ReplayDistribution(priorities: seq<real>, n: nat): (r: Result<seq<real>, SampleError>)
    requires n <= |priorities|
    ensures r.Ok? ==> |r.value| == n
  {
    ChoiceDistribution(priorities[..n], n)
  }

  /**
   * Restricted to 0..n-1, the sampling distribution exists for every epoch length
   * up to the capacity once one current priority is positive, and it sums to 1.
   */
  lemma {:induction false} ReplayDistributionWellDefined(priorities: seq<real>, n: nat, i: nat)
    requires n <= |priorities|
    requires forall k :: 0 <= k < n ==> priorities[k] >= 0.0
    requires i < n && priorities[i] > 0.0
    ensures ReplayDistribution(priorities, n).Ok?
    ensures Sum(ReplayDistribution(priorities, n).value) == 1.0
  {
    PositivePrioritiesAccepted(priorities[..n], i);
    ChoiceDistributionValid(priorities[..n], n);
  }

  // ---------------------------------------------------------------- the priority array


  /** The priority array and the pass counter that `update` maintains. */
  class PriorityBuffer {
    /** `self.priorities`, of length `capacity` (ppo_op.py:69-70). */
    const priorities: array<real>
    /** `self.batch_size`. */
    const batchSize: nat
    /** `self.train_steps`, never reset (ppo_op.py:76, 147). */
    var trainSteps: nat

    constructor (capacity: nat, batchSize: nat)
      requires batchSize > 0
      ensures priorities.Length == capacity && fresh(priorities)
      ensures forall i :: 0 <= i < capacity ==> priorities[i] == 0.0
      ensures this.batchSize == batchSize && trainSteps == 0
    {
      priorities := new real[capacity](i => 0.0);
      this.batchSize := batchSize;
      trainSteps := 0;
    }

    /**
     * `self.priorities[index] = self.learn(...)` (ppo_op.py:150), with the priority
     * computation of `learn` (ppo_op.py:133-137): the batch's advantages are
     * floored in place and the powered values are written at the batch's indices.
     */
    method WriteBack(batch: seq<nat>, advantages: seq<real>, pow: real -> real)
      requires |advantages| == |batch|
      requires forall j :: 0 <= j < |batch| ==> batch[j] < priorities.Length
      requires forall j1, j2 :: 0 <= j1 < j2 < |batch| ==> batch[j1] != batch[j2]
      modifies priorities
      ensures forall j :: 0 <= j < |batch| ==> priorities[batch[j]] == LearnPriorities(advantages, pow)[j]
      ensures forall i :: 0 <= i < priorities.Length && i !in batch ==> priorities[i] == old(priorities[i])
    {
      var advantage := new real[|advantages|](j requires 0 <= j < |advantages| => advantages[j]);
      assert advantage[..] == advantages;
      FloorNegatives(advantage);
      var prob := LearnPriorities(advantages, pow);
      for j := 0 to |batch|
        invariant advantage[..] == Floored(advantages)
        invariant forall j' :: 0 <= j' < j ==> priorities[batch[j']] == prob[j']
        invariant forall i :: 0 <= i < priorities.Length && i !in batch[..j] ==> priorities[i] == old(priorities[i])
      {
        assert advantage[j] == Floored(advantages)[j];
        priorities[batch[j]] := pow(Abs(advantage[j]));
        assert forall i :: i in batch[..j + 1] ==> i in batch[..j] || i == batch[j];
      }
      assert batch[..|batch|] == batch;
    }

    /**
     * The full sweep of one pass (ppo_op.py:149-150): the shuffled `order` of
     * 0..n-1 is cut into mini-batches of `batchSize` and each batch's priorities
     * are written back at its indices. `advantages[k]` is the advantage `learn`
     * finds for transition `order[k]`.
     */
    method Sweep(n: nat, order: seq<nat>, advantages: seq<real>, pow: real -> real)
      requires batchSize > 0
      requires n <= priorities.Length && IsPermutation(order, n) && |advantages| == n
      modifies priorities
      ensures forall k :: 0 <= k < n ==> priorities[order[k]] == LearnPriorities(advantages, pow)[k]
      ensures forall i :: n <= i < priorities.Length ==> priorities[i] == old(priorities[i])
    {
      var batches := Batches(order, batchSize);
      BatchesFlatten(order, batchSize);
      var start := 0;
      for b := 0 to |batches|
        invariant start == |Flatten(batches[..b])| <= n
        invariant Flatten(batches[..b]) == order[..start]
        invariant forall k :: 0 <= k < start ==> priorities[order[k]] == LearnPriorities(advantages, pow)[k]
        invariant forall i :: 0 <= i < priorities.Length && i !in order[..start] ==> priorities[i] == old(priorities[i])
      {
        var batch := batches[b];
        NextBatch(batches, b);
        var end := start + |batch|;
        assert Flatten(batches[..b + 1]) == order[..end];
        assert batch == order[start..end];
        BatchOfPermutation(order, n, start, end);
        WriteBack(batch, advantages[start..end], pow);
        LearnPrioritiesSlice(advantages, start, end, pow);
        start := end;
      }
      assert batches[..|batches|] == batches;
      assert order[..start] == order;
      forall i | n <= i < priorities.Length
        ensures priorities[i] == old(priorities[i])
      {
        assert i !in order;
      }
    }

    /**
     * One of the `UPDATE_STEPS` passes of `update` (ppo_op.py:147-155): count the
     * pass, run the full sweep, then compute the replay size and the sampling
     * distribution as the code does, which fails for an epoch shorter than the capacity.
     */
    method Pass(n: nat, order: seq<nat>, advantages: seq<real>, pow: real -> real)
      returns (replaySize: int, distribution: Result<seq<real>, SampleError>)
      requires batchSize > 0
      requires n <= priorities.Length && IsPermutation(order, n) && |advantages| == n
      modifies this, priorities
      ensures trainSteps == old(trainSteps) + 1
      ensures forall k :: 0 <= k < n ==> priorities[order[k]] == LearnPriorities(advantages, pow)[k]
      ensures forall i :: n <= i < priorities.Length ==> priorities[i] == old(priorities[i])
      ensures replaySize == ReplaySize(batchSize, trainSteps)
      ensures distribution == ReplayDistributionAsWritten(priorities[..], n)
      ensures n == 0 ==> distribution == Err(EmptyPopulation)
      ensures 0 < n < priorities.Length ==> distribution == Err(SizeMismatch)
    {
      trainSteps := trainSteps + 1;
      Sweep(n, order, advantages, pow);
      replaySize := ReplaySize(batchSize, trainSteps);
      distribution := ReplayDistributionAsWritten(priorities[..], n);
      if n < priorities.Length {
        AsWrittenRejectsShortEpoch(priorities[..], n);
      }
    }

    /**
     * `update` (ppo_op.py:139-163): up to `UPDATE_STEPS` passes; pass p sweeps
     * `orders[p]` with advantages `advantages[p]`. A pass whose sampling
     * distribution `np.random.choice` rejects raises at ppo_op.py:155, so
     * `update` stops after that pass with its counter and sweep already done.
     * Returns the replay size and sampling distribution of every pass made.
     */
    method Update(n: nat, orders: seq<seq<nat>>, advantages: seq<seq<real>>, pow: real -> real)
      returns (replaySizes: seq<int>, distributions: seq<Result<seq<real>, SampleError>>)
      requires batchSize > 0 && n <= priorities.Length
      requires |orders| == UPDATE_STEPS && |advantages| == UPDATE_STEPS
      requires forall p :: 0 <= p < UPDATE_STEPS ==> IsPermutation(orders[p], n) && |advantages[p]| == n
      modifies this, priorities
      ensures 1 <= |distributions| == |replaySizes| == trainSteps - old(trainSteps) <= UPDATE_STEPS
      ensures forall p :: 0 <= p < |replaySizes| ==> replaySizes[p] == ReplaySize(batchSize, old(trainSteps) + p + 1)
      ensures forall p :: 0 <= p < |distributions| - 1 ==> distributions[p].Ok?
      ensures |distributions| < UPDATE_STEPS ==> distributions[|distributions| - 1].Err?
      ensures distributions[|distributions| - 1] == ReplayDistributionAsWritten(priorities[..], n)
      ensures n == 0 ==> distributions == [Err(EmptyPopulation)]
      ensures 0 < n < priorities.Length ==> distributions == [Err(SizeMismatch)]
      ensures var last := |distributions| - 1;
        IsPermutation(orders[last], n) &&
        forall k :: 0 <= k < n ==> priorities[orders[last][k]] == LearnPriorities(advantages[last], pow)[k]
      ensures forall i :: n <= i < priorities.Length ==> priorities[i] == old(priorities[i])
    {
      replaySizes, distributions := [], [];
      ghost var lastOrder: seq<nat>, lastAdvantages: seq<real> := [], [];
      var p := 0;
      while p < UPDATE_STEPS
        invariant p <= UPDATE_STEPS
        invariant trainSteps == old(trainSteps) + p
        invariant |replaySizes| == p && |distributions| == p
        invariant forall q :: 0 <= q < p ==> replaySizes[q] == ReplaySize(batchSize, old(trainSteps) + q + 1)
        invariant forall q :: 0 <= q < p ==> distributions[q].Ok?
        invariant n == 0 || n < priorities.Length ==> p == 0
        invariant p > 0 ==> distributions[p - 1] == ReplayDistributionAsWritten(priorities[..], n)
        invariant p > 0 ==> lastOrder == orders[p - 1] && lastAdvantages == advantages[p - 1]
        invariant p > 0 ==> forall k :: 0 <= k < n ==>
          priorities[lastOrder[k]] == LearnPriorities(lastAdvantages, pow)[k]
        invariant forall i :: n <= i < priorities.Length ==> priorities[i] == old(priorities[i])
      {
        var size, dist := Pass(n, orders[p], advantages[p], pow);
        lastOrder, lastAdvantages := orders[p], advantages[p];
        replaySizes := replaySizes + [size];
        distributions := distributions + [dist];
        p := p + 1;
        if dist.Err? {
          // `np.random.choice` raises: `update` is left after this pass.
          break;
        }
      }
    }
  }
}
