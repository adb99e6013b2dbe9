/**
 * The epoch loop of `PPO.train` (ppo_op.py:165-224): the running minimum
 * makespan, the convergence window of the last 30 makespans, the stop rule,
 * the per-episode report rows and the returned tuple. The environment is
 * abstract: `episodeOf(epoch, m)` is the m-th episode of an epoch, as the
 * current policy plays it; `inTime` is the number of epochs that start within
 * the wall-clock budget.
 */
module Training {
  import opened Wrappers
  import opened Sums
  import opened DiscountedReturn
  import opened EpochBuffer

  /** Epoch bound of the loop (ppo_op.py:174). */
  const MAX_EPOCHS: nat := 4000
  /** Size of the convergence window (ppo_op.py:213, 218). */
  const WINDOW_SIZE: nat := 30
  /** Initial value of the running minimum makespan (ppo_op.py:173). */
  const INITIAL_MIN_MAKESPAN: int := 100000

  /** One finished episode: what was recorded, and the environment's final `current_time`. */
  datatype Episode = Episode(steps: seq<Step>, makespan: int)

  /** One row of the results table (ppo_op.py:211), keyed by the episode index. */
  datatype ReportRow = ReportRow(index: nat, epoch: nat, makespan: int, reward: real, minMakeSpan: int)

  /**
   * A run that fails. With no epoch, `min()` of the empty window raises at
   * ppo_op.py:224. With memory_size 0 the run fails in `update` on the empty
   * epoch (ppo_op.py:155, `update` is not called here) before `min` at
   * ppo_op.py:218 is reached.
   */
  datatype TrainError = EmptyWindow

  // ---------------------------------------------------------------- min and max

  /** Python's `min` on a non-empty list. */
  function Min(s: seq<int>): int
    requires s != []
  {
    if |s| == 1 then s[0]
    else
      var rest := Min(s[1..]);
      if s[0] <= rest then s[0] else rest
  }

  /** Python's `max` on a non-empty list. */
  function Max(s: seq<int>): int
    requires s != []
  {
    if |s| == 1 then s[0]
    else
      var rest := Max(s[1..]);
      if s[0] >= rest then s[0] else rest
  }

  /** `Min` is an element of the list and no element is smaller. */
  lemma {:induction false} MinIsSmallest(s: seq<int>)
    requires s != []
    ensures Min(s) in s && forall i :: 0 <= i < |s| ==> Min(s) <= s[i]
  {
    if |s| > 1 {
      MinIsSmallest(s[1..]);
      assert forall i :: 1 <= i < |s| ==> s[i] == s[1..][i - 1];
    }
  }

  /** `Max` is an element of the list and no element is larger. */
  lemma {:induction false} MaxIsLargest(s: seq<int>)
    requires s != []
    ensures Max(s) in s && forall i :: 0 <= i < |s| ==> s[i] <= Max(s)
  {
    if |s| > 1 {
      MaxIsLargest(s[1..]);
      assert forall i :: 1 <= i < |s| ==> s[i] == s[1..][i - 1];
    }
  }

  // ---------------------------------------------------------------- convergence window

  /** `converged_value.append(x)`, then `pop(0)` once it holds 31 entries (ppo_op.py:212-214). */
  function PushWindow(window: seq<int>, makespan: int): seq<int>
  {
    var grown := window + [makespan];
    if |grown| >= WINDOW_SIZE + 1 then grown[1..] else grown
  }

  /** The last `n` entries of `seen` (all of them when there are fewer), oldest first. */
  function Recent(seen: seq<int>, n: nat): seq<int>
  {
    if n == 0 || seen == [] then [] else Recent(seen[..|seen| - 1], n - 1) + [seen[|seen| - 1]]
  }

  /** The makespans the window should hold: the last (at most) 30 seen, oldest first. */
  function Window(seen: seq<int>): seq<int>
  {
    Recent(seen, WINDOW_SIZE)
  }

  /** `Recent(seen, n)` is the suffix of `seen` of length min(|seen|, n). */
  lemma {:induction false} RecentIsSuffix(seen: seq<int>, n: nat)
    ensures |seen| <= n ==> Recent(seen, n) == seen
    ensures |seen| > n ==> Recent(seen, n) == seen[|seen| - n..]
  {
    if n > 0 && seen != [] {
      var init := seen[..|seen| - 1];
      RecentIsSuffix(init, n - 1);
      if |seen| <= n {
        assert init + [seen[|seen| - 1]] == seen;
      } else {
        assert init[|init| - (n - 1)..] + [seen[|seen| - 1]] == seen[|seen| - n..];
      }
    }
  }

  /** The window is the most recent min(|seen|, 30) makespans, in arrival order. */
  lemma {:induction false} WindowHoldsMostRecent(seen: seq<int>, i: nat)
    ensures |Window(seen)| == if |seen| < WINDOW_SIZE then |seen| else WINDOW_SIZE
    ensures i < |Window(seen)| ==> Window(seen)[i] == seen[|seen| - |Window(seen)| + i]
  {
    RecentIsSuffix(seen, WINDOW_SIZE);
  }

  /** The code's append-then-pop keeps exactly the most recent 30 makespans in arrival order. */
  lemma {:induction false} WindowStep(seen: seq<int>, makespan: int)
    ensures PushWindow(Window(seen), makespan) == Window(seen + [makespan])
  {
    var s := seen + [makespan];
    RecentIsSuffix(seen, WINDOW_SIZE);
    RecentIsSuffix(s, WINDOW_SIZE);
    if |seen| > WINDOW_SIZE {
      assert s[|s| - WINDOW_SIZE..] == seen[|seen| - WINDOW_SIZE..][1..] + [makespan];
    } else if |seen| == WINDOW_SIZE {
      assert s[|s| - WINDOW_SIZE..] == s[1..];
    }
  }

  /** A push never lets the window exceed 30 entries; when it is full, the oldest entry leaves first. */
  lemma {:induction false} PushWindowEvictsOldest(window: seq<int>, makespan: int)
    requires |window| <= WINDOW_SIZE
    ensures |PushWindow(window, makespan)| <= WINDOW_SIZE
    ensures |window| < WINDOW_SIZE ==> PushWindow(window, makespan) == window + [makespan]
    ensures |window| == WINDOW_SIZE ==> PushWindow(window, makespan) == window[1..] + [makespan]
  {
  }

  /**
   * The stop test `min(w) == max(w) and len(w) >= 30` (ppo_op.py:218), which
   * raises on an empty window before the length is looked at.
   */
  function StopTest(window: seq<int>): (r: Result<bool, TrainError>)
    ensures r.Err? <==> window == []
    ensures r == Ok(true) ==> |window| >= WINDOW_SIZE
  {
    if window == [] then Err(EmptyWindow)
    else Ok(Min(window) == Max(window) && |window| >= WINDOW_SIZE)
  }

  /** The window is full of one repeated makespan. */
  predicate Converged(window: seq<int>)
  {
    |window| >= WINDOW_SIZE && Min(window) == Max(window)
  }

  /** The stop test succeeds exactly when the window holds at least 30 makespans that are all equal. */
  lemma {:induction false} StopTestMeansConstant(window: seq<int>)
    requires window != []
    ensures StopTest(window) == Ok(Converged(window))
    ensures Converged(window) <==>
      |window| >= WINDOW_SIZE && forall i :: 0 <= i < |window| ==> window[i] == window[0]
  {
    MinIsSmallest(window);
    MaxIsLargest(window);
    if |window| >= WINDOW_SIZE && forall i :: 0 <= i < |window| ==> window[i] == window[0] {
      var lo, hi := Min(window), Max(window);
      var a :| 0 <= a < |window| && window[a] == lo;
      var b :| 0 <= b < |window| && window[b] == hi;
      assert lo == window[0] == hi;
    }
  }

  // ---------------------------------------------------------------- running minimum

  /**
   * `min_make_span` after seeing the given makespans (ppo_op.py:173, 206-207):
   * never above its start value 100000, and never above the latest makespan.
   */
  function RunningMin(seen: seq<int>): int
  {
    if seen == [] then INITIAL_MIN_MAKESPAN
    else
      var m := RunningMin(seen[..|seen| - 1]);
      var x := seen[|seen| - 1];
      if m > x then x else m
  }

  /**
   * The running minimum is at most 100000 and at most every makespan seen, and
   * it is either 100000 or one of the makespans seen.
   */
  lemma {:induction false} RunningMinBounds(seen: seq<int>)
    ensures RunningMin(seen) <= INITIAL_MIN_MAKESPAN
    ensures forall i :: 0 <= i < |seen| ==> RunningMin(seen) <= seen[i]
    ensures RunningMin(seen) == INITIAL_MIN_MAKESPAN || RunningMin(seen) in seen
  {
    if seen != [] {
      RunningMinBounds(seen[..|seen| - 1]);
    }
  }

  /** Seeing more makespans never increases the running minimum. */
  lemma {:induction false} RunningMinNonIncreasing(seen: seq<int>, more: seq<int>)
    ensures RunningMin(seen + more) <= RunningMin(seen)
    decreases |more|
  {
    if more != [] {
      var init := more[..|more| - 1];
      assert (seen + more)[..|seen + more| - 1] == seen + init;
      RunningMinNonIncreasing(seen, init);
      assert RunningMin(seen + more) <= RunningMin(seen + init);
    } else {
      assert seen + more == seen;
    }
  }

  /**
   * The value `train` returns first is the minimum of the window, not the running
   * minimum: a makespan of 5 followed by thirty of 7 returns 7 while the running
   * minimum is 5.
   */
  lemma {:induction false} ReturnedMinIsWindowMin(tail: seq<int>)
    requires |tail| == WINDOW_SIZE && forall i :: 0 <= i < |tail| ==> tail[i] == 7
    ensures Min(Window([5] + tail)) == 7
    ensures RunningMin([5] + tail) == 5
  {
    var seen := [5] + tail;
    RecentIsSuffix(seen, WINDOW_SIZE);
    assert Window(seen) == tail;
    MinIsSmallest(tail);
    RunningMinBounds(seen);
    assert RunningMin(seen) <= seen[0];
    assert forall i :: 0 <= i < |seen| ==> seen[i] >= 5;
  }

  // ---------------------------------------------------------------- the run

  /** One collected episode, with the epoch it was collected in. */
  datatype Record = Record(epoch: nat, episode: Episode)

  /**
   * The m-th episode of an epoch, as the environment plays it. Naming the
   * application of `episodeOf` keeps the verifier from reasoning about the
   * function value itself in the epoch loops, which is much cheaper.
   */
  function Play(episodeOf: (nat, nat) -> Episode, epoch: nat, m: nat): Episode
  {
    episodeOf(epoch, m)
  }

  /** The first `count` episodes of an epoch, in collection order. */
  function EpochRecords(episodeOf: (nat, nat) -> Episode, epoch: nat, count: nat): (r: seq<Record>)
    ensures |r| == count
  {
    if count == 0 then [] else EpochRecords(episodeOf, epoch, count - 1) + [Record(epoch, Play(episodeOf, epoch, count - 1))]
  }

  /** All episodes of the first `epochs` epochs, in collection order. */
  function History(episodeOf: (nat, nat) -> Episode, memorySize: nat, epochs: nat): seq<Record>
  {
    if epochs == 0 then [] else History(episodeOf, memorySize, epochs - 1) + EpochRecords(episodeOf, epochs - 1, memorySize)
  }

  /** `epochs * size`, by repeated addition: the number of episodes in `epochs` epochs of `size` episodes. */
  function Offset(epochs: nat, size: nat): nat
  {
    if epochs == 0 then 0 else Offset(epochs - 1, size) + size
  }

  lemma {:induction false} OffsetIsProduct(epochs: nat, size: nat)
    ensures Offset(epochs, size) == epochs * size
  {
    if epochs > 0 {
      OffsetIsProduct(epochs - 1, size);
      assert (epochs - 1) * size + size == epochs * size;
    }
  }

  lemma {:induction false} HistoryLength(episodeOf: (nat, nat) -> Episode, memorySize: nat, epochs: nat)
    ensures |History(episodeOf, memorySize, epochs)| == Offset(epochs, memorySize)
  {
    if epochs > 0 {
      HistoryLength(episodeOf, memorySize, epochs - 1);
    }
  }

  /** The makespans of a history. */
  function Makespans(history: seq<Record>): (r: seq<int>)
    ensures |r| == |history|
  {
    if history == [] then [] else Makespans(history[..|history| - 1]) + [history[|history| - 1].episode.makespan]
  }

  /** The results table after a history (ppo_op.py:211). */
  function Report(history: seq<Record>): (r: seq<ReportRow>)
    ensures |r| == |history|
  {
    if history == [] then []
    else
      var last := history[|history| - 1];
      Report(history[..|history| - 1]) +
        [ReportRow(|history| - 1, last.epoch, last.episode.makespan,
                   Sum(Rewards(last.episode.steps)), RunningMin(Makespans(history)))]
  }

  /** Row k of the report is episode k, with the running minimum over episodes 0..k. */
  lemma {:induction false} ReportRows(history: seq<Record>, k: nat)
    requires k < |history|
    ensures |Report(history)| == |history|
    ensures Report(history)[k] == ReportRow(k, history[k].epoch, history[k].episode.makespan,
      Sum(Rewards(history[k].episode.steps)), RunningMin(Makespans(history[..k + 1])))
  {
    var init := history[..|history| - 1];
    if k < |init| {
      ReportRows(init, k);
      assert init[..k + 1] == history[..k + 1];
    } else {
      assert history[..k + 1] == history;
      if init != [] {
        ReportRows(init, 0);
      }
    }
  }

  /**
   * The running minima in the report never increase from row to row, and each
   * is at most every makespan reported up to its row.
   */
  lemma {:induction false} ReportRunningMin(history: seq<Record>, j: nat, k: nat)
    requires j <= k < |history|
    ensures Report(history)[k].minMakeSpan <= Report(history)[j].minMakeSpan
    ensures Report(history)[k].minMakeSpan <= history[j].episode.makespan
  {
    var sj := Makespans(history[..j + 1]);
    var sk := Makespans(history[..k + 1]);
    assert Report(history)[j].minMakeSpan == RunningMin(sj) by {
      ReportRows(history, j);
    }
    assert Report(history)[k].minMakeSpan == RunningMin(sk) by {
      ReportRows(history, k);
    }
    assert RunningMin(sk) <= RunningMin(sj) by {
      MakespansPrefix(history, j + 1, k + 1);
      assert sj + sk[j + 1..] == sk;
      RunningMinNonIncreasing(sj, sk[j + 1..]);
    }
    assert RunningMin(sk) <= history[j].episode.makespan by {
      RunningMinBounds(sk);
      MakespansAt(history[..k + 1], j);
    }
  }

  lemma {:induction false} MakespansAt(history: seq<Record>, j: nat)
    requires j < |history|
    ensures Makespans(history)[j] == history[j].episode.makespan
  {
    if j < |history| - 1 {
      MakespansAt(history[..|history| - 1], j);
    }
  }

  lemma {:induction false} MakespansPrefix(history: seq<Record>, a: nat, b: nat)
    requires a <= b <= |history|
    ensures Makespans(history[..a]) == Makespans(history[..b])[..a]
    decreases b
  {
    if a < b {
      MakespansPrefix(history, a, b - 1);
      assert history[..b][..b - 1] == history[..b - 1];
    }
  }

  /** The bookkeeping `train` keeps across episodes: the window, `min_make_span` and the results table. */
  datatype Progress = Progress(window: seq<int>, minMakeSpan: int, report: seq<ReportRow>)

  /** What the bookkeeping should hold after a history: window, running minimum and report over all of it. */
  function After(history: seq<Record>): Progress
  {
    Progress(Window(Makespans(history)), RunningMin(Makespans(history)), Report(history))
  }

  /** The bookkeeping after one more episode, updated the way the loop body updates it (ppo_op.py:205-214). */
  function Observed(p: Progress, r: Record): Progress
  {
    var m := if p.minMakeSpan > r.episode.makespan then r.episode.makespan else p.minMakeSpan;
    Progress(PushWindow(p.window, r.episode.makespan), m,
             p.report + [ReportRow(|p.report|, r.epoch, r.episode.makespan, Sum(Rewards(r.episode.steps)), m)])
  }

  /**
   * Updating the bookkeeping one episode at a time agrees with the definitions
   * over the whole history: the window, the running minimum and the report.
   */
  lemma {:induction false} HistoryStep(history: seq<Record>, r: Record)
    ensures After(history + [r]) == Observed(After(history), r)
  {
    assert (history + [r])[..|history|] == history;
    WindowStep(Makespans(history), r.episode.makespan);
    var s := Makespans(history + [r]);
    assert s[..|s| - 1] == Makespans(history);
  }

  /**
   * The bookkeeping after one episode (ppo_op.py:205-214): the row keyed by the
   * episode index, the lowered running minimum and the window push.
   */
  method Observe(progress: Progress, index: nat, record: Record, episodeReward: real) returns (progress': Progress)
    requires index == |progress.report|
    requires episodeReward == Sum(Rewards(record.episode.steps))
    ensures progress' == Observed(progress, record)
  {
    var minMakeSpan := progress.minMakeSpan;
    if minMakeSpan > record.episode.makespan {
      minMakeSpan := record.episode.makespan;
    }
    var report := progress.report + [ReportRow(index, record.epoch, record.episode.makespan, episodeReward, minMakeSpan)];
    var window := progress.window + [record.episode.makespan];
    if |window| >= WINDOW_SIZE + 1 {
      window := window[1..];
    }
    progress' := Progress(window, minMakeSpan, report);
  }

  /** The bookkeeping after the first `count` episodes of an epoch, starting from `p`. */
  function EpochObserved(p: Progress, episodeOf: (nat, nat) -> Episode, epoch: nat, count: nat): Progress
  {
    if count == 0 then p
    else Observed(EpochObserved(p, episodeOf, epoch, count - 1), Record(epoch, Play(episodeOf, epoch, count - 1)))
  }

  /** The bookkeeping after the first `epochs` epochs. */
  function Trained(episodeOf: (nat, nat) -> Episode, memorySize: nat, epochs: nat): Progress
  {
    if epochs == 0 then Progress([], INITIAL_MIN_MAKESPAN, [])
    else EpochObserved(Trained(episodeOf, memorySize, epochs - 1), episodeOf, epochs - 1, memorySize)
  }

  lemma {:induction false} EpochObservedIsAfter(history: seq<Record>, episodeOf: (nat, nat) -> Episode, epoch: nat, count: nat)
    ensures EpochObserved(After(history), episodeOf, epoch, count) == After(history + EpochRecords(episodeOf, epoch, count))
  {
    if count == 0 {
      assert history + EpochRecords(episodeOf, epoch, count) == history;
    } else {
      var before := history + EpochRecords(episodeOf, epoch, count - 1);
      var r := Record(epoch, Play(episodeOf, epoch, count - 1));
      EpochObservedIsAfter(history, episodeOf, epoch, count - 1);
      HistoryStep(before, r);
      assert history + EpochRecords(episodeOf, epoch, count) == before + [r];
    }
  }

  /**
   * The bookkeeping the loop keeps after any number of epochs is the window of
   * the last 30 makespans, the running minimum and the report over every
   * episode collected so far.
   */
  lemma {:induction false} TrainedIsAfter(episodeOf: (nat, nat) -> Episode, memorySize: nat, epochs: nat)
    ensures Trained(episodeOf, memorySize, epochs) == After(History(episodeOf, memorySize, epochs))
  {
    if epochs > 0 {
      TrainedIsAfter(episodeOf, memorySize, epochs - 1);
      EpochObservedIsAfter(History(episodeOf, memorySize, epochs - 1), episodeOf, epochs - 1, memorySize);
    }
  }

  /** The report holds one row per episode, and the window is empty exactly when no episode was collected. */
  lemma {:induction false} TrainedSizes(episodeOf: (nat, nat) -> Episode, memorySize: nat, epochs: nat)
    ensures |Trained(episodeOf, memorySize, epochs).report| == Offset(epochs, memorySize)
    ensures Trained(episodeOf, memorySize, epochs).window == [] <==> memorySize == 0 || epochs == 0
  {
    TrainedIsAfter(episodeOf, memorySize, epochs);
    HistoryLength(episodeOf, memorySize, epochs);
    OffsetIsProduct(epochs, memorySize);
    var seen := Makespans(History(episodeOf, memorySize, epochs));
    if seen != [] {
      WindowHoldsMostRecent(seen, 0);
    }
  }

  /** The epoch lists after the first `count` episodes of an epoch. */
  function EpochAssembled(episodeOf: (nat, nat) -> Episode, epoch: nat, count: nat): EpochLists
  {
    if count == 0 then EpochLists([], [], [], [])
    else Extend(EpochAssembled(episodeOf, epoch, count - 1), Play(episodeOf, epoch, count - 1).steps, GAMMA)
  }

  /** The step sequences of a history's episodes. */
  function Episodes(records: seq<Record>): (r: seq<seq<Step>>)
    ensures |r| == |records|
  {
    seq(|records|, i requires 0 <= i < |records| => records[i].episode.steps)
  }

  /** Collecting one more episode appends its steps to the epoch lists. */
  lemma {:induction false} AssembledStep(records: seq<Record>, r: Record, gamma: real)
    ensures Assembled(Episodes(records + [r]), gamma) == Extend(Assembled(Episodes(records), gamma), r.episode.steps, gamma)
  {
    var e := Episodes(records + [r]);
    assert e[..|e| - 1] == Episodes(records);
  }

  /** The epoch lists the loop builds are those of the epoch's episodes in collection order. */
  lemma {:induction false} EpochAssembledIsAssembled(episodeOf: (nat, nat) -> Episode, epoch: nat, count: nat)
    ensures EpochAssembled(episodeOf, epoch, count) == Assembled(Episodes(EpochRecords(episodeOf, epoch, count)), GAMMA)
  {
    if count > 0 {
      EpochAssembledIsAssembled(episodeOf, epoch, count - 1);
      AssembledStep(EpochRecords(episodeOf, epoch, count - 1), Record(epoch, Play(episodeOf, epoch, count - 1)), GAMMA);
    }
  }

  /**
   * One epoch of `PPO.train` (ppo_op.py:177-218): collect `memorySize` episodes,
   * append each to the epoch lists, set the episode index `epoch * memorySize + m`
   * and observe the episode; then run the stop test on the window. Returns the
   * epoch lists that `update` receives, and the stop test's answer.
   */
  method RunEpoch(memorySize: nat, episodeOf: (nat, nat) -> Episode, epoch: nat, progress: Progress, index: nat)
    returns (lists: EpochLists, progress': Progress, index': nat, stop: Result<bool, TrainError>)
    requires progress == Trained(episodeOf, memorySize, epoch)
    ensures lists == Assembled(Episodes(EpochRecords(episodeOf, epoch, memorySize)), GAMMA)
    ensures progress' == Trained(episodeOf, memorySize, epoch + 1)
    ensures memorySize > 0 ==> index' + 1 == |progress'.report|
    ensures progress'.window == [] <==> memorySize == 0
    ensures stop == if memorySize == 0 then Err(EmptyWindow) else Ok(Converged(progress'.window))
  {
    TrainedSizes(episodeOf, memorySize, epoch);
    lists, progress', index' := EpochLists([], [], [], []), progress, index;
    OffsetIsProduct(epoch, memorySize);
    for m := 0 to memorySize
      invariant lists == EpochAssembled(episodeOf, epoch, m)
      invariant progress' == EpochObserved(progress, episodeOf, epoch, m)
      invariant |progress'.report| == |progress.report| + m
      invariant m > 0 ==> index' == |progress.report| + m - 1
    {
      var episode := Play(episodeOf, epoch, m);
      var episodeReward;
      lists, episodeReward := AddEpisode(lists, episode.steps, GAMMA);
      index' := epoch * memorySize + m;
      progress' := Observe(progress', index', Record(epoch, episode), episodeReward);
    }
    EpochAssembledIsAssembled(episodeOf, epoch, memorySize);
    TrainedSizes(episodeOf, memorySize, epoch + 1);
    // self.update(lists) is not called: the epoch goes on as if it succeeded. Its priority
    // bookkeeping and its failures are modelled by PriorityReplay.PriorityBuffer.Update.
    stop := StopTest(progress'.window);
    if progress'.window != [] {
      StopTestMeansConstant(progress'.window);
    }
  }

  /**
   * `PPO.train` without the networks, the update and the I/O: at most 4000
   * epochs; an epoch starts only while the elapsed time is within the budget;
   * the run stops after an epoch whose window holds 30 equal makespans. It
   * returns `(min(window), index of the last episode)`. Elapsed time only
   * grows, so the clock is modelled by `inTime`, the number of epochs that
   * start within the 3600-second budget; elapsed time itself is not returned.
   */
  method Train(memorySize: nat, episodeOf: (nat, nat) -> Episode, inTime: nat)
    returns (outcome: Result<(int, int), TrainError>, epochs: nat, report: seq<ReportRow>)
    ensures epochs <= MAX_EPOCHS && epochs <= inTime
    ensures report == Trained(episodeOf, memorySize, epochs).report
    ensures forall e {:trigger Converged(Trained(episodeOf, memorySize, e).window)} ::
      1 <= e < epochs ==> !Converged(Trained(episodeOf, memorySize, e).window)
    ensures outcome.Ok? <==> memorySize > 0 && epochs > 0
    ensures outcome.Ok? ==>
      epochs == MAX_EPOCHS || epochs == inTime || Converged(Trained(episodeOf, memorySize, epochs).window)
    ensures outcome.Ok? ==> outcome.value.0 == Min(Trained(episodeOf, memorySize, epochs).window)
    ensures outcome.Ok? ==> outcome.value.1 == |report| - 1
    ensures outcome.Err? ==> (epochs == 0 && inTime == 0) || (memorySize == 0 && epochs == 1)
  {
    var index: nat := 0;
    var converged: nat := 0;
    var progress := Progress([], INITIAL_MIN_MAKESPAN, []);
    epochs := 0;
    while epochs < MAX_EPOCHS
      invariant epochs <= MAX_EPOCHS && epochs <= inTime
      invariant progress == Trained(episodeOf, memorySize, epochs)
      invariant epochs > 0 ==> memorySize > 0 && converged + 1 == |progress.report|
      invariant forall e {:trigger Converged(Trained(episodeOf, memorySize, e).window)} ::
        1 <= e <= epochs ==> !Converged(Trained(episodeOf, memorySize, e).window)
    {
      if epochs >= inTime {
        break;
      }
      var lists, stop;
      lists, progress, index, stop := RunEpoch(memorySize, episodeOf, epochs, progress, index);
      converged := index;
      epochs := epochs + 1;
      if stop != Ok(false) {
        // Either the window holds 30 equal makespans, or it is empty and the run fails.
        break;
      }
    }
    report := progress.report;
    if progress.window == [] {
      outcome := Err(EmptyWindow);
    } else {
      outcome := Ok((Min(progress.window), converged));
    }
  }
}
