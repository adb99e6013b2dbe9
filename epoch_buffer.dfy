/**
 * Rollout recording and epoch-buffer assembly of `PPO.train` (ppo_op.py:177-203).
 * The environment is abstract: an episode is the sequence of steps it produced,
 * ending with the step at which it reported `done`.
 */
module EpochBuffer {
  import opened Sums
  import opened DiscountedReturn

  /** An environment observation vector. */
  type State = seq<real>

  /** What one iteration of the rollout loop records (ppo_op.py:183-188). */
  datatype Step = Step(state: State, action: int, reward: real, prob: real)

  function States(steps: seq<Step>): seq<State>
  {
    seq(|steps|, i requires 0 <= i < |steps| => steps[i].state)
  }

  function Actions(steps: seq<Step>): seq<int>
  {
    seq(|steps|, i requires 0 <= i < |steps| => steps[i].action)
  }

  function Rewards(steps: seq<Step>): seq<real>
  {
    seq(|steps|, i requires 0 <= i < |steps| => steps[i].reward)
  }

  function Probs(steps: seq<Step>): seq<real>
  {
    seq(|steps|, i requires 0 <= i < |steps| => steps[i].prob)
  }

  /** Recording one more step extends each projection by that step's field. */
  lemma {:induction false} ProjectionsExtend(steps: seq<Step>, t: nat)
    requires t < |steps|
    ensures States(steps[..t + 1]) == States(steps[..t]) + [steps[t].state]
    ensures Actions(steps[..t + 1]) == Actions(steps[..t]) + [steps[t].action]
    ensures Rewards(steps[..t + 1]) == Rewards(steps[..t]) + [steps[t].reward]
    ensures Probs(steps[..t + 1]) == Probs(steps[..t]) + [steps[t].prob]
  {
  }

  /**
   * The rollout loop of ppo_op.py:182-191: per step, append the state, action,
   * reward and action probability to the episode lists and add the reward to
   * the episode reward.
   */
  method Rollout(steps: seq<Step>)
    returns (bufferS: seq<State>, bufferA: seq<int>, bufferR: seq<real>, bufferP: seq<real>, episodeReward: real)
    ensures bufferS == States(steps) && bufferA == Actions(steps)
    ensures bufferR == Rewards(steps) && bufferP == Probs(steps)
    ensures episodeReward == Sum(Rewards(steps))
  {
    bufferS, bufferA, bufferR, bufferP := [], [], [], [];
    episodeReward := 0.0;
    for t := 0 to |steps|
      invariant bufferS == States(steps[..t]) && bufferA == Actions(steps[..t])
      invariant bufferR == Rewards(steps[..t]) && bufferP == Probs(steps[..t])
      invariant episodeReward == Sum(bufferR)
    {
      var step := steps[t];
      ProjectionsExtend(steps, t);
      bufferS := bufferS + [step.state];
      bufferA := bufferA + [step.action];
      bufferR := bufferR + [step.reward];
      bufferP := bufferP + [step.prob];
      episodeReward := episodeReward + step.reward;
      assert bufferR[..|bufferR| - 1] == Rewards(steps[..t]);
    }
    assert steps[..|steps|] == steps;
  }

  /** The four parallel epoch lists `bs`, `ba`, `br`, `bp` (ppo_op.py:177). */
  datatype EpochLists = EpochLists(bs: seq<State>, ba: seq<int>, br: seq<real>, bp: seq<real>)

  /** The epoch lists after appending one finished episode (ppo_op.py:193-203). */
  function Extend(lists: EpochLists, steps: seq<Step>, gamma: real): EpochLists
  {
    EpochLists(lists.bs + States(steps), lists.ba + Actions(steps),
               lists.br + Returns(Rewards(steps), gamma), lists.bp + Probs(steps))
  }

  /**
   * Appending an episode grows each of the four lists by the episode length,
   * keeps lists of equal length equal, leaves the earlier entries unchanged and
   * puts the new entries in time order, the returns being those of the episode.
   */
  lemma {:induction false} ExtendAppends(lists: EpochLists, steps: seq<Step>, gamma: real, t: nat)
    ensures var r := Extend(lists, steps, gamma);
      |r.bs| == |lists.bs| + |steps| && |r.ba| == |lists.ba| + |steps| &&
      |r.br| == |lists.br| + |steps| && |r.bp| == |lists.bp| + |steps| &&
      r.bs[..|lists.bs|] == lists.bs && r.ba[..|lists.ba|] == lists.ba &&
      r.br[..|lists.br|] == lists.br && r.bp[..|lists.bp|] == lists.bp
    ensures var r := Extend(lists, steps, gamma);
      t < |steps| ==>
        r.bs[|lists.bs| + t] == steps[t].state && r.ba[|lists.ba| + t] == steps[t].action &&
        r.br[|lists.br| + t] == Returns(Rewards(steps), gamma)[t] && r.bp[|lists.bp| + t] == steps[t].prob
  {
    var r := Extend(lists, steps, gamma);
    assert r.bs[..|lists.bs|] == lists.bs;
    assert r.ba[..|lists.ba|] == lists.ba;
    assert r.br[..|lists.br|] == lists.br;
    assert r.bp[..|lists.bp|] == lists.bp;
  }

  /**
   * One finished episode (ppo_op.py:179-203): record it, compute its discounted
   * returns and append the four episode lists at the end of the epoch lists by
   * end-slice assignment. Returns the episode reward.
   */
  method AddEpisode(lists: EpochLists, steps: seq<Step>, gamma: real) returns (lists': EpochLists, episodeReward: real)
    ensures lists' == Extend(lists, steps, gamma)
    ensures episodeReward == Sum(Rewards(steps))
  {
    var bufferS, bufferA, bufferR, bufferP;
    bufferS, bufferA, bufferR, bufferP, episodeReward := Rollout(steps);
    var discounted := ComputeReturns(bufferR, gamma);
    lists' := EpochLists(lists.bs + bufferS, lists.ba + bufferA, lists.br + discounted, lists.bp + bufferP);
  }

  /** The epoch lists built from a sequence of episodes, in collection order. */
  function Assembled(episodes: seq<seq<Step>>, gamma: real): EpochLists
  {
    if episodes == [] then EpochLists([], [], [], [])
    else Extend(Assembled(episodes[..|episodes| - 1], gamma), episodes[|episodes| - 1], gamma)
  }

  /** Total number of steps in a sequence of episodes. */
  function TotalSteps(episodes: seq<seq<Step>>): nat
  {
    if episodes == [] then 0 else TotalSteps(episodes[..|episodes| - 1]) + |episodes[|episodes| - 1]|
  }

  /**
   * The assembled lists have equal lengths, one entry per step, and the t-th step
   * of episode e sits at the position after all earlier episodes' steps, with
   * its discounted return computed within its own episode.
   */
  lemma {:induction false} AssembledLayout(episodes: seq<seq<Step>>, gamma: real, e: nat, t: nat)
    requires e < |episodes| && t < |episodes[e]|
    ensures var r := Assembled(episodes, gamma);
      |r.bs| == TotalSteps(episodes) && |r.ba| == |r.bs| && |r.br| == |r.bs| && |r.bp| == |r.bs| &&
      TotalSteps(episodes[..e]) + t < |r.bs| &&
      r.bs[TotalSteps(episodes[..e]) + t] == episodes[e][t].state &&
      r.ba[TotalSteps(episodes[..e]) + t] == episodes[e][t].action &&
      r.br[TotalSteps(episodes[..e]) + t] == Returns(Rewards(episodes[e]), gamma)[t] &&
      r.bp[TotalSteps(episodes[..e]) + t] == episodes[e][t].prob
    decreases |episodes|
  {
    var init := episodes[..|episodes| - 1];
    if e == |episodes| - 1 {
      assert episodes[..e] == init;
      AssembledLength(init, gamma);
    } else {
      assert init[..e] == episodes[..e];
      AssembledLayout(init, gamma, e, t);
    }
  }

  /** The assembled lists have equal lengths, one entry per step. */
  lemma {:induction false} AssembledLength(episodes: seq<seq<Step>>, gamma: real)
    ensures var r := Assembled(episodes, gamma);
      |r.bs| == TotalSteps(episodes) && |r.ba| == |r.bs| && |r.br| == |r.bs| && |r.bp| == |r.bs|
  {
    if episodes != [] {
      AssembledLength(episodes[..|episodes| - 1], gamma);
    }
  }
}
