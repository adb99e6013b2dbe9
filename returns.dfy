/**
 * Discounted returns of one episode: the backward pass `v <- r + gamma * v`
 * over the episode's rewards, followed by a reversal (ppo_op.py:193-198).
 */
module DiscountedReturn {

  /** Reward discount factor of the trainer (ppo_op.py:57). */
  const GAMMA: real := 0.999

  /** The reversal of a sequence, as done by `list.reverse()` and `[::-1]`. */
  function Reversed<T>(s: seq<T>): (r: seq<T>)
    ensures |r| == |s|
    ensures forall i :: 0 <= i < |s| ==> r[i] == s[|s| - 1 - i]
  {
    if s == [] then [] else Reversed(s[1..]) + [s[0]]
  }

  /** First element, or 0 past the end of the episode. */
  function HeadOrZero(s: seq<real>): real
  {
    if s == [] then 0.0 else s[0]
  }

  /** One step of the backward accumulation: r + gamma * v. */
  function Accumulate(r: real, gamma: real, v: real): real
  {
    r + gamma * v
  }

  /** The discounted returns: G_i = r_i + gamma * G_(i+1), with 0 after the last step. */
  function Returns(rewards: seq<real>, gamma: real): (g: seq<real>)
    ensures |g| == |rewards|
  {
    if rewards == [] then []
    else
      var rest := Returns(rewards[1..], gamma);
      [Accumulate(rewards[0], gamma, HeadOrZero(rest))] + rest
  }

  /** gamma^k. */
  function Pow(gamma: real, k: nat): real
  {
    if k == 0 then 1.0 else gamma * Pow(gamma, k - 1)
  }

  /** sum_j gamma^(e+j) * s[j]. */
  function PowerSumFrom(s: seq<real>, gamma: real, e: nat): real
  {
    if s == [] then 0.0 else Pow(gamma, e) * s[0] + PowerSumFrom(s[1..], gamma, e + 1)
  }

  /** The closed form sum_k gamma^k * s[k]. */
  function DiscountedSum(s: seq<real>, gamma: real): real
  {
    PowerSumFrom(s, gamma, 0)
  }

  /** Raising every exponent by one multiplies the sum by gamma. */
  lemma {:induction false} PowerSumShift(s: seq<real>, gamma: real, e: nat)
    ensures PowerSumFrom(s, gamma, e + 1) == gamma * PowerSumFrom(s, gamma, e)
  {
    if s != [] {
      PowerSumShift(s[1..], gamma, e + 1);
    }
  }

  /** Every return satisfies the backward recursion; the last return is the last reward. */
  lemma {:induction false} ReturnsRecurrence(rewards: seq<real>, gamma: real, i: nat)
    requires i < |rewards|
    ensures i + 1 < |rewards| ==>
      Returns(rewards, gamma)[i] == rewards[i] + gamma * Returns(rewards, gamma)[i + 1]
    ensures i + 1 == |rewards| ==> Returns(rewards, gamma)[i] == rewards[i]
  {
    var rest := Returns(rewards[1..], gamma);
    assert Returns(rewards, gamma) == [Accumulate(rewards[0], gamma, HeadOrZero(rest))] + rest;
    if i > 0 {
      ReturnsRecurrence(rewards[1..], gamma, i - 1);
      assert rewards[1..][i - 1] == rewards[i];
    }
  }

  /** The returns of a suffix are the suffix of the returns. */
  lemma {:induction false} ReturnsSuffix(rewards: seq<real>, gamma: real, i: nat)
    requires i <= |rewards|
    ensures Returns(rewards, gamma)[i..] == Returns(rewards[i..], gamma)
  {
    if i > 0 {
      ReturnsSuffix(rewards[1..], gamma, i - 1);
      assert rewards[1..][i - 1..] == rewards[i..];
    }
  }

  /** The first return is the discounted sum of all rewards. */
  lemma {:induction false} FirstReturnClosedForm(rewards: seq<real>, gamma: real)
    requires rewards != []
    ensures Returns(rewards, gamma)[0] == DiscountedSum(rewards, gamma)
  {
    var rest := rewards[1..];
    if rest != [] {
      FirstReturnClosedForm(rest, gamma);
    }
    PowerSumShift(rest, gamma, 0);
  }

  /** G_i = sum_k gamma^k * r_(i+k). */
  lemma {:induction false} ReturnsClosedForm(rewards: seq<real>, gamma: real, i: nat)
    requires i < |rewards|
    ensures Returns(rewards, gamma)[i] == DiscountedSum(rewards[i..], gamma)
  {
    ReturnsSuffix(rewards, gamma, i);
    FirstReturnClosedForm(rewards[i..], gamma);
  }

  /** Rewards [1, 2, 3] with gamma 0.9 give returns [5.23, 4.7, 3.0]. */
  lemma {:induction false} ReturnsExample()
    ensures Returns([1.0, 2.0, 3.0], 0.9) == [5.23, 4.7, 3.0]
  {
    assert [1.0, 2.0, 3.0][1..] == [2.0, 3.0];
    assert [2.0, 3.0][1..] == [3.0];
  }

  /**
   * The backward accumulation of ppo_op.py:193-198: walk the rewards from the last
   * to the first, keep `v <- r + gamma * v`, collect each `v`, then reverse.
   */
  method ComputeReturns(rewards: seq<real>, gamma: real) returns (discounted: seq<real>)
    ensures discounted == Returns(rewards, gamma)
  {
    var n := |rewards|;
    var backwards := Reversed(rewards);
    var v := 0.0;
    var acc: seq<real> := [];
    for k := 0 to n
      invariant acc == Reversed(Returns(rewards[n - k..], gamma))
      invariant v == HeadOrZero(Returns(rewards[n - k..], gamma))
    {
      var suffix := rewards[n - k..];
      var longer := rewards[n - k - 1..];
      assert longer == [rewards[n - k - 1]] + suffix;
      assert longer[1..] == suffix;
      assert backwards[k] == rewards[n - 1 - k] == longer[0];
      var rest := Returns(suffix, gamma);
      var g := Returns(longer, gamma);
      assert g == [Accumulate(longer[0], gamma, HeadOrZero(rest))] + rest;
      v := Accumulate(backwards[k], gamma, v);
      acc := acc + [v];
      assert g == [v] + rest;
      assert g[1..] == Returns(suffix, gamma);
      assert Reversed(g) == Reversed(g[1..]) + [g[0]];
    }
    assert rewards[n - n..] == rewards;
    discounted := Reversed(acc);
    assert discounted == Returns(rewards, gamma);
  }
}
