/**
 * The clipped surrogate objective of `PPO.learn` (ppo_op.py:114-118).
 * Ratios and advantages are inputs: the networks that produce them are not modelled.
 */
module ClippedSurrogate {
  import opened Sums

  /** Default clip range of the trainer (ppo_op.py:47, 52). */
  const CLIP_EPSILON: real := 0.2

  function Min(a: real, b: real): real { if a <= b then a else b }
  function Max(a: real, b: real): real { if a >= b then a else b }

  /** `torch.clamp(x, lo, hi)`, which is `min(max(x, lo), hi)`. */
  function Clamp(x: real, lo: real, hi: real): (r: real)
    ensures lo <= hi ==> lo <= r <= hi
    ensures lo <= x <= hi ==> r == x
  {
    Min(Max(x, lo), hi)
  }

  /**
   * The per-transition term `min(ratio * A, clamp(ratio, 1 - eps, 1 + eps) * A)`:
   * it never exceeds the unclipped term `ratio * A`, and inside the trust region
   * `1 - eps <= ratio <= 1 + eps` it is that term.
   */
  function Surrogate(ratio: real, advantage: real, eps: real): (r: real)
    ensures r <= ratio * advantage
    ensures 1.0 - eps <= ratio <= 1.0 + eps ==> r == ratio * advantage
  {
    Min(ratio * advantage, Clamp(ratio, 1.0 - eps, 1.0 + eps) * advantage)
  }

  /** With a non-negative advantage only the upper clip is active. */
  lemma {:induction false} SurrogateNonNegativeAdvantage(ratio: real, advantage: real, eps: real)
    requires eps >= 0.0 && advantage >= 0.0
    ensures Surrogate(ratio, advantage, eps) == Min(ratio, 1.0 + eps) * advantage
  {
    var c := Clamp(ratio, 1.0 - eps, 1.0 + eps);
    if ratio <= c {
      assert ratio * advantage <= c * advantage;
    } else {
      assert c * advantage <= ratio * advantage;
    }
  }

  /** With a negative advantage only the lower clip is active. */
  lemma {:induction false} SurrogateNegativeAdvantage(ratio: real, advantage: real, eps: real)
    requires eps >= 0.0 && advantage < 0.0
    ensures Surrogate(ratio, advantage, eps) == Max(ratio, 1.0 - eps) * advantage
  {
    var c := Clamp(ratio, 1.0 - eps, 1.0 + eps);
    if ratio <= c {
      assert c * advantage <= ratio * advantage;
    } else {
      assert ratio * advantage <= c * advantage;
    }
  }

  /** The clipped term is continuous at both clip boundaries: it agrees there with the unclipped term. */
  lemma {:induction false} SurrogateAtBoundaries(advantage: real, eps: real)
    requires eps >= 0.0
    ensures Surrogate(1.0 - eps, advantage, eps) == (1.0 - eps) * advantage
    ensures Surrogate(1.0 + eps, advantage, eps) == (1.0 + eps) * advantage
  {
  }

  /**
   * With the trainer's clip range 0.2, one transition's clipped term credits a
   * positive advantage with at most 1.2 times it and charges a negative one
   * with at least 0.8 times it, whatever the ratio.
   */
  lemma {:induction false} TrainerClipBounds(ratio: real, advantage: real)
    ensures advantage >= 0.0 ==> Surrogate(ratio, advantage, CLIP_EPSILON) <= 1.2 * advantage
    ensures advantage < 0.0 ==> Surrogate(ratio, advantage, CLIP_EPSILON) <= 0.8 * advantage
  {
    if advantage >= 0.0 {
      SurrogateNonNegativeAdvantage(ratio, advantage, CLIP_EPSILON);
      assert Min(ratio, 1.2) * advantage <= 1.2 * advantage;
    } else {
      SurrogateNegativeAdvantage(ratio, advantage, CLIP_EPSILON);
      assert Max(ratio, 0.8) * advantage <= 0.8 * advantage;
    }
  }

  /** The per-transition clipped terms of a batch. */
  function SurrogateTerms(ratios: seq<real>, advantages: seq<real>, eps: real): (r: seq<real>)
    requires |ratios| == |advantages|
    ensures |r| == |ratios|
  {
    seq(|ratios|, i requires 0 <= i < |ratios| => Surrogate(ratios[i], advantages[i], eps))
  }

  /** The per-transition unclipped terms `ratio * A` of a batch. */
  function UnclippedTerms(ratios: seq<real>, advantages: seq<real>): (r: seq<real>)
    requires |ratios| == |advantages|
    ensures |r| == |ratios|
  {
    seq(|ratios|, i requires 0 <= i < |ratios| => ratios[i] * advantages[i])
  }

  /**
   * `action_loss = -mean(min(surrogate, clip_loss))` (ppo_op.py:118). When every
   * ratio of the batch lies in the trust region, the loss is the unclipped
   * policy-gradient loss `-mean(ratio * A)`.
   */
  function ActorLoss(ratios: seq<real>, advantages: seq<real>, eps: real): (r: real)
    requires |ratios| == |advantages| && |ratios| > 0
    ensures (forall i :: 0 <= i < |ratios| ==> 1.0 - eps <= ratios[i] <= 1.0 + eps) ==>
      r == -(Sum(UnclippedTerms(ratios, advantages)) / (|ratios| as real))
  {
    var clipped := SurrogateTerms(ratios, advantages, eps);
    assert (forall i :: 0 <= i < |ratios| ==> 1.0 - eps <= ratios[i] <= 1.0 + eps) ==>
      clipped == UnclippedTerms(ratios, advantages);
    -(Sum(clipped) / (|ratios| as real))
  }

  /**
   * The clipped objective is a pessimistic bound: the actor loss is never below the
   * loss of the unclipped objective `-mean(ratio * A)`.
   */
  lemma {:induction false} ActorLossPessimistic(ratios: seq<real>, advantages: seq<real>, eps: real)
    requires |ratios| == |advantages| && |ratios| > 0
    ensures ActorLoss(ratios, advantages, eps) >= -(Sum(UnclippedTerms(ratios, advantages)) / (|ratios| as real))
  {
    var clipped := SurrogateTerms(ratios, advantages, eps);
    var unclipped := UnclippedTerms(ratios, advantages);
    forall i | 0 <= i < |ratios|
      ensures clipped[i] <= unclipped[i]
    {
      assert clipped[i] == Surrogate(ratios[i], advantages[i], eps);
    }
    SumMonotone(clipped, unclipped);
    var n := |ratios| as real;
    assert Sum(clipped) / n <= Sum(unclipped) / n;
  }
}
