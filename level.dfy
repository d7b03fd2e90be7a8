/** The level's cruising speed, eased toward a boost-dependent target, and the
    distance travelled so far. */
module Levels {
  import opened Geometry

  const BaseSpeed: real := 0.2
  /** Boosting aims for two and a half times the base speed. */
  const BoostSpeed: real := BaseSpeed * 2.5

  function TargetSpeed(boost: bool): (r: real)
    ensures BaseSpeed <= r <= BoostSpeed
    ensures r == BoostSpeed <==> boost
  {
    if boost then BoostSpeed else BaseSpeed
  }

  /** One easing step: the speed closes a tenth of its gap to the target. */
  function Ease(speed: real, target: real): (r: real)
    ensures target - r == (target - speed) * 0.9
    ensures speed <= target ==> speed <= r <= target
    ensures target <= speed ==> target <= r <= speed
  {
    speed + (target - speed) * 0.1
  }

  /** The speed after k frames that all aim for the same target. */
  function EaseSteps(speed: real, target: real, k: nat): real
    decreases k
  {
    if k == 0 then speed else EaseSteps(Ease(speed, target), target, k - 1)
  }

  /** The gap to the target shrinks geometrically: after k frames, 0.9^k of it remains. */
  lemma {:induction false} EaseStepsGap(speed: real, target: real, k: nat)
    ensures target - EaseSteps(speed, target, k) == (target - speed) * Pow(0.9, k)
    decreases k
  {
    if k > 0 {
      EaseStepsGap(Ease(speed, target), target, k - 1);
      calc {
        target - EaseSteps(speed, target, k);
        (target - Ease(speed, target)) * Pow(0.9, k - 1);
        (target - speed) * 0.9 * Pow(0.9, k - 1);
      }
    }
  }

  /** Holding the boost key steady, the speed moves monotonically toward the target
      and never overshoots it, from either side. */
  lemma {:induction false} EaseStepsMonotone(speed: real, target: real, k: nat)
    ensures speed <= target ==>
      speed <= EaseSteps(speed, target, k) <= EaseSteps(speed, target, k + 1) <= target
    ensures target <= speed ==>
      target <= EaseSteps(speed, target, k + 1) <= EaseSteps(speed, target, k) <= speed
    decreases k
  {
    if k > 0 {
      EaseStepsMonotone(Ease(speed, target), target, k - 1);
    }
  }

  class Level {
    var currentSpeed: real
    var progress: real

    /** The speed never leaves the band between the two targets. */
    ghost predicate Valid()
      reads this
    {
      BaseSpeed <= currentSpeed <= BoostSpeed
    }

    constructor ()
      ensures Valid()
      ensures currentSpeed == BaseSpeed && progress == 0.0
    {
      currentSpeed := BaseSpeed;
      progress := 0.0;
    }

    method Update(boost: bool) returns (r: real)
      requires Valid()
      modifies this
      ensures Valid()
      ensures currentSpeed == Ease(old(currentSpeed), TargetSpeed(boost))
      ensures progress == old(progress) + currentSpeed
      ensures progress > old(progress)
      ensures r == progress
    {
      var target := if boost then BaseSpeed * 2.5 else BaseSpeed;
      currentSpeed := currentSpeed + (target - currentSpeed) * 0.1;
      progress := progress + currentSpeed;
      return progress;
    }
  }
}
