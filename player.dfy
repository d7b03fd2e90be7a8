/** The player's ship: steering and forward motion, firing, and the bookkeeping of
    its lasers in flight. */
module Players {
  import opened Geometry
  import opened Input
  import opened Lasers

  const BankingSensitivity: real := 0.1
  const BaseSpeed: real := 1.0
  const BoostMultiplier: real := 2.0
  const WarpMultiplier: real := 8.0
  const MaxRoll: real := 1.5
  /** How far the ship steers on each axis for a full deflection of the input. */
  const ReachX: real := 50.0
  const ReachY: real := 40.0

  /** Forward distance per frame: warp beats boost, boost beats cruising. */
  function FrameSpeed(boosting: bool, warping: bool): (r: real)
    ensures r == BaseSpeed * WarpMultiplier <==> warping
    ensures r == BaseSpeed * BoostMultiplier <==> boosting && !warping
    ensures r == BaseSpeed <==> !boosting && !warping
  {
    if warping then BaseSpeed * WarpMultiplier
    else if boosting then BaseSpeed * BoostMultiplier
    else BaseSpeed
  }

  /** The fraction of the remaining gap the ship closes per frame; steering is damped
      most under warp, less under boost. */
  function Sensitivity(boosting: bool, warping: bool): (r: real)
    ensures 0.0 < r <= BankingSensitivity
    ensures warping ==> r == BankingSensitivity * 0.6
    ensures !warping && boosting ==> r == BankingSensitivity * 0.8
    ensures !warping && !boosting ==> r == BankingSensitivity
  {
    BankingSensitivity * (if warping then 0.6 else if boosting then 0.8 else 1.0)
  }

  /** `current` moved the fraction `rate` of the way toward `target`. */
  function Approach(current: real, target: real, rate: real): (r: real)
    ensures target - r == (target - current) * (1.0 - rate)
    ensures 0.0 <= rate <= 1.0 && current <= target ==> current <= r <= target
    ensures 0.0 <= rate <= 1.0 && target <= current ==> target <= r <= current
  {
    var r := current + (target - current) * rate;
    FractionBounds(current, target, rate, r);
    r
  }

  /** Moving a fraction in [0, 1] of the way toward a target leaves a point between
      the start and the target, and the remaining gap shrinks by the factor 1 - rate. */
  lemma FractionBounds(current: real, target: real, rate: real, r: real)
    requires r == current + (target - current) * rate
    ensures target - r == (target - current) * (1.0 - rate)
    ensures 0.0 <= rate <= 1.0 && current <= target ==> current <= r <= target
    ensures 0.0 <= rate <= 1.0 && target <= current ==> target <= r <= current
  {
    var gap := target - current;
    assert gap * rate + gap * (1.0 - rate) == gap;
    if 0.0 <= rate <= 1.0 && gap >= 0.0 {
      MulNonNegative(gap, rate);
      MulNonNegative(gap, 1.0 - rate);
    }
    if 0.0 <= rate <= 1.0 && gap <= 0.0 {
      MulNonNegative(-gap, rate);
      MulNonNegative(-gap, 1.0 - rate);
      assert (-gap) * rate == -(gap * rate);
      assert (-gap) * (1.0 - rate) == -(gap * (1.0 - rate));
    }
  }

  /** The ship's position after one frame of steering input (x, y) in [-1, 1]. */
  function Moved(position: Vec3, x: real, y: real, boosting: bool, warping: bool): (r: Vec3)
    // the ship ends between where it was and where the input points, on both axes
    ensures position.x <= ReachX * x ==> position.x <= r.x <= ReachX * x
    ensures ReachX * x <= position.x ==> ReachX * x <= r.x <= position.x
    ensures position.y <= ReachY * y ==> position.y <= r.y <= ReachY * y
    ensures ReachY * y <= position.y ==> ReachY * y <= r.y <= position.y
    // and always advances by exactly one frame's speed
    ensures r.z == position.z - FrameSpeed(boosting, warping)
    ensures r.z < position.z
  {
    var rate := Sensitivity(boosting, warping);
    Vec3(Approach(position.x, x * ReachX, rate), Approach(position.y, y * ReachY, rate),
      position.z - FrameSpeed(boosting, warping))
  }

  /** The ship's new bank angle, eased toward the roll the input asks for; hard
      deflections bank half again as fast. */
  function Banked(angle: real, x: real, boosting: bool, warping: bool): (r: real)
    ensures angle <= -x * MaxRoll ==> angle <= r <= -x * MaxRoll
    ensures -x * MaxRoll <= angle ==> -x * MaxRoll <= r <= angle
  {
    var factor := if Abs(x) > 0.5 then 1.5 else 1.0;
    Approach(angle, -x * MaxRoll, Sensitivity(boosting, warping) * factor)
  }

  /** A laser whose current state is one update past `before`, and whose update
      reported `expired`. */
  ghost predicate Advanced(l: Laser, before: LaserState, expired: bool)
    reads l, l.trail
  {
    |before.trail| == TrailFloats && Step(before) == (l.State(), expired)
  }

  /** Distinct, well-formed lasers that own distinct trail buffers. */
  ghost predicate Separate(L: seq<Laser>) {
    (forall k :: 0 <= k < |L| ==> L[k].Valid()) &&
    forall j, k :: 0 <= j < |L| && 0 <= k < |L| && j != k ==> L[j] != L[k] && L[j].trail != L[k].trail
  }

  /** The first n lasers of `L` still have their states `S`. */
  ghost predicate Untouched(L: seq<Laser>, S: seq<LaserState>, n: nat)
    requires n <= |L| == |S|
    reads set l | l in L, set l | l in L :: l.trail
  {
    forall k :: 0 <= k < n ==> L[k].State() == S[k]
  }

  /** The lasers of `L` from index n on are each one update past their states in `S`,
      and `expired` holds what those updates reported. */
  ghost predicate AllAdvanced(L: seq<Laser>, S: seq<LaserState>, n: nat, expired: seq<bool>)
    requires n <= |L| == |S| && |expired| == |L| - n
    reads set l | l in L, set l | l in L :: l.trail
  {
    forall k :: n <= k < |L| ==> Advanced(L[k], S[k], expired[k - n])
  }

  class Player {
    var position: Vec3
    var rollAngle: real
    var boosting: bool
    var particlesVisible: bool
    var particleScale: real
    var lasers: seq<Laser>
    var canShoot: bool

    /** The lasers in flight are distinct, well formed, and own distinct trail buffers. */
    ghost predicate Valid()
      reads this
    {
      (forall l :: l in lasers ==> l.Valid()) &&
      NoDup(lasers) &&
      (forall a, b :: a in lasers && b in lasers && a != b ==> a.trail != b.trail)
    }

    constructor ()
      ensures Valid()
      ensures position == Origin && rollAngle == 0.0
      ensures lasers == [] && canShoot && !boosting && !particlesVisible
    {
      position := Origin;
      rollAngle := 0.0;
      boosting := false;
      particlesVisible := false;
      particleScale := 1.0;
      lasers := [];
      canShoot := true;
    }

    method Move(x: real, y: real, boosting: bool, warping: bool)
      modifies this`position, this`rollAngle, this`boosting, this`particlesVisible, this`particleScale
      ensures position == Moved(old(position), x, y, boosting, warping)
      ensures rollAngle == Banked(old(rollAngle), x, boosting, warping)
      ensures this.boosting == boosting
      ensures particlesVisible == (boosting || warping)
      ensures particleScale == if !particlesVisible then old(particleScale)
                               else if warping then 2.0 else 1.5
    {
      var targetX := x * ReachX;
      var targetY := y * ReachY;
      var roll := -x * MaxRoll;
      var bankingFactor := if Abs(x) > 0.5 then 1.5 else 1.0;
      var sensitivity := BankingSensitivity * (if warping then 0.6 else if boosting then 0.8 else 1.0);
      var currentSpeed := if warping then BaseSpeed * WarpMultiplier
                          else if boosting then BaseSpeed * BoostMultiplier
                          else BaseSpeed;
      position := Vec3(position.x + (targetX - position.x) * sensitivity,
                       position.y + (targetY - position.y) * sensitivity,
                       position.z - currentSpeed);
      assert sensitivity == Sensitivity(boosting, warping);
      assert (roll - rollAngle) * sensitivity * bankingFactor == (roll - rollAngle) * (sensitivity * bankingFactor);
      rollAngle := rollAngle + (roll - rollAngle) * sensitivity * bankingFactor;
      this.boosting := boosting;
      particlesVisible := boosting || warping;
      if particlesVisible {
        particleScale := if warping then 2.0 else if boosting then 1.5 else 1.0;
      }
    }

    /** Fires one laser from the ship toward the reticle, if the gun has cooled down;
        `shot` is the laser fired, if any. */
    method Shoot(target: Vec3, normalize: Vec3 -> Vec3) returns (ghost shot: seq<Laser>)
      requires Valid()
      modifies this`lasers, this`canShoot
      ensures Valid()
      ensures !canShoot
      ensures |shot| == (if old(canShoot) then 1 else 0)
      ensures lasers == old(lasers) + shot
      ensures |shot| == 1 ==>
        fresh(shot[0]) && fresh(shot[0].trail) && !shot[0].disposed &&
        shot[0].position == position && shot[0].direction == normalize(Sub(target, position))
      ensures |shot| == 1 ==> shot[0].Valid() && shot[0].State() == Fired(position, target, normalize)
    {
      if !canShoot {
        return [];
      }
      var laser := new Laser(position, target, normalize);
      lasers := lasers + [laser];
      canShoot := false;
      return [laser];
    }

    /** The cooldown timer firing: the gun may shoot again. */
    method CooldownElapsed()
      modifies this`canShoot
      ensures canShoot
    {
      canShoot := true;
    }

    /** Updates the i-th laser of `L`; the others own other trail buffers, so their
        state is untouched. */
    static method AdvanceOne(L: seq<Laser>, i: nat, ghost S: seq<LaserState>, ghost expired: seq<bool>)
      returns (gone: bool)
      requires i < |L| == |S| && |expired| == |L| - 1 - i && Separate(L)
      requires Untouched(L, S, i + 1) && AllAdvanced(L, S, i + 1, expired)
      modifies L[i], L[i].trail
      ensures Untouched(L, S, i) && AllAdvanced(L, S, i, [gone] + expired)
    {
      gone := L[i].Update();
    }

    /** Advances every laser once and drops exactly those that went out of bounds;
        `S` holds the lasers' states on entry and `expired[i]` is what the update of
        the i-th laser reported. */
    method UpdateLasers(ghost S: seq<LaserState>) returns (expired: seq<bool>)
      requires Valid() && |S| == |lasers| && Untouched(lasers, S, |lasers|)
      modifies this`lasers, set l | l in lasers, set l | l in lasers :: l.trail
      ensures Valid()
      ensures |expired| == |old(lasers)|
      ensures lasers == Keep(old(lasers), expired)
      ensures |S| == |old(lasers)| && forall k :: 0 <= k < |S| ==> Advanced(old(lasers)[k], S[k], expired[k])
    {
      assert Separate(lasers);
      lasers, expired := AdvanceAll(lasers, S);
      KeepNoDup(old(lasers), expired);
      KeepMembers(old(lasers), expired);
    }

    /** The loop of `UpdateLasers`, walking `L` from the back so that splicing out the
        current entry leaves the indices still to visit in place. */
    static method AdvanceAll(L: seq<Laser>, ghost S: seq<LaserState>) returns (kept: seq<Laser>, expired: seq<bool>)
      requires Separate(L) && |S| == |L| && Untouched(L, S, |L|)
      modifies set l | l in L, set l | l in L :: l.trail
      ensures |expired| == |L|
      ensures kept == Keep(L, expired)
      ensures |S| == |L| && AllAdvanced(L, S, 0, expired)
    {
      var i := |L| - 1;
      kept := L;
      expired := [];
      while i >= 0
        invariant -1 <= i < |L| && |S| == |L|
        invariant |expired| == |L| - 1 - i
        invariant kept == L[..i + 1] + Keep(L[i + 1..], expired)
        invariant Untouched(L, S, i + 1) && AllAdvanced(L, S, i + 1, expired)
      {
        var gone := AdvanceOne(L, i, S, expired);
        kept := SpliceOut(L, kept, i, gone, expired);
        expired := [gone] + expired;
        i := i - 1;
      }
    }

    /** One frame: steer, fire if the trigger is held, then advance the lasers.
        `S` holds the lasers' states on entry, and `T` adds the state of the laser
        fired, if any; `expired` is what each laser's update reported. */
    method Update(input: GameInput, target: Vec3, normalize: Vec3 -> Vec3, ghost S: seq<LaserState>)
      returns (ghost shot: seq<Laser>, ghost T: seq<LaserState>, expired: seq<bool>)
      requires Valid() && |S| == |lasers| && Untouched(lasers, S, |lasers|)
      modifies this, set l | l in lasers, set l | l in lasers :: l.trail
      ensures Valid()
      ensures position == Moved(old(position), input.moveX as real, input.moveY as real, input.boosting, input.warping)
      ensures rollAngle == Banked(old(rollAngle), input.moveX as real, input.boosting, input.warping)
      ensures boosting == input.boosting && particlesVisible == (input.boosting || input.warping)
      ensures particleScale == if !particlesVisible then old(particleScale)
                               else if input.warping then 2.0 else 1.5
      ensures canShoot == (old(canShoot) && !input.shooting)
      ensures |shot| == (if input.shooting && old(canShoot) then 1 else 0)
      ensures |shot| == 1 ==> fresh(shot[0])
      ensures T == S + (if |shot| == 1 then [Fired(position, target, normalize)] else [])
      ensures |expired| == |old(lasers)| + |shot|
      ensures lasers == Keep(old(lasers) + shot, expired)
      ensures |T| == |old(lasers) + shot| && forall k :: 0 <= k < |T| ==> Advanced((old(lasers) + shot)[k], T[k], expired[k])
    {
      Move(input.moveX as real, input.moveY as real, input.boosting, input.warping);
      shot, T, expired := FireAndAdvance(input.shooting, target, normalize, S);
    }

    /** The part of a frame after steering: the trigger, then the lasers in flight.
        `S` holds the lasers' states on entry, and `T` adds the state of the laser
        fired, if any. Every laser in flight, the one just fired included, takes
        exactly one update, and exactly those whose update reported true are dropped. */
    method FireAndAdvance(shooting: bool, target: Vec3, normalize: Vec3 -> Vec3, ghost S: seq<LaserState>)
      returns (ghost shot: seq<Laser>, ghost T: seq<LaserState>, expired: seq<bool>)
      requires Valid() && |S| == |lasers| && Untouched(lasers, S, |lasers|)
      modifies this`lasers, this`canShoot, set l | l in lasers, set l | l in lasers :: l.trail
      ensures Valid()
      ensures canShoot == (old(canShoot) && !shooting)
      ensures |shot| == (if shooting && old(canShoot) then 1 else 0)
      ensures |shot| == 1 ==> fresh(shot[0])
      ensures T == S + (if |shot| == 1 then [Fired(position, target, normalize)] else [])
      ensures |expired| == |old(lasers)| + |shot|
      ensures lasers == Keep(old(lasers) + shot, expired)
      ensures |T| == |old(lasers) + shot| && forall k :: 0 <= k < |T| ==> Advanced((old(lasers) + shot)[k], T[k], expired[k])
    {
      shot, T := PullTrigger(shooting, target, normalize, S);
      forall l | l in lasers
        ensures l in old(lasers) || (fresh(l) && fresh(l.trail))
      {
      }
      expired := UpdateLasers(T);
    }

    /** The trigger: `shoot` runs only while it is held. `S` holds the lasers' states
        before, and `T` those after, which add the fired laser's state, if any. */
    method PullTrigger(shooting: bool, target: Vec3, normalize: Vec3 -> Vec3, ghost S: seq<LaserState>)
      returns (ghost shot: seq<Laser>, ghost T: seq<LaserState>)
      requires Valid() && |S| == |lasers| && Untouched(lasers, S, |lasers|)
      modifies this`lasers, this`canShoot
      ensures Valid()
      ensures canShoot == (old(canShoot) && !shooting)
      ensures |shot| == (if shooting && old(canShoot) then 1 else 0)
      ensures |shot| == 1 ==> fresh(shot[0]) && fresh(shot[0].trail)
      ensures lasers == old(lasers) + shot
      ensures T == S + (if |shot| == 1 then [Fired(position, target, normalize)] else [])
      ensures |T| == |lasers| && Untouched(lasers, T, |lasers|)
    {
      shot := [];
      if shooting {
        shot := Shoot(target, normalize);
      } else {
        assert lasers == old(lasers) + shot;
      }
      T := S + (if |shot| == 1 then [Fired(position, target, normalize)] else []);
      forall k | 0 <= k < |S|
        ensures lasers[k].State() == T[k]
      {
        assert lasers[k] == old(lasers)[k];
      }
    }
  }
}
