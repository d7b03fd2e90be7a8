/** A player-fired laser: its flight, its trail of recent positions and its
    retirement past the far depth bound. */
module Lasers {
  import opened Geometry

  /** The trail remembers this many positions, stored flat as x, y, z triples. */
  const TrailPoints: nat := 50
  const TrailFloats: nat := TrailPoints * 3
  /** Lasers deeper than this are out of bounds. */
  const FarBound: real := -1000.0
  /** The factor applied to the stored direction on every update. */
  const LaserSpeed: real := 8.0

  /** The k-th remembered position of a flat trail buffer. */
  function TrailPoint(s: seq<real>, k: nat): Vec3
    requires 3 * k + 2 < |s|
  {
    Vec3(s[3 * k], s[3 * k + 1], s[3 * k + 2])
  }

  /** The trail after one update: every remembered position moves one slot back,
      the oldest falls off, and the laser's new position takes slot 0. */
  function ShiftTrail(s: seq<real>, p: Vec3): (r: seq<real>)
    requires |s| == TrailFloats
    ensures |r| == TrailFloats
    ensures TrailPoint(r, 0) == p
    ensures forall k :: 1 <= k < TrailPoints ==> TrailPoint(r, k) == TrailPoint(s, k - 1)
  {
    [p.x, p.y, p.z] + s[..|s| - 3]
  }

  /** A laser's position and stored direction after k updates. Each update scales the
      stored direction by the speed in place and then moves by the scaled vector. */
  function Fly(position: Vec3, direction: Vec3, k: nat): (Vec3, Vec3)
    decreases k
  {
    if k == 0 then (position, direction)
    else
      var (p, d) := Fly(position, direction, k - 1);
      var step := Scale(d, LaserSpeed);
      (Add(p, step), step)
  }

  /** The total distance factor after k updates: 8 + 8^2 + ... + 8^k. */
  function Travel(k: nat): real
    decreases k
  {
    if k == 0 then 0.0 else Travel(k - 1) + Pow(LaserSpeed, k)
  }

  /** One update in closed form: scaling by 8^(k-1) and then by 8 is scaling by 8^k,
      and the distance so far plus the new step is the distance after k updates. */
  lemma ClosedFormStep(position: Vec3, direction: Vec3, k: nat)
    requires k > 0
    ensures Scale(Scale(direction, Pow(LaserSpeed, k - 1)), LaserSpeed) == Scale(direction, Pow(LaserSpeed, k))
    ensures Add(Add(position, Scale(direction, Travel(k - 1))), Scale(direction, Pow(LaserSpeed, k)))
         == Add(position, Scale(direction, Travel(k)))
  {
    ScaleScale(direction, Pow(LaserSpeed, k - 1), LaserSpeed);
    assert Pow(LaserSpeed, k - 1) * LaserSpeed == Pow(LaserSpeed, k);
    AddScale(position, direction, Travel(k - 1), Pow(LaserSpeed, k));
  }

  /** Because the scaling compounds, the k-th step is the initial direction times 8^k
      and the laser has moved by the initial direction times 8 + ... + 8^k. */
  lemma {:induction false} FlyClosedForm(position: Vec3, direction: Vec3, k: nat)
    ensures Fly(position, direction, k).1 == Scale(direction, Pow(LaserSpeed, k))
    ensures Fly(position, direction, k).0 == Add(position, Scale(direction, Travel(k)))
    decreases k
  {
    if k > 0 {
      FlyClosedForm(position, direction, k - 1);
      ClosedFormStep(position, direction, k);
    }
  }

  lemma {:induction false} PowAtLeastOne(k: nat)
    ensures Pow(LaserSpeed, k) >= 1.0
    decreases k
  {
    if k > 0 {
      PowAtLeastOne(k - 1);
    }
  }

  /** Each update covers at least 8 units of the direction. */
  lemma {:induction false} TravelAtLeast(k: nat)
    ensures Travel(k) >= 8.0 * k as real
    decreases k
  {
    if k > 0 {
      TravelAtLeast(k - 1);
      PowAtLeastOne(k - 1);
    }
  }

  /** A laser fired with any forward (negative z) component leaves the far bound after
      finitely many updates, so every such laser is eventually retired. */
  lemma EventuallyOutOfBounds(position: Vec3, direction: Vec3) returns (k: nat)
    requires direction.z < 0.0
    ensures Fly(position, direction, k).0.z < FarBound
  {
    var need := (position.z - FarBound) / (-direction.z);
    k := if need < 0.0 then 1 else need.Floor + 1;
    FlyClosedForm(position, direction, k);
    TravelAtLeast(k);
    assert 8.0 * k as real > need;
    assert Travel(k) > need;
    assert Travel(k) * (-direction.z) > need * (-direction.z);
  }

  /** Everything a laser's update reads or writes, as one value. */
  datatype LaserState = LaserState(position: Vec3, direction: Vec3, disposed: bool, trail: seq<real>)

  /** The state one update produces from `s`, and what that update reports. */
  function Step(s: LaserState): (r: (LaserState, bool))
    requires |s.trail| == TrailFloats
    ensures (r.0.position, r.0.direction) == Fly(s.position, s.direction, 1)
    ensures r.0.trail == ShiftTrail(s.trail, r.0.position)
    ensures r.1 <==> r.0.position.z < FarBound
    ensures r.0.disposed == (s.disposed || r.1)
  {
    var direction := Scale(s.direction, LaserSpeed);
    var position := Add(s.position, direction);
    var out := position.z < FarBound;
    (LaserState(position, direction, s.disposed || out, ShiftTrail(s.trail, position)), out)
  }

  /** The state of a laser just fired from `start` toward `target`: aimed along the
      normalised difference, live, with its whole trail at zero. */
  function Fired(start: Vec3, target: Vec3, normalize: Vec3 -> Vec3): (r: LaserState)
    ensures r.position == start && !r.disposed && |r.trail| == TrailFloats
    ensures forall i :: 0 <= i < |r.trail| ==> r.trail[i] == 0.0
  {
    LaserState(start, normalize(Sub(target, start)), false, seq(TrailFloats, _ => 0.0))
  }

  class Laser {
    var position: Vec3
    var direction: Vec3
    const speed: real := LaserSpeed
    /** The trail's fixed-size vertex buffer. */
    const trail: array<real>
    /** Set once the laser has been taken out of the scene and its resources released. */
    var disposed: bool

    predicate Valid() {
      trail.Length == TrailFloats
    }

    ghost function State(): LaserState
      reads this, trail
    {
      LaserState(position, direction, disposed, trail[..])
    }

    /** A laser at `startPosition` aimed at `targetPosition`; its trail starts zeroed. */
    constructor (startPosition: Vec3, targetPosition: Vec3, normalize: Vec3 -> Vec3)
      ensures Valid() && fresh(trail)
      ensures position == startPosition
      ensures direction == normalize(Sub(targetPosition, startPosition))
      ensures !disposed
      ensures forall i :: 0 <= i < trail.Length ==> trail[i] == 0.0
      ensures State() == Fired(startPosition, targetPosition, normalize)
    {
      position := startPosition;
      direction := normalize(Sub(targetPosition, startPosition));
      trail := new real[TrailFloats](_ => 0.0);
      disposed := false;
    }

    /** One frame of flight. Reports whether the laser has passed the far bound, in
        which case it has already been destroyed. */
    method Update() returns (outOfBounds: bool)
      requires Valid()
      modifies this`position, this`direction, this`disposed, trail
      ensures direction == Scale(old(direction), speed)
      ensures position == Add(old(position), direction)
      ensures (position, direction) == Fly(old(position), old(direction), 1)
      ensures trail[..] == ShiftTrail(old(trail[..]), position)
      ensures outOfBounds <==> position.z < FarBound
      ensures disposed == (old(disposed) || outOfBounds)
      ensures (State(), outOfBounds) == Step(old(State()))
    {
      direction := Scale(direction, speed);
      position := Add(position, direction);

      var i := trail.Length - 3;
      while i >= 3
        modifies trail
        invariant 0 <= i <= trail.Length - 3 && i % 3 == 0
        invariant forall k :: i + 3 <= k < trail.Length ==> trail[k] == old(trail[k - 3])
        invariant forall k :: 0 <= k < i + 3 ==> trail[k] == old(trail[k])
      {
        trail[i] := trail[i - 3];
        trail[i + 1] := trail[i - 2];
        trail[i + 2] := trail[i - 1];
        i := i - 3;
      }
      trail[0] := position.x;
      trail[1] := position.y;
      trail[2] := position.z;

      if position.z < FarBound {
        Destroy();
        return true;
      }
      return false;
    }

    method Destroy()
      modifies this`disposed
      ensures disposed
    {
      disposed := true;
    }
  }

  /** Fired from the origin straight ahead, a laser starts where it was fired and one
      update moves it forward. */
  method StraightShotScenario(normalize: Vec3 -> Vec3)
    requires normalize(Vec3(0.0, 0.0, -1.0)) == Vec3(0.0, 0.0, -1.0)
  {
    var laser := new Laser(Origin, Vec3(0.0, 0.0, -1.0), normalize);
    assert laser.position == Origin;
    var gone := laser.Update();
    assert laser.position.z < Origin.z && !gone;
  }
}
