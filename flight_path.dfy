/** The difficulty track: a scalar that grows with elapsed time, plus the forward
    speed chosen by the wormhole (warp) state. */
module Flight {
  import opened Geometry

  const BaseSpeed: real := 0.5
  const WormholeSpeed: real := 5.0
  /** Difficulty gained per unit of elapsed time. */
  const DifficultyRate: real := 0.1

  /** The difficulty after a run of updates with the given time steps. */
  function DifficultyAfter(difficulty: real, steps: seq<real>): real
    decreases |steps|
  {
    if steps == [] then difficulty
    else DifficultyAfter(difficulty + steps[0] * DifficultyRate, steps[1..])
  }

  function Total(steps: seq<real>): (r: real)
    ensures (forall i :: 0 <= i < |steps| ==> steps[i] >= 0.0) ==> r >= 0.0
    decreases |steps|
  {
    if steps == [] then 0.0 else steps[0] + Total(steps[1..])
  }

  /** Difficulty is the starting value plus a tenth of the total elapsed time. */
  lemma {:induction false} DifficultyAfterTotal(difficulty: real, steps: seq<real>)
    ensures DifficultyAfter(difficulty, steps) == difficulty + Total(steps) * DifficultyRate
    decreases |steps|
  {
    if steps != [] {
      DifficultyAfterTotal(difficulty + steps[0] * DifficultyRate, steps[1..]);
    }
  }

  /** With time never running backwards, difficulty never falls and stays at least
      where it started; in particular it never drops below its initial 1. */
  lemma DifficultyNonDecreasing(difficulty: real, steps: seq<real>)
    requires forall i :: 0 <= i < |steps| ==> steps[i] >= 0.0
    ensures DifficultyAfter(difficulty, steps) >= difficulty
    ensures difficulty >= 1.0 ==> DifficultyAfter(difficulty, steps) >= 1.0
  {
    DifficultyAfterTotal(difficulty, steps);
  }

  class FlightPath {
    var forwardSpeed: real
    var position: Vec3
    var difficulty: real
    var isWormhole: bool

    constructor ()
      ensures forwardSpeed == BaseSpeed && position == Origin
      ensures difficulty == 1.0 && !isWormhole
    {
      forwardSpeed := BaseSpeed;
      position := Origin;
      difficulty := 1.0;
      isWormhole := false;
    }

    /** Records the player's position, picks the speed for the current wormhole
        state and advances the difficulty by a tenth of the elapsed time. */
    method Update(deltaTime: real, playerPosition: Vec3)
      modifies this`position, this`forwardSpeed, this`difficulty
      ensures position == playerPosition
      ensures forwardSpeed == if isWormhole then WormholeSpeed else BaseSpeed
      ensures difficulty == old(difficulty) + deltaTime * DifficultyRate
      ensures deltaTime >= 0.0 ==> difficulty >= old(difficulty)
    {
      position := playerPosition;
      if isWormhole {
        forwardSpeed := WormholeSpeed;
      } else {
        forwardSpeed := BaseSpeed;
      }
      difficulty := difficulty + deltaTime * 0.1;
    }

    /** Only the flag changes; the speed follows it at the next update. */
    method SetWormholeState(active: bool)
      modifies this`isWormhole
      ensures isWormhole == active
    {
      isWormhole := active;
    }

    method GetDifficulty() returns (r: real)
      ensures r == difficulty
    {
      return difficulty;
    }

    method GetSpeed() returns (r: real)
      ensures r == forwardSpeed
    {
      return forwardSpeed;
    }
  }
}
