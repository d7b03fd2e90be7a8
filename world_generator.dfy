/** The world generator: distance-triggered batches of meteors and enemies laid out
    on a jittered grid, the per-frame cleanup and pursuit sweep, and laser hits. */
module World {
  import opened Geometry
  import opened Enemies
  import opened Lasers
  import opened Flight

  /** A new batch is due once the player is this far past the last one. */
  const SpawnDistance: real := 50.0
  const InitialSpawnInterval: real := 30.0
  const MinSpawnInterval: real := 20.0
  const SpawnIntervalStep: real := 0.1
  /** Spacing of the batch grid, and how far a jitter draw may push an entity off
      its cell centre, as a multiple of the spacing. */
  const CellSize: real := 30.0
  const Spread: real := 1.5
  /** Batches appear this far ahead of the player. */
  const SpawnAhead: real := 300.0
  /** Meteors this far behind the player are dropped. */
  const CleanupDistance: real := 100.0
  /** Half the width of the square lane kept clear in front of the player. */
  const LaneHalfWidth: real := 8.0
  /** A slot whose kind draw is below this becomes an enemy. */
  const EnemyChance: real := 0.3
  const MaxBatch: int := 10

  /** A meteor. Only its position matters to the game's logic. */
  datatype Obstacle = Obstacle(position: Vec3)

  /** The random draws one batch slot consumes: two jitters and the kind. */
  datatype SlotDraw = SlotDraw(jitterX: real, jitterY: real, kind: real)

  /** The number of entities in a batch, for a draw r in [0, 1). Four to nine: the
      cap of ten can never take effect. */
  function BatchCount(r: real): (n: nat)
    requires 0.0 <= r < 1.0
    ensures 4 <= n <= 9
    ensures n == (r * 6.0).Floor + 4
  {
    var n := (r * 6.0).Floor + 4;
    var capped: int := if n <= MaxBatch then n else MaxBatch;
    capped
  }

  /** The ceiling of the square root of n: the side of the smallest square grid with
      room for n cells. */
  function CeilSqrt(n: nat): (g: nat)
    ensures g * g >= n
    ensures g == 0 || (g - 1) * (g - 1) < n
  {
    SqrtFrom(n, 0)
  }

  function SqrtFrom(n: nat, g: nat): (r: nat)
    requires g == 0 || (g - 1) * (g - 1) < n
    ensures r * r >= n
    ensures r == 0 || (r - 1) * (r - 1) < n
    decreases n - g
  {
    if g * g >= n then g
    else
      assert g <= g * g;
      SqrtFrom(n, g + 1)
  }

  /** Every batch size from four to nine fills a 2 by 2 grid when it is four and a
      3 by 3 grid otherwise. */
  lemma BatchGrid(n: nat)
    requires 4 <= n <= 9
    ensures CeilSqrt(n) == (if n == 4 then 2 else 3)
  {
    var g := CeilSqrt(n);
    if g >= 4 {
      SquareMonotone(3, g - 1);
    }
  }

  lemma SquareMonotone(a: nat, b: nat)
    requires a <= b
    ensures a * a <= b * b
  {
    MulNonNegativeInt(b - a, a + b);
  }

  /** A slot's cell coordinate on one axis: columns and rows are numbered from the
      left and the bottom, and half the grid width is subtracted. That leaves the
      cell centres half a cell left of (below) the player's line, as `GridOffCentre`
      shows. */
  function GridCoordinate(cell: int, g: nat): real {
    cell as real - g as real / 2.0
  }

  /** The grid is not centred on the player's line: the first and last cell centres
      are symmetric about half a cell to the left (below), not about 0. A 3-wide grid
      has its centres at -45, -15 and 15; a 2-wide one at -30 and 0. */
  lemma GridOffCentre(g: nat)
    requires g >= 1
    ensures (GridCoordinate(0, g) + GridCoordinate(g - 1, g)) / 2.0 == -0.5
    ensures GridCoordinate(0, 3) * CellSize == -45.0 && GridCoordinate(1, 3) * CellSize == -15.0
    ensures GridCoordinate(2, 3) * CellSize == 15.0
    ensures GridCoordinate(0, 2) * CellSize == -30.0 && GridCoordinate(1, 2) * CellSize == 0.0
  {
  }

  /** One jittered coordinate: the cell centre plus a shift of up to 0.75 cells
      either way. */
  function Jittered(cell: int, g: nat, jitter: real): (r: real)
    ensures 0.0 <= jitter < 1.0 ==>
      GridCoordinate(cell, g) * CellSize - CellSize * Spread / 2.0 <= r < GridCoordinate(cell, g) * CellSize + CellSize * Spread / 2.0
  {
    GridCoordinate(cell, g) * CellSize + (jitter - 0.5) * CellSize * Spread
  }

  /** Where slot i of a batch on a g-wide grid lands, before the lane is cleared. */
  function SlotPosition(i: nat, g: nat, d: SlotDraw, pz: real): (r: Vec3)
    requires g > 0
    ensures r.z == pz - SpawnAhead
  {
    Vec3(Jittered(i % g, g, d.jitterX), Jittered(i / g, g, d.jitterY), pz - SpawnAhead)
  }

  /** A position inside the square lane in front of the player moves 8 units sideways,
      away from the centre line on the side it is already on (zero counts as the
      right). Nothing else moves. */
  function PushOut(p: Vec3): (r: Vec3)
    ensures !(Abs(r.x) < LaneHalfWidth && Abs(r.y) < LaneHalfWidth)
    ensures r.y == p.y && r.z == p.z
    ensures !(Abs(p.x) < LaneHalfWidth && Abs(p.y) < LaneHalfWidth) ==> r == p
    ensures Abs(p.x) < LaneHalfWidth && Abs(p.y) < LaneHalfWidth ==>
      Abs(r.x) == Abs(p.x) + LaneHalfWidth && (r.x < 0.0 <==> p.x < 0.0)
  {
    if Abs(p.x) < LaneHalfWidth && Abs(p.y) < LaneHalfWidth then
      p.(x := p.x + (if p.x < 0.0 then -1.0 else 1.0) * LaneHalfWidth)
    else p
  }

  /** Where slot i finally spawns. */
  function SlotSpot(i: nat, g: nat, d: SlotDraw, pz: real): (r: Vec3)
    requires g > 0
    ensures OffLaneAhead(r, pz)
  {
    PushOut(SlotPosition(i, g, d, pz))
  }

  predicate IsEnemySlot(d: SlotDraw) {
    d.kind < EnemyChance
  }

  /** A spawn spot 300 units ahead of a player at depth `pz`, off the clear lane. */
  predicate OffLaneAhead(p: Vec3, pz: real) {
    p.z == pz - SpawnAhead && !(Abs(p.x) < LaneHalfWidth && Abs(p.y) < LaneHalfWidth)
  }

  /** The spawn positions, in slot order, of those among the first n slots that
      become enemies (`enemies`) or meteors (otherwise). */
  function Spots(draws: seq<SlotDraw>, n: nat, g: nat, pz: real, enemies: bool): (r: seq<Vec3>)
    requires n <= |draws| && g > 0
    ensures |r| <= n
  {
    if n == 0 then []
    else
      var rest := Spots(draws, n - 1, g, pz, enemies);
      if IsEnemySlot(draws[n - 1]) == enemies then rest + [SlotSpot(n - 1, g, draws[n - 1], pz)] else rest
  }

  /** Every spot of a batch is 300 units ahead of the player and off the clear lane. */
  lemma {:induction false} SpotsAheadOffLane(draws: seq<SlotDraw>, n: nat, g: nat, pz: real, enemies: bool)
    requires n <= |draws| && g > 0
    ensures forall k :: 0 <= k < |Spots(draws, n, g, pz, enemies)| ==> OffLaneAhead(Spots(draws, n, g, pz, enemies)[k], pz)
  {
    if n > 0 {
      SpotsAheadOffLane(draws, n - 1, g, pz, enemies);
      var rest, r := Spots(draws, n - 1, g, pz, enemies), Spots(draws, n, g, pz, enemies);
      forall k | 0 <= k < |r|
        ensures OffLaneAhead(r[k], pz)
      {
        if k < |rest| {
          assert r[k] == rest[k];
        } else {
          assert r[k] == SlotSpot(n - 1, g, draws[n - 1], pz);
        }
      }
    }
  }

  /** The first n slots spawn exactly n entities: each slot is a meteor or an enemy. */
  lemma {:induction false} SpotsPartition(draws: seq<SlotDraw>, n: nat, g: nat, pz: real)
    requires n <= |draws| && g > 0
    ensures |Spots(draws, n, g, pz, true)| + |Spots(draws, n, g, pz, false)| == n
  {
    if n > 0 {
      SpotsPartition(draws, n - 1, g, pz);
    }
  }

  /** The meteors and the enemy positions of one batch. */
  function BatchObstacles(draws: seq<SlotDraw>, pz: real): (r: seq<Obstacle>)
    ensures |r| + |BatchEnemySpots(draws, pz)| == |draws|
    ensures forall k :: 0 <= k < |r| ==> r[k].position.z == pz - SpawnAhead
  {
    var g := CeilSqrt(|draws|);
    if g == 0 then []
    else
      SpotsPartition(draws, |draws|, g, pz);
      SpotsAheadOffLane(draws, |draws|, g, pz, false);
      AsObstacles(Spots(draws, |draws|, g, pz, false))
  }

  /** A meteor at each position, in order. */
  function AsObstacles(spots: seq<Vec3>): (r: seq<Obstacle>)
    ensures |r| == |spots|
    ensures forall k :: 0 <= k < |r| ==> r[k].position == spots[k]
  {
    seq(|spots|, k requires 0 <= k < |spots| => Obstacle(spots[k]))
  }

  /** One more spot is one more meteor at the end. */
  lemma AsObstaclesSnoc(spots: seq<Vec3>, p: Vec3)
    ensures AsObstacles(spots + [p]) == AsObstacles(spots) + [Obstacle(p)]
  {
    assert (spots + [p])[|spots|] == p;
  }

  function BatchEnemySpots(draws: seq<SlotDraw>, pz: real): seq<Vec3> {
    var g := CeilSqrt(|draws|);
    if g == 0 then [] else Spots(draws, |draws|, g, pz, true)
  }

  /** The states of a batch's new enemies, spawned at the given level. */
  function BatchEnemyStates(draws: seq<SlotDraw>, pz: real, level: int): (r: seq<EnemyState>)
    ensures |r| == |BatchEnemySpots(draws, pz)|
    ensures forall k :: 0 <= k < |r| ==> r[k] == Spawned(BatchEnemySpots(draws, pz)[k], level)
  {
    var spots := BatchEnemySpots(draws, pz);
    seq(|spots|, k requires 0 <= k < |spots| => Spawned(spots[k], level))
  }

  /** The spawn interval after one batch: lowered by a tenth, never below 20. */
  function NextInterval(s: real): (r: real)
    ensures r >= MinSpawnInterval
    ensures s >= MinSpawnInterval ==> r <= s
    ensures s >= MinSpawnInterval + SpawnIntervalStep ==> r == s - SpawnIntervalStep
  {
    Max(MinSpawnInterval, s - SpawnIntervalStep)
  }

  /** Which meteors the cleanup drops: those more than 100 units behind the player. */
  function FarFlags(obstacles: seq<Obstacle>, pz: real): (r: seq<bool>)
    ensures |r| == |obstacles|
    ensures forall k :: 0 <= k < |r| ==> (r[k] <==> obstacles[k].position.z > pz + CleanupDistance)
  {
    seq(|obstacles|, k requires 0 <= k < |obstacles| => obstacles[k].position.z > pz + CleanupDistance)
  }

  /** The cleanup keeps a meteor exactly when it is no more than 100 units behind the
      player. */
  lemma CleanupKeepsNear(obstacles: seq<Obstacle>, pz: real)
    ensures forall o :: o in Keep(obstacles, FarFlags(obstacles, pz)) <==>
      o in obstacles && o.position.z <= pz + CleanupDistance
  {
    var flags := FarFlags(obstacles, pz);
    KeepMembers(obstacles, flags);
    forall o | o in obstacles && o.position.z <= pz + CleanupDistance
      ensures o in Keep(obstacles, flags)
    {
      var k :| 0 <= k < |obstacles| && obstacles[k] == o;
      assert !flags[k];
    }
  }

  /** The positions of a run of meteors. */
  function Positions(obstacles: seq<Obstacle>): (r: seq<Vec3>)
    ensures |r| == |obstacles|
    ensures forall k :: 0 <= k < |r| ==> r[k] == obstacles[k].position
  {
    seq(|obstacles|, k requires 0 <= k < |obstacles| => obstacles[k].position)
  }

  /** The highest index of a target that a laser at `p` touches, or -1: the outcome of
      a scan that starts at the last target, counts down and stops at the first hit. */
  function LastHit(targets: seq<Vec3>, p: Vec3, hits: (Vec3, Vec3) -> bool): (r: int)
    ensures -1 <= r < |targets|
    ensures r >= 0 ==> hits(p, targets[r])
    ensures forall k :: r < k < |targets| ==> !hits(p, targets[k])
    decreases |targets|
  {
    if targets == [] then -1
    else if hits(p, targets[|targets| - 1]) then |targets| - 1
    else LastHit(targets[..|targets| - 1], p, hits)
  }

  /** The three properties above single out one index. */
  lemma {:induction false} LastHitUnique(targets: seq<Vec3>, p: Vec3, hits: (Vec3, Vec3) -> bool, i: int)
    requires -1 <= i < |targets|
    requires i >= 0 ==> hits(p, targets[i])
    requires forall k :: i < k < |targets| ==> !hits(p, targets[k])
    ensures i == LastHit(targets, p, hits)
    decreases |targets|
  {
    if targets != [] && i < |targets| - 1 {
      var front := targets[..|targets| - 1];
      assert forall k :: i < k < |front| ==> front[k] == targets[k];
      LastHitUnique(front, p, hits, i);
    }
  }

  /** The meteors left after one laser's scan: the last meteor it touches is gone. */
  function HitOnce(obstacles: seq<Obstacle>, p: Vec3, hits: (Vec3, Vec3) -> bool): (r: seq<Obstacle>)
    ensures |r| == |obstacles| || |r| == |obstacles| - 1
  {
    var i := LastHit(Positions(obstacles), p, hits);
    if i >= 0 then RemoveAt(obstacles, i) else obstacles
  }

  /** One meteor is removed exactly when the laser touches some meteor, and no meteor
      appears that was not there. */
  lemma HitOnceRemoves(obstacles: seq<Obstacle>, p: Vec3, hits: (Vec3, Vec3) -> bool)
    ensures |HitOnce(obstacles, p, hits)| < |obstacles| <==> exists k :: 0 <= k < |obstacles| && hits(p, obstacles[k].position)
    ensures forall o :: o in HitOnce(obstacles, p, hits) ==> o in obstacles
  {
    var targets := Positions(obstacles);
    var i := LastHit(targets, p, hits);
    if i < 0 {
      forall k | 0 <= k < |obstacles|
        ensures !hits(p, obstacles[k].position)
      {
        assert targets[k] == obstacles[k].position;
      }
    } else {
      assert hits(p, obstacles[i].position);
    }
  }

  /** The meteors left after the scans of the first n lasers at positions `ps`, in
      order. Each laser removes at most one. */
  function ObstaclesAfter(obstacles: seq<Obstacle>, ps: seq<Vec3>, n: nat, hits: (Vec3, Vec3) -> bool): (r: seq<Obstacle>)
    requires n <= |ps|
    ensures |obstacles| - n <= |r| <= |obstacles|
  {
    if n == 0 then obstacles
    else HitOnce(ObstaclesAfter(obstacles, ps, n - 1, hits), ps[n - 1], hits)
  }

  /** No laser scan brings a meteor back or makes a new one. */
  lemma {:induction false} ObstaclesAfterSubset(obstacles: seq<Obstacle>, ps: seq<Vec3>, n: nat, hits: (Vec3, Vec3) -> bool)
    requires n <= |ps|
    ensures forall o :: o in ObstaclesAfter(obstacles, ps, n, hits) ==> o in obstacles
  {
    if n > 0 {
      ObstaclesAfterSubset(obstacles, ps, n - 1, hits);
      HitOnceRemoves(ObstaclesAfter(obstacles, ps, n - 1, hits), ps[n - 1], hits);
    }
  }

  /** The positions of a run of enemies. */
  ghost function EnemyPositions(enemies: seq<Enemy>): (r: seq<Vec3>)
    reads set e | e in enemies
    ensures |r| == |enemies|
    ensures forall k :: 0 <= k < |enemies| ==> r[k] == enemies[k].position
    decreases |enemies|
  {
    if enemies == [] then [] else [enemies[0].position] + EnemyPositions(enemies[1..])
  }

  /** An enemy the sweep has visited, starting from state `before`: one flagged for
      removal is left as it was and reported, any other took one pursuit step. */
  ghost predicate Swept(e: Enemy, before: EnemyState, removed: bool, target: Vec3, normalize: Vec3 -> Vec3)
    reads e
  {
    removed == before.removeFlag && e.State() == (if removed then before else Pursued(before, target, normalize))
  }

  /** The first n enemies of `E` still have their states `S`. */
  ghost predicate Unvisited(E: seq<Enemy>, S: seq<EnemyState>, n: nat)
    requires n <= |E| == |S|
    reads set e | e in E
  {
    forall k :: 0 <= k < n ==> E[k].State() == S[k]
  }

  /** The enemies of `E` from index n on have been swept from their states in `S`,
      and `removed` holds what the sweep found for each. */
  ghost predicate AllSwept(E: seq<Enemy>, S: seq<EnemyState>, n: nat, removed: seq<bool>, target: Vec3, normalize: Vec3 -> Vec3)
    requires n <= |E| == |S| && |removed| == |E| - n
    reads set e | e in E
  {
    forall k :: n <= k < |E| ==> Swept(E[k], S[k], removed[k - n], target, normalize)
  }

  /** Measured against health `H0` recorded for the enemies `E0`, none has gained
      health, and each one no longer among `current` is flagged for removal. */
  ghost predicate OnlyWeakened(E0: seq<Enemy>, H0: seq<real>, current: seq<Enemy>)
    reads set e | e in E0
  {
    |H0| == |E0| && forall k :: 0 <= k < |E0| ==> E0[k].health <= H0[k] && (E0[k] !in current ==> E0[k].removeFlag)
  }

  /** Every laser of `L` marked disposed in `D0` is still disposed. */
  ghost predicate StillDisposed(L: seq<Laser>, D0: seq<bool>)
    reads set l | l in L
  {
    |D0| == |L| && forall k :: 0 <= k < |L| ==> D0[k] ==> L[k].disposed
  }

  class WorldGenerator {
    var obstacles: seq<Obstacle>
    var enemies: seq<Enemy>
    /** Lowered after every batch but never read by the game. */
    var spawnInterval: real
    /** The player's depth when the last batch was spawned. */
    var lastSpawnZ: real
    const flightPath: FlightPath

    /** The live enemies are distinct objects, and the interval has stayed between
        its floor and its starting value. */
    ghost predicate Valid()
      reads this
    {
      NoDup(enemies) && MinSpawnInterval <= spawnInterval <= InitialSpawnInterval
    }

    constructor (flightPath: FlightPath)
      ensures Valid()
      ensures obstacles == [] && enemies == []
      ensures spawnInterval == InitialSpawnInterval && lastSpawnZ == 0.0
      ensures this.flightPath == flightPath
    {
      obstacles := [];
      enemies := [];
      spawnInterval := InitialSpawnInterval;
      lastSpawnZ := 0.0;
      this.flightPath := flightPath;
    }

    /** One frame: spawn a batch if the player has come 50 units past the last one,
        then clean up meteors and sweep the enemies. A batch uses `countDraw` for its
        size and one entry of `draws` per slot; `spawned` tells whether it happened and
        `newEnemies` are the enemies it added. `S` holds the enemies' states on entry,
        and `T` adds the new enemies' states; `removed` is what the sweep found. */
    method Update(playerPosition: Vec3, countDraw: real, draws: seq<SlotDraw>, normalize: Vec3 -> Vec3,
                  ghost S: seq<EnemyState>)
      returns (spawned: bool, ghost newEnemies: seq<Enemy>, ghost T: seq<EnemyState>, removed: seq<bool>)
      requires Valid()
      requires 0.0 <= countDraw < 1.0 && |draws| == BatchCount(countDraw)
      requires |S| == |enemies| && Unvisited(enemies, S, |enemies|)
      modifies this, set e | e in enemies
      ensures Valid()
      ensures spawned <==> playerPosition.z < old(lastSpawnZ) - SpawnDistance
      ensures lastSpawnZ == if spawned then playerPosition.z else old(lastSpawnZ)
      ensures spawnInterval == if spawned then NextInterval(old(spawnInterval)) else old(spawnInterval)
      ensures var all := old(obstacles) + (if spawned then BatchObstacles(draws, playerPosition.z) else []);
        obstacles == Keep(all, FarFlags(all, playerPosition.z))
      ensures forall e :: e in newEnemies ==> fresh(e)
      ensures T == S + (if spawned then BatchEnemyStates(draws, playerPosition.z, flightPath.difficulty.Floor) else [])
      ensures |newEnemies| == |T| - |S|
      ensures |removed| == |old(enemies)| + |newEnemies|
      ensures enemies == Keep(old(enemies) + newEnemies, removed)
      ensures forall k :: 0 <= k < |T| ==> Swept((old(enemies) + newEnemies)[k], T[k], removed[k], playerPosition, normalize)
    {
      spawned := playerPosition.z < lastSpawnZ - SpawnDistance;
      newEnemies := [];
      T := S;
      if spawned {
        newEnemies := SpawnObstacles(playerPosition, countDraw, draws);
        lastSpawnZ := playerPosition.z;
        T := S + BatchEnemyStates(draws, playerPosition.z, flightPath.difficulty.Floor);
      } else {
        assert obstacles == old(obstacles) + [];
      }
      ghost var mid := enemies;
      assert mid == old(enemies) + newEnemies;
      forall k | 0 <= k < |T|
        ensures mid[k].State() == T[k]
      {
        if k < |S| {
          assert mid[k] == old(enemies)[k];
        } else {
          assert mid[k] == newEnemies[k - |S|];
        }
      }
      assert |T| == |mid| && Unvisited(mid, T, |T|);
      forall e | e in enemies
        ensures e in old(enemies) || fresh(e)
      {
      }
      removed := UpdateEntities(playerPosition, normalize, T);
      assert enemies == Keep(mid, removed);
    }

    /** Drops the meteors left more than 100 units behind and sweeps the enemies:
        those flagged for removal leave the list, the rest take one pursuit step.
        `S` holds the enemies' states on entry. */
    method UpdateEntities(playerPosition: Vec3, normalize: Vec3 -> Vec3, ghost S: seq<EnemyState>) returns (removed: seq<bool>)
      requires Valid()
      requires |S| == |enemies| && Unvisited(enemies, S, |enemies|)
      modifies this`obstacles, this`enemies, set e | e in enemies
      ensures Valid()
      ensures obstacles == Keep(old(obstacles), FarFlags(old(obstacles), playerPosition.z))
      ensures |removed| == |old(enemies)|
      ensures enemies == Keep(old(enemies), removed)
      ensures forall k :: 0 <= k < |S| ==> Swept(old(enemies)[k], S[k], removed[k], playerPosition, normalize)
    {
      RemoveFarObstacles(playerPosition.z);
      enemies, removed := SweepEnemies(enemies, S, playerPosition, normalize);
      KeepNoDup(old(enemies), removed);
    }

    /** The meteor loop of the cleanup, walking from the back and splicing. */
    method RemoveFarObstacles(pz: real)
      modifies this`obstacles
      ensures obstacles == Keep(old(obstacles), FarFlags(old(obstacles), pz))
    {
      ghost var O := obstacles;
      ghost var far := FarFlags(O, pz);
      var i := |obstacles| - 1;
      while i >= 0
        invariant -1 <= i < |O|
        invariant obstacles == O[..i + 1] + Keep(O[i + 1..], far[i + 1..])
      {
        var gone := obstacles[i].position.z > pz + CleanupDistance;
        KeepStep(O, i, gone, far[i + 1..]);
        assert [gone] + far[i + 1..] == far[i..];
        SpliceStep(O, obstacles, i, gone, Keep(O[i + 1..], far[i + 1..]), Keep(O[i..], far[i..]));
        if gone {
          obstacles := RemoveAt(obstacles, i);
        }
        i := i - 1;
      }
      assert O[0..] == O && far[0..] == far;
    }

    /** Sweeps the i-th enemy of `E`; the others are distinct objects, so their state
        is untouched. */
    static method SweepOne(E: seq<Enemy>, i: nat, ghost S: seq<EnemyState>, ghost removed: seq<bool>,
                           target: Vec3, normalize: Vec3 -> Vec3)
      returns (gone: bool)
      requires i < |E| == |S| && |removed| == |E| - 1 - i && NoDup(E)
      requires Unvisited(E, S, i + 1) && AllSwept(E, S, i + 1, removed, target, normalize)
      modifies E[i]
      ensures Unvisited(E, S, i) && AllSwept(E, S, i, [gone] + removed, target, normalize)
    {
      gone := E[i].IsRemoved();
      if !gone {
        E[i].Update(target, normalize);
      }
    }

    /** The enemy loop of the cleanup, walking `E` from the back so that splicing out
        the current entry leaves the indices still to visit in place. */
    static method SweepEnemies(E: seq<Enemy>, ghost S: seq<EnemyState>, target: Vec3, normalize: Vec3 -> Vec3)
      returns (kept: seq<Enemy>, removed: seq<bool>)
      requires NoDup(E) && |S| == |E| && Unvisited(E, S, |E|)
      modifies set e | e in E
      ensures |removed| == |E|
      ensures kept == Keep(E, removed)
      ensures |S| == |E| && AllSwept(E, S, 0, removed, target, normalize)
    {
      var i := |E| - 1;
      kept := E;
      removed := [];
      while i >= 0
        invariant -1 <= i < |E| && |S| == |E|
        invariant |removed| == |E| - 1 - i
        invariant kept == E[..i + 1] + Keep(E[i + 1..], removed)
        invariant Unvisited(E, S, i + 1) && AllSwept(E, S, i + 1, removed, target, normalize)
      {
        var gone := SweepOne(E, i, S, removed, target, normalize);
        SpliceKeep(E, kept, i, gone, removed);
        if gone {
          kept := RemoveAt(kept, i);
        }
        removed := [gone] + removed;
        i := i - 1;
      }
    }

    /** Spawns one batch 300 units ahead of the player: `|draws|` slots on the
        smallest square grid that holds them, each jittered off its cell, pushed out
        of the lane, and turned into an enemy or a meteor by its kind draw. Then the
        spawn interval is lowered. */
    method SpawnObstacles(playerPosition: Vec3, countDraw: real, draws: seq<SlotDraw>)
      returns (ghost newEnemies: seq<Enemy>)
      requires Valid()
      requires 0.0 <= countDraw < 1.0 && |draws| == BatchCount(countDraw)
      modifies this`obstacles, this`enemies, this`spawnInterval
      ensures Valid()
      ensures obstacles == old(obstacles) + BatchObstacles(draws, playerPosition.z)
      ensures enemies == old(enemies) + newEnemies
      ensures |newEnemies| == |BatchEnemySpots(draws, playerPosition.z)|
      ensures forall e :: e in newEnemies ==> fresh(e)
      ensures forall k :: 0 <= k < |newEnemies| ==>
        newEnemies[k].State() == Spawned(BatchEnemySpots(draws, playerPosition.z)[k], flightPath.difficulty.Floor)
      ensures spawnInterval == NextInterval(old(spawnInterval))
    {
      var n := BatchCount(countDraw);
      var g := CeilSqrt(n);
      newEnemies := SpawnSlots(draws, g, playerPosition.z);
      spawnInterval := NextInterval(spawnInterval);
    }

    /** The slot loop of a batch on a g-wide grid: each slot in turn becomes an enemy
        or a meteor at its spot. */
    method SpawnSlots(draws: seq<SlotDraw>, g: nat, pz: real) returns (ghost newEnemies: seq<Enemy>)
      requires g > 0 && NoDup(enemies)
      modifies this`obstacles, this`enemies
      ensures NoDup(enemies)
      ensures obstacles == old(obstacles) + AsObstacles(Spots(draws, |draws|, g, pz, false))
      ensures enemies == old(enemies) + newEnemies
      ensures |newEnemies| == |Spots(draws, |draws|, g, pz, true)|
      ensures forall e :: e in newEnemies ==> fresh(e)
      ensures forall k :: 0 <= k < |newEnemies| ==>
        newEnemies[k].State() == Spawned(Spots(draws, |draws|, g, pz, true)[k], flightPath.difficulty.Floor)
    {
      newEnemies := [];
      for i := 0 to |draws|
        invariant obstacles == old(obstacles) + AsObstacles(Spots(draws, i, g, pz, false))
        invariant enemies == old(enemies) + newEnemies && NoDup(enemies)
        invariant |newEnemies| == |Spots(draws, i, g, pz, true)|
        invariant forall e :: e in newEnemies ==> fresh(e)
        invariant forall k :: 0 <= k < |newEnemies| ==>
          newEnemies[k].State() == Spawned(Spots(draws, i, g, pz, true)[k], flightPath.difficulty.Floor)
      {
        var position := SlotSpot(i, g, draws[i], pz);
        if IsEnemySlot(draws[i]) {
          var e := SpawnEnemy(position);
          newEnemies := newEnemies + [e];
        } else {
          AsObstaclesSnoc(Spots(draws, i, g, pz, false), position);
          SpawnObstacle(position);
        }
      }
    }

    /** Adds a meteor at `position`. */
    method SpawnObstacle(position: Vec3)
      modifies this`obstacles
      ensures obstacles == old(obstacles) + [Obstacle(position)]
    {
      obstacles := obstacles + [Obstacle(position)];
    }

    /** Adds an enemy at `position` whose level is the current difficulty rounded down. */
    method SpawnEnemy(position: Vec3) returns (ghost e: Enemy)
      requires NoDup(enemies)
      modifies this`enemies
      ensures NoDup(enemies)
      ensures fresh(e) && enemies == old(enemies) + [e]
      ensures e.State() == Spawned(position, flightPath.difficulty.Floor)
    {
      var difficulty := flightPath.GetDifficulty();
      var enemy := new Enemy(position, difficulty.Floor);
      enemies := enemies + [enemy];
      e := enemy;
    }
  
    /** The meteor scan of one laser whose bounding box sits at `box`: walking from the
        last meteor, the first one the laser touches is removed and the laser
        destroyed. */
    method HitObstacle(laser: Laser, box: Vec3, hits: (Vec3, Vec3) -> bool) returns (ghost hit: int)
      modifies this`obstacles, laser`disposed
      ensures hit == LastHit(Positions(old(obstacles)), box, hits)
      ensures obstacles == HitOnce(old(obstacles), box, hits)
      ensures laser.disposed == (old(laser.disposed) || hit >= 0)
    {
      var i := |obstacles| - 1;
      while i >= 0 && !hits(box, obstacles[i].position)
        invariant -1 <= i < |obstacles|
        invariant forall k :: i < k < |obstacles| ==> !hits(box, obstacles[k].position)
      {
        i := i - 1;
      }
      LastHitUnique(Positions(obstacles), box, hits, i);
      hit := i;
      if i >= 0 {
        obstacles := RemoveAt(obstacles, i);
        laser.Destroy();
      }
    }

    /** The enemy scan of one laser whose bounding box sits at `box`: walking from the
        last enemy, the first one the laser touches takes 50 damage, leaves the list if
        that killed it, and the laser is destroyed. `P` holds the enemies' positions. */
    method HitEnemy(laser: Laser, box: Vec3, hits: (Vec3, Vec3) -> bool, ghost P: seq<Vec3>)
      returns (ghost hit: int, killed: bool)
      requires NoDup(enemies)
      requires |P| == |enemies| && forall k :: 0 <= k < |P| ==> P[k] == enemies[k].position
      modifies this`enemies, (set e | e in enemies)`health, (set e | e in enemies)`removeFlag, laser`disposed
      ensures NoDup(enemies)
      ensures hit == LastHit(P, box, hits)
      ensures killed ==> hit >= 0
      ensures hit >= 0 ==>
        old(enemies)[hit].health == old(enemies[hit].health) - LaserDamage && (killed <==> old(enemies)[hit].health <= 0.0)
      ensures hit >= 0 ==> old(enemies)[hit].removeFlag == (old(enemies[hit].removeFlag) || killed)
      ensures forall k :: 0 <= k < |old(enemies)| && k != hit ==>
        old(enemies)[k].health == old(enemies[k].health) && old(enemies)[k].removeFlag == old(enemies[k].removeFlag)
      ensures enemies == if killed then RemoveAt(old(enemies), hit) else old(enemies)
      ensures forall e :: e in enemies ==> e in old(enemies)
      ensures forall e :: e in old(enemies) ==> e.health <= old(e.health) && (e !in enemies ==> e.removeFlag)
      ensures laser.disposed == (old(laser.disposed) || hit >= 0)
    {
      var i := ScanEnemies(box, hits, P);
      hit := i;
      killed := false;
      if i >= 0 {
        killed := StrikeEnemy(i);
        laser.Destroy();
      }
    }

    /** Deals one laser's damage to the i-th enemy, which leaves the list when killed. */
    method StrikeEnemy(i: nat) returns (killed: bool)
      requires i < |enemies| && NoDup(enemies)
      modifies this`enemies, (set e | e in enemies)`health, (set e | e in enemies)`removeFlag
      ensures NoDup(enemies)
      ensures old(enemies)[i].health == old(enemies[i].health) - LaserDamage && (killed <==> old(enemies)[i].health <= 0.0)
      ensures old(enemies)[i].removeFlag == (old(enemies[i].removeFlag) || killed)
      ensures forall k :: 0 <= k < |old(enemies)| && k != i ==>
        old(enemies)[k].health == old(enemies[k].health) && old(enemies)[k].removeFlag == old(enemies[k].removeFlag)
      ensures enemies == if killed then RemoveAt(old(enemies), i) else old(enemies)
      ensures forall e :: e in enemies ==> e in old(enemies)
      ensures forall e :: e in old(enemies) ==> e.health <= old(e.health) && (e !in enemies ==> e.removeFlag)
    {
      killed := enemies[i].TakeDamage(LaserDamage);
      if killed {
        RemoveAtNoDup(enemies, i);
        ghost var E := enemies;
        enemies := RemoveAt(enemies, i);
        forall e | e in E && e !in enemies
          ensures e == E[i]
        {
          var k :| 0 <= k < |E| && E[k] == e;
        }
      }
    }

    /** The index of the last enemy a laser at `box` touches, or -1; `P` holds the
        enemies' positions. */
    method ScanEnemies(box: Vec3, hits: (Vec3, Vec3) -> bool, ghost P: seq<Vec3>) returns (i: int)
      requires |P| == |enemies| && forall k :: 0 <= k < |P| ==> P[k] == enemies[k].position
      ensures i == LastHit(P, box, hits)
    {
      i := |enemies| - 1;
      while i >= 0 && !hits(box, enemies[i].position)
        invariant -1 <= i < |P|
        invariant forall k :: i < k < |P| ==> !hits(box, P[k])
      {
        i := i - 1;
      }
      LastHitUnique(P, box, hits, i);
    }

    /** Both scans of one laser, against its bounding box taken once at the start.
        The enemy scan runs whether or not the meteor scan hit, so one laser can
        remove a meteor and damage an enemy in the same frame. */
    method ResolveLaser(laser: Laser, hitsObstacle: (Vec3, Vec3) -> bool, hitsEnemy: (Vec3, Vec3) -> bool)
      returns (ghost enemyHit: int, killed: bool)
      requires NoDup(enemies)
      modifies this`obstacles, this`enemies, (set e | e in enemies)`health, (set e | e in enemies)`removeFlag, laser`disposed
      ensures NoDup(enemies)
      ensures obstacles == HitOnce(old(obstacles), old(laser.position), hitsObstacle)
      ensures -1 <= enemyHit < old(|enemies|)
      ensures enemyHit >= 0 ==> hitsEnemy(old(laser.position), old(enemies[enemyHit].position))
      ensures forall k :: enemyHit < k < old(|enemies|) ==> !hitsEnemy(old(laser.position), old(enemies[k].position))
      ensures killed ==> enemyHit >= 0
      ensures enemies == if killed then RemoveAt(old(enemies), enemyHit) else old(enemies)
      ensures forall e :: e in enemies ==> e in old(enemies)
      ensures forall e :: e in old(enemies) ==> e.health <= old(e.health) && (e !in enemies ==> e.removeFlag)
      ensures laser.disposed == (old(laser.disposed) || |obstacles| < old(|obstacles|) || enemyHit >= 0)
    {
      var box := laser.position;
      ghost var positions := EnemyPositions(enemies);
      var obstacleHit := HitObstacle(laser, box, hitsObstacle);
      assert obstacleHit >= 0 <==> |obstacles| < old(|obstacles|);
      assert enemies == old(enemies);
      forall e | e in enemies
        ensures e.health == old(e.health) && e.removeFlag == old(e.removeFlag)
      {
      }
      enemyHit, killed := HitEnemy(laser, box, hitsEnemy, positions);
    }

    /** One turn of the collision loop over the lasers `L`: the n-th laser is resolved,
        and what the loop keeps about meteors, enemies and lasers carries over. The
        meteors left after n lasers at positions `P` from `O0` become those left after
        n + 1; the enemies stay among `E0`, none has more health than `H0` records for
        it, and each that left the list is flagged for removal; a laser disposed in
        `D0` stays disposed. */
    method ResolveNext(L: seq<Laser>, n: nat, hitsObstacle: (Vec3, Vec3) -> bool, hitsEnemy: (Vec3, Vec3) -> bool,
                       ghost O0: seq<Obstacle>, ghost P: seq<Vec3>, ghost E0: seq<Enemy>, ghost H0: seq<real>,
                       ghost D0: seq<bool>)
      requires NoDup(enemies)
      requires n < |L| == |P| && P[n] == L[n].position
      requires obstacles == ObstaclesAfter(O0, P, n, hitsObstacle)
      requires forall e :: e in enemies ==> e in E0
      requires OnlyWeakened(E0, H0, enemies) && StillDisposed(L, D0)
      modifies this`obstacles, this`enemies, (set e | e in E0)`health, (set e | e in E0)`removeFlag, (set l | l in L)`disposed
      ensures NoDup(enemies)
      ensures obstacles == ObstaclesAfter(O0, P, n + 1, hitsObstacle)
      ensures forall e :: e in enemies ==> e in E0
      ensures OnlyWeakened(E0, H0, enemies) && StillDisposed(L, D0)
    {
      ghost var before := enemies;
      var _, killed := ResolveLaser(L[n], hitsObstacle, hitsEnemy);
      forall k | 0 <= k < |E0|
        ensures E0[k].health <= H0[k] && (E0[k] !in enemies ==> E0[k].removeFlag)
      {
        if E0[k] in before {
        }
      }
    }

    /** Resolves every laser in turn against the meteors and the enemies. `P`, `H`
        and `D` hold the lasers' positions, the enemies' health and the lasers'
        disposal on entry. Each laser removes the meteors exactly as `ObstaclesAfter`
        says of `P`; enemies only lose health and leave the list only once killed; no
        laser is revived. */
    method CheckLaserCollisions(lasers: seq<Laser>, hitsObstacle: (Vec3, Vec3) -> bool, hitsEnemy: (Vec3, Vec3) -> bool,
                                ghost P: seq<Vec3>, ghost H: seq<real>, ghost D: seq<bool>)
      requires Valid()
      requires |P| == |lasers| && forall k :: 0 <= k < |P| ==> P[k] == lasers[k].position
      requires |H| == |enemies| && forall k :: 0 <= k < |H| ==> H[k] == enemies[k].health
      requires |D| == |lasers| && forall k :: 0 <= k < |D| ==> D[k] == lasers[k].disposed
      modifies this`obstacles, this`enemies, (set e | e in enemies)`health, (set e | e in enemies)`removeFlag, (set l | l in lasers)`disposed
      ensures Valid()
      ensures obstacles == ObstaclesAfter(old(obstacles), P, |P|, hitsObstacle)
      ensures forall e :: e in enemies ==> e in old(enemies)
      ensures OnlyWeakened(old(enemies), H, enemies) && StillDisposed(lasers, D)
    {
      for i := 0 to |lasers|
        invariant Valid()
        invariant obstacles == ObstaclesAfter(old(obstacles), P, i, hitsObstacle)
        invariant forall e :: e in enemies ==> e in old(enemies)
        invariant OnlyWeakened(old(enemies), H, enemies) && StillDisposed(lasers, D)
      {
        ResolveNext(lasers, i, hitsObstacle, hitsEnemy, old(obstacles), P, old(enemies), H, D);
      }
    }
  }
}
