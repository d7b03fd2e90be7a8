# Starbreaker game-state model

A Dafny model of the game-state bookkeeping that sits under the rendering of the
Three.js endless runner *starbreaker*. The model covers:

- **World generator** (`world_generator.dfy`, module `World`):
  - spawns a batch of meteors and enemies once the player has travelled 50 units past the last batch;
  - lays each batch out on a jittered square grid 300 units ahead, keeping a lane in front of the player clear;
  - lowers the spawn interval after each batch, never below a floor of 20;
  - each frame, drops meteors left behind, splices out enemies flagged for removal and moves the other enemies one pursuit step;
  - resolves each laser against the meteors and then against the enemies.
- **Enemies** (`enemy.dfy`, module `Enemies`):
  - health and speed come from the enemy's level;
  - each update is a pursuit step;
  - `takeDamage` decides whether the hit kills;
  - the removal flag is one-way.
- **Lasers** (`laser.dfy`, module `Lasers`):
  - the stored direction is scaled in place by 8 on every update, so the steps grow geometrically;
  - the 150-float trail buffer is shifted in place;
  - a laser is retired once past the far bound z < -1000.
- **Player** (`player.dfy`, module `Players`):
  - speed selection (warp beats boost, boost beats cruising) and banking sensitivity;
  - x/y smoothing toward the steering target, and the bank angle;
  - the `canShoot` gate;
  - the backward loop that advances every laser and splices out the expired ones.
- **Ship stats** (`ship_stats.dfy`, module `Stats`): the shield absorbs damage first; energy is spent only when enough is available; recharges are capped at 100.
- **Input manager** (`input_manager.dfy`, module `Input`): key events become a five-field intent record; the last event on an axis wins.
- **Flight path and level** (`flight_path.dfy`, `level.dfy`): difficulty grows with elapsed time; the wormhole flag selects the speed; the level eases its speed and accumulates progress.
- **Shared helpers** (`geometry.dfy`): vectors and the sequence helpers for splicing loops.

## How the game's concepts are represented

- Positions and numbers are Dafny `real`s (see Left out for floating point).
- Each class whose fields the game updates in place is a Dafny `class` with those fields. Its methods carry `modifies` clauses.
- A meteor is a value (`World.Obstacle`) holding only its position. The model's collision test `hits` looks at positions alone (see Left out for what that omits).
- Destroying a laser or an enemy is modelled as setting a flag: `Laser.disposed` or `Enemy.removeFlag`.
- Each backward splicing loop is a `while` loop that removes entries with `RemoveAt`, the model of `splice(i, 1)`. The meteor loop (`World.WorldGenerator.RemoveFarObstacles`) splices the `obstacles` field itself. The laser and enemy loops (`Players.Player.AdvanceAll`, `World.WorldGenerator.SweepEnemies`) are static methods that splice a local `kept`, and their callers assign the result back to the field. Each loop is proved equal to `Keep`, a reference filter on values.
- Random draws (`Math.random`) are parameters in [0, 1):
  - `countDraw` gives the batch size;
  - each `World.SlotDraw` gives one slot's two jitters and its kind.
- Bounding-box intersection is an abstract predicate `hits(laserPosition, targetPosition)`.
- Vector normalisation is a function parameter `normalize`.
- The reticle's aim point is a parameter `target`.

Where the code departs from its own comments, or does something easy to misread, the model follows the code:

- A batch holds 4 to 9 entities, although the comment at `src/environment/WorldGenerator.ts:59` says 4-10. The `Math.min(…, 10)` cap never takes effect (`World.BatchCount`).
- The comment at `src/environment/WorldGenerator.ts:76` says obstacles are kept out of the player's path. The push-out does this only by shifting x, by 8 with the sign of x (zero counts as positive). It never shifts y (`World.PushOut`).
- For each laser, the enemy scan runs even after the meteor scan has hit, so one laser can both remove a meteor and damage an enemy (`World.WorldGenerator.ResolveLaser`).
- The spawn grid is not centred on the player's line: subtracting half the grid width (`src/environment/WorldGenerator.ts:66-67`) puts the cell centres half a cell to the left and below, at -45, -15 and 15 for a 3-wide grid (`World.GridOffCentre`).
- Both collision scans run from the last index down, so the highest-index target hit is the one affected (`World.LastHit`).
- Lasers that have already been destroyed are not filtered out and keep colliding (`World.WorldGenerator.CheckLaserCollisions`).
- `spawnInterval` is lowered after each batch but never read. Spawning is triggered by distance alone.
- The game loop never calls `checkLaserCollisions`. It is modelled as an operation in its own right.
- `Player.shoot` computes a banked, normalised direction and then discards it. The laser is built from the start and target points only.

## Model

| member | source | states |
|---|---|---|
| Stats.Absorb | src/entities/ShipStats.ts:6-16 | A hit never changes health + shield by anything but the amount, whatever the inputs. A non-negative shield never goes negative. A shield that holds a positive hit leaves health intact. A smaller live shield is emptied and the overflow reaches health. With no shield, health takes all of it. |
| Stats.Recharge | src/entities/ShipStats.ts:26-32 | The recharged meter is at most 100 and at most old + amount. It is exactly old + amount when that fits, and 100 otherwise. |
| Stats.ShipStats.constructor | src/entities/ShipStats.ts:2-4 | Health, shield and energy all start at 100. |
| Stats.ShipStats.TakeDamage | src/entities/ShipStats.ts:6-16 | The new health and shield are `Absorb` of the old ones. Energy is untouched. |
| Stats.ShipStats.UseEnergy | src/entities/ShipStats.ts:18-24 | Reports success exactly when energy covers the amount. Only then is the amount subtracted; otherwise energy is unchanged. |
| Stats.ShipStats.RechargeEnergy | src/entities/ShipStats.ts:26-28 | Energy becomes `Recharge(old, amount)`, so it is capped at 100. |
| Stats.ShipStats.RechargeShield | src/entities/ShipStats.ts:30-32 | Shield becomes `Recharge(old, amount)`, so it is capped at 100. |
| Stats.ShipStats.GetHealth | src/entities/ShipStats.ts:34-36 | Returns health and modifies nothing. |
| Stats.ShipStats.GetShield | src/entities/ShipStats.ts:38-40 | Returns shield and modifies nothing. |
| Stats.ShipStats.GetEnergy | src/entities/ShipStats.ts:42-44 | Returns energy and modifies nothing. |
| Levels.TargetSpeed | src/game/Level.ts:7 | The target is 0.5 exactly when boosting and 0.2 otherwise. Both lie in [0.2, 0.5]. |
| Levels.Ease | src/game/Level.ts:8 | One step leaves 90% of the gap to the target. It never overshoots, from either side. |
| Levels.EaseStepsGap | src/game/Level.ts:7-8 | After k frames aimed at one target, the remaining gap is 0.9^k of the initial gap. |
| Levels.EaseStepsMonotone | src/game/Level.ts:7-8 | With the boost key held steady, the speed moves monotonically toward the target and never passes it, from either side. |
| Levels.Level.constructor | src/game/Level.ts:2-4 | Speed starts at 0.2 and progress at 0. The speed band invariant holds. |
| Levels.Level.Update | src/game/Level.ts:6-11 | Speed is eased toward `TargetSpeed(boost)` and stays within [0.2, 0.5]. Progress grows strictly, by the new speed. The return value is the new progress. |
| Flight.DifficultyAfterTotal | src/game/FlightPath.ts:26 | After any run of updates, difficulty is its start plus a tenth of the total elapsed time. |
| Flight.DifficultyNonDecreasing | src/game/FlightPath.ts:14-26 | With non-negative time steps, difficulty never falls. Starting from 1, it stays at least 1. |
| Flight.FlightPath.constructor | src/game/FlightPath.ts:11-15 | Speed starts at 0.5, position at the origin, difficulty at 1, with no wormhole. |
| Flight.FlightPath.Update | src/game/FlightPath.ts:17-27 | Stores the player position. Speed becomes 5.0 under the wormhole and 0.5 otherwise. Difficulty grows by exactly dt·0.1, so it does not fall when dt ≥ 0. |
| Flight.FlightPath.SetWormholeState | src/game/FlightPath.ts:29-31 | Only the wormhole flag changes. |
| Flight.FlightPath.GetDifficulty | src/game/FlightPath.ts:33-35 | Returns the difficulty and modifies nothing. |
| Flight.FlightPath.GetSpeed | src/game/FlightPath.ts:37-39 | Returns the forward speed and modifies nothing. |
| Input.AxisValue | src/core/InputManager.ts:40-55 | An axis event yields -1, 0 or 1. Key-up gives 0. Key-down on left or down gives -1; on right or up it gives 1. |
| Input.Apply | src/core/InputManager.ts:38-67 | One event keeps the axes in {-1, 0, 1}. An unbound key changes nothing. Each field is changed only by its own keys: Shift sets boosting, Space sets shooting and Tab sets warping, each to whether the key is down. |
| Input.AxesFollowLastEvent | src/core/InputManager.ts:40-55 | Last press wins: after any run of events, each axis holds the value given by the latest event on one of that axis's keys. |
| Input.ReplayKeepsAxes | src/core/InputManager.ts:42-54 | Every intent record reachable from the idle one has both axes in {-1, 0, 1}. |
| Input.ReleaseIgnoresHeldKey | src/core/InputManager.ts:33-47 | Pressing A then D then releasing A leaves D held and the horizontal axis at 0. |
| Input.InputManager.constructor | src/core/InputManager.ts:10-17 | No keys are held, and the record is idle (axes 0, all flags false). |
| Input.InputManager.HandleKeyDown | src/core/InputManager.ts:28-31 | The code joins the held set, and the record becomes `Apply` of a key-down event. |
| Input.InputManager.HandleKeyUp | src/core/InputManager.ts:33-36 | The code leaves the held set, and the record becomes `Apply` of a key-up event. |
| Input.InputManager.UpdateInputState | src/core/InputManager.ts:38-67 | The record becomes `Apply` of the event, and the axes stay in range. |
| Input.InputManager.GetInput | src/core/InputManager.ts:69-71 | Returns the record as a value, so changing the copy cannot reach the manager. |
| Enemies.SeekApproaches | src/entities/Enemy.ts:91-92 | When normalisation is a positive scaling, a pursuit step at positive speed moves the enemy toward the player on every axis. It does not move at all on an axis where the two are already aligned. |
| Enemies.LevelScaling | src/entities/Enemy.ts:49-51 | Each level adds exactly 100 health and makes the enemy strictly faster. Every level from 1 up moves. Any damage a lower level survives, a higher level survives too. |
| Enemies.Spawned | src/entities/Enemy.ts:41-51 | A new enemy is not flagged and sits at its spawn position. At level ≥ 1 it has at least 100 health and a speed of at least 0.3. |
| Enemies.Pursued | src/entities/Enemy.ts:90-103 | A pursuit step moves the enemy by the seek rule and changes neither health, speed nor the removal flag. |
| Enemies.Damaged | src/entities/Enemy.ts:105-119 | Damage lowers health by exactly the amount. It is a kill exactly when health drops to 0 or below. A kill sets the flag, and nothing clears a flag already set. |
| Enemies.Enemy.constructor | src/entities/Enemy.ts:41-51 | Health is 100·level and speed is 0.2 + 0.1·level. The enemy is not flagged. Its state is `Spawned`. |
| Enemies.Enemy.Update | src/entities/Enemy.ts:90-103 | Only the position (one seek step) and the pulse phase change. Health and the flag are outside the frame. |
| Enemies.Enemy.TakeDamage | src/entities/Enemy.ts:105-119 | Health drops by the amount. Reports a kill exactly when health ≤ 0, and the flag is then set. A survived hit leaves the flag as it was. |
| Enemies.Enemy.Destroy | src/entities/Enemy.ts:121-124 | The flag is set. Calling it again leaves it set. |
| Enemies.Enemy.IsRemoved | src/entities/Enemy.ts:126-128 | Reports exactly the removal flag of the enemy's state, the flag the world's sweep drops enemies by. |
| Enemies.RemovalIsFinal | src/entities/Enemy.ts:90-128 | The removal flag is one-way: neither a pursuit step nor any damage clears it once set, and damage that kills sets it. |
| Lasers.ShiftTrail | src/entities/Laser.ts:87-95 | The trail keeps its 150 floats. Triple k takes the old triple k-1, and triple 0 holds the new position. |
| Lasers.ClosedFormStep | src/entities/Laser.ts:84 | One more in-place scaling multiplies the step by 8, and adding it extends the distance sum by one term. |
| Lasers.FlyClosedForm | src/entities/Laser.ts:84 | After k updates, the stored direction is d·8^k and the laser has moved by d·(8 + … + 8^k). |
| Lasers.TravelAtLeast | src/entities/Laser.ts:84 | After k updates the laser has covered at least 8k times its initial direction. |
| Lasers.EventuallyOutOfBounds | src/entities/Laser.ts:82-103 | A laser with any forward (negative z) direction passes the far bound after finitely many updates. |
| Lasers.Step | src/entities/Laser.ts:82-104 | One update moves the laser by the scaled direction and shifts the trail. It reports out of bounds exactly past z < -1000, and the laser is then disposed. |
| Lasers.Fired | src/entities/Laser.ts:18-48 | A laser just fired sits at its start, is live, and has a trail of 150 zeros. |
| Lasers.Laser.constructor | src/entities/Laser.ts:18-48 | The laser starts at the start position, aimed at the target by the normalised difference. It is not disposed, and its 150-float trail is zeroed and freshly allocated. |
| Lasers.Laser.Update | src/entities/Laser.ts:82-104 | The direction is scaled by 8 in place and added to the position. The trail array is shifted in place as `ShiftTrail` says. Returns true exactly when z < -1000, and `destroy` has then been applied. The whole new state is `Step` of the old. |
| Lasers.Laser.Destroy | src/entities/Laser.ts:106-113 | The laser is disposed. |
| Players.FrameSpeed | src/entities/Player.ts:149-151 | Speed is 8 exactly when warping, 2 exactly when boosting without warp, and 1 exactly otherwise. |
| Players.Sensitivity | src/entities/Player.ts:147 | Sensitivity is 0.1 scaled by 0.6 under warp, 0.8 under boost, and 1 otherwise. It always lies in (0, 0.1]. |
| Players.Approach | src/entities/Player.ts:153-154 | Moving a fraction of the way leaves the gap scaled by (1 - rate). For a rate in [0, 1], the result lies between the start and the target. |
| Players.FractionBounds | src/entities/Player.ts:153-156 | The arithmetic behind `Approach`: the remaining gap is the old gap times (1 - rate), and the new point lies between start and target. |
| Players.Moved | src/entities/Player.ts:140-155 | x ends between the old x and 50·input.x, and y between the old y and 40·input.y. z falls by exactly `FrameSpeed`, so always strictly. |
| Players.Banked | src/entities/Player.ts:143-156 | The bank angle ends between its old value and the roll the input asks for. |
| Players.Player.constructor | src/entities/Player.ts:17-20 | The ship starts at the origin, unrolled and not boosting. It has no lasers and may shoot. |
| Players.Player.Move | src/entities/Player.ts:140-165 | The position becomes `Moved` and the roll becomes `Banked`. The boosting flag is stored. Particles show exactly under boost or warp, scaled 2 under warp and 1.5 under boost. |
| Players.Player.Shoot | src/entities/Player.ts:167-187 | Fires nothing when the gun is not ready. Otherwise exactly one fresh, live laser is appended at the ship's position, aimed at the target; its state is `Fired`. Either way `canShoot` is false afterwards. |
| Players.Player.CooldownElapsed | src/entities/Player.ts:186 | The gun may shoot again. |
| Players.Player.AdvanceOne | src/entities/Player.ts:190-195 | Updating the i-th laser leaves the lasers before it untouched and adds it to those advanced by one `Step`. |
| Players.Player.AdvanceAll | src/entities/Player.ts:189-196 | The backward loop leaves exactly `Keep(lasers, expired)`. Every laser took exactly one `Step`, and `expired` holds what each update reported. |
| Players.Player.UpdateLasers | src/entities/Player.ts:189-196 | Every laser is updated once: its state is one `Step` past its state on entry, and `expired` holds what each update reported. Exactly those whose update returned true are removed, in order. The lasers stay distinct with distinct trails. |
| Players.Player.Update | src/entities/Player.ts:198-205 | The position becomes `Moved` and the roll `Banked`. The boosting flag is stored, and the particles show and scale as in `Move`. A shot is fired only when the trigger is held and the gun is ready, and the new laser starts in the `Fired` state. Every laser, including the new one, is then exactly one `Step` past its state on entry. Exactly those whose update reported expiry are dropped, in order (`Keep`). |
| Players.Player.FireAndAdvance | src/entities/Player.ts:200-203 | `Shoot` runs only while shooting, and fires only when the gun is ready. The new laser starts in the `Fired` state. Then every laser, including the new one, is exactly one `Step` past its state on entry. Exactly those whose update reported expiry are dropped, in order. |
| Players.Player.PullTrigger | src/entities/Player.ts:200-202 | Fires only when the trigger is held and the gun is ready, appending one fresh laser in the `Fired` state. The lasers already there keep their states. `canShoot` is cleared only by a held trigger. |
| World.BatchCount | src/environment/WorldGenerator.ts:59 | For a draw in [0, 1), the batch holds floor(6r) + 4 entities, between 4 and 9. The cap at 10 never binds. |
| World.CeilSqrt | src/environment/WorldGenerator.ts:62 | The grid side is the least g with g² ≥ n. |
| World.BatchGrid | src/environment/WorldGenerator.ts:59-62 | Batches of 4 use a 2×2 grid, and batches of 5 to 9 a 3×3 grid. |
| World.GridOffCentre | src/environment/WorldGenerator.ts:66-67 | The cell centres are symmetric about half a cell left of (below) the player's line, not about it: -45, -15, 15 for a 3-wide grid and -30, 0 for a 2-wide one. |
| World.Jittered | src/environment/WorldGenerator.ts:66-72 | A jitter draw in [0, 1) moves a coordinate at most 0.75 cells to the left of its cell centre and less than 0.75 cells to the right. |
| World.SlotPosition | src/environment/WorldGenerator.ts:65-74 | Every slot is placed at the player's z minus 300. |
| World.PushOut | src/environment/WorldGenerator.ts:76-79 | No pushed position lies inside the 8-unit lane. Only x moves: by 8, away from the centre on its own side (zero counts as positive). y and z never change. A position outside the lane is left alone. |
| World.SlotSpot | src/environment/WorldGenerator.ts:70-79 | Every final spawn spot is 300 ahead and off the lane. |
| World.SpotsAheadOffLane | src/environment/WorldGenerator.ts:65-85 | Every meteor and every enemy of a batch spawns 300 ahead of the player and off the lane. |
| World.SpotsPartition | src/environment/WorldGenerator.ts:65-85 | The slots of a batch split exactly into enemies and meteors, so a batch of n adds exactly n entities. |
| World.BatchObstacles | src/environment/WorldGenerator.ts:57-90 | A batch's meteors and enemies together number its size, and every meteor sits 300 ahead of the player. |
| World.NextInterval | src/environment/WorldGenerator.ts:89 | The interval never goes below 20 and never rises. Above 20.1 it drops by exactly 0.1. |
| World.FarFlags | src/environment/WorldGenerator.ts:40 | A meteor is marked for cleanup exactly when it is more than 100 units behind the player. |
| World.CleanupKeepsNear | src/environment/WorldGenerator.ts:30-44 | The cleanup keeps a meteor exactly when it is no more than 100 units behind the player. |
| World.LastHit | src/environment/WorldGenerator.ts:163-171 | The backward first-hit scan yields an index whose target is touched and above which none is, or -1. |
| World.LastHitUnique | src/environment/WorldGenerator.ts:163-183 | Those facts single out one index, so any loop that establishes them computes `LastHit`. |
| World.HitOnce | src/environment/WorldGenerator.ts:163-171 | One laser's meteor scan removes at most one meteor. |
| World.HitOnceRemoves | src/environment/WorldGenerator.ts:163-171 | A meteor is removed exactly when the laser touches some meteor. No meteor appears that was not there before. |
| World.ObstaclesAfter | src/environment/WorldGenerator.ts:159-171 | After n lasers' scans, at most n meteors are gone. |
| World.ObstaclesAfterSubset | src/environment/WorldGenerator.ts:159-171 | No run of scans brings back or creates a meteor. |
| World.WorldGenerator.constructor | src/environment/WorldGenerator.ts:7-16 | No meteors or enemies. The interval starts at 30, the last spawn depth is 0, and the flight path is kept. |
| World.WorldGenerator.Update | src/environment/WorldGenerator.ts:18-26 | A batch spawns exactly when the player is past the last spawn depth minus 50. Only then does the spawn depth move to the player's z and the interval fall. Afterwards the meteors are the old ones plus the batch, cleaned by `FarFlags`. The new enemies are fresh, one per enemy slot, each `Spawned` at its slot's spot at level floor(difficulty). Every enemy, old or new, was swept exactly once: those flagged for removal are spliced out, in order, and the rest take one pursuit step. |
| World.WorldGenerator.UpdateEntities | src/environment/WorldGenerator.ts:28-55 | Keeps exactly the near meteors, in order. Drops exactly the enemies flagged for removal, in order. Every other enemy takes exactly one pursuit step, and the removed ones are left as they were. |
| World.WorldGenerator.RemoveFarObstacles | src/environment/WorldGenerator.ts:30-44 | The backward splice loop leaves `Keep(obstacles, FarFlags(obstacles, z))`. |
| World.WorldGenerator.SweepOne | src/environment/WorldGenerator.ts:48-53 | Visiting the i-th enemy leaves those before it untouched. It either reports the enemy removed, unchanged, or moves it one pursuit step. |
| World.WorldGenerator.SweepEnemies | src/environment/WorldGenerator.ts:47-54 | The backward enemy loop leaves exactly the unflagged enemies in order. Each was swept exactly once. |
| World.WorldGenerator.SpawnObstacles | src/environment/WorldGenerator.ts:57-90 | Appends the batch's meteors and as many fresh enemies as the batch has enemy slots, each spawned at its slot at level floor(difficulty). The interval takes one `NextInterval` step. |
| World.WorldGenerator.SpawnSlots | src/environment/WorldGenerator.ts:65-86 | Slot by slot, a draw below 0.3 becomes a fresh enemy at its spot and any other a meteor, in slot order. The enemies stay distinct. |
| World.WorldGenerator.SpawnObstacle | src/environment/WorldGenerator.ts:146 | Appends one meteor at the position. |
| World.WorldGenerator.SpawnEnemy | src/environment/WorldGenerator.ts:150-153 | Appends one fresh enemy at the position, at level floor(difficulty). |
| World.WorldGenerator.HitObstacle | src/environment/WorldGenerator.ts:163-171 | Removes the last meteor the laser touches, if any, and the laser is disposed exactly then. |
| World.WorldGenerator.HitEnemy | src/environment/WorldGenerator.ts:174-183 | The last enemy the laser touches, if any, takes exactly 50 damage. It leaves the list exactly when that kills it, and is flagged then. Every other enemy is untouched. The laser is disposed exactly on a hit. |
| World.WorldGenerator.ScanEnemies | src/environment/WorldGenerator.ts:174-176 | The backward scan finds `LastHit` over the enemies' positions. |
| World.WorldGenerator.StrikeEnemy | src/environment/WorldGenerator.ts:177-179 | The struck enemy loses 50 health and is spliced out exactly when killed, and is then flagged. The others keep their health and flags, and the list stays distinct. |
| World.WorldGenerator.ResolveLaser | src/environment/WorldGenerator.ts:159-183 | Meteors become `HitOnce` of the laser's position. The enemy scan runs regardless and hits the last touched enemy, which leaves exactly when killed. No enemy gains health, and any enemy that leaves is flagged. The laser is disposed exactly when either scan hit, or if it already was. |
| World.WorldGenerator.ResolveNext | src/environment/WorldGenerator.ts:159-183 | One turn of the laser loop takes the meteors from `ObstaclesAfter` n lasers to n + 1. It keeps the enemies within the starting set, weakened only and flagged when gone, and keeps disposed lasers disposed. |
| World.WorldGenerator.CheckLaserCollisions | src/environment/WorldGenerator.ts:155-185 | The meteors left are `ObstaclesAfter` all the lasers' positions. The enemies left are among the old ones. None gained health, and each that left is flagged for removal. No disposed laser is revived. |
| Geometry.RemoveAt | src/environment/WorldGenerator.ts:42 | Splicing out index i keeps every element before i, shifts every one after it down by one, and shortens the list by one. |
| Geometry.KeepMembers | src/environment/WorldGenerator.ts:30-54 | Filtering keeps exactly the unflagged elements. |
| Geometry.SpliceOut | src/entities/Player.ts:190-195 | One backward splice step: removing entry i when it is flagged extends the filtered part by one, so the loop's result stays of the form untouched prefix + `Keep` of the rest. |
| Geometry.KeepNoDup | src/environment/WorldGenerator.ts:47-54 | Filtering a list of distinct entities keeps them distinct. |

## Left out

- Floating point: numbers are exact `real`s. The 32-bit floats of the trail buffer and the 64-bit rounding of positions are not modelled.
- The Three.js scene is not modelled: meshes, geometries, materials, shaders, `scene.add`/`remove` and `dispose`. Destroying a laser or an enemy is the `disposed` or `removeFlag` flag.
- Vector normalisation (a square root) is the `normalize` parameter. `Enemies.SeekApproaches` states what a pursuit step does when `normalize` is a positive scaling.
- `Box3` intersection is the abstract `hits` predicate over two positions. The laser's box is taken once per laser, as the code takes it once per laser. The code's boxes come from the transformed meshes (`setFromObject`), so each entity's size and orientation feed the real test: a meteor's random scale of 0.8 to 2.0 and its random rotation, an enemy's `lookAt` turn and tilt, and the laser cylinder's orientation toward its target. `hits` leaves all of these out; it cannot tell a large meteor from a small one at the same spot, or two differently aimed lasers at the same point. No proved property depends on what `hits` decides.
- `Math.random` draws are parameters: `countDraw` and one `SlotDraw` per slot. The other draws in `spawnObstacle` (vertex jitter, rotation, spin, scale) are left out. Spin only animates, but the vertex jitter, rotation and scale shape the meteor's collision box, which the abstract `hits` does not see.
- Meteor spin in `updateEntities`, the enemy's `lookAt` and tilt, and its core opacity are left out. Spin and opacity are visual only; `lookAt` and tilt turn the enemy's mesh and so its collision box, which the abstract `hits` does not see. The pulse phase `glowPulse` is kept.
- `setTimeout` is left out. The cooldown re-enabling `canShoot` is the explicit event `Players.Player.CooldownElapsed`. The enemy's damage flash is dropped.
- Player parts not modelled:
  - the banked, normalised `direction` that `shoot` computes and discards;
  - the reticle (its aim point is the `target` parameter);
  - the unused fields `speed`, `position` (0, 0, -5), `velocity` and `stats`;
  - `shootCooldown`, which is read only as the `setTimeout` delay and is dropped with the timer;
  - the getters: `getPosition` and `getRotation` return clones of the mesh's state, and `getLasers` returns the live `lasers` array itself, an alias through which a caller could change the player's list. The model gives callers no such alias.
- `StarField`, `Reticle`, `Game`, `main`, the DOM listener registration and `preventDefault` are not part of this model.
- Some operations are split into several members to keep each proof small; they model one source method. These are:
  - `AdvanceOne`/`AdvanceAll` (`updateLasers`);
  - `PullTrigger`/`FireAndAdvance` (`update`);
  - `SweepOne`/`SweepEnemies` and `RemoveFarObstacles` (`updateEntities`);
  - `SpawnSlots` (`spawnObstacles`);
  - `HitObstacle`, `ScanEnemies`, `StrikeEnemy`, `HitEnemy`, `ResolveLaser` and `ResolveNext` (`checkLaserCollisions`).
- Several methods take ghost parameters (`S`, `P`, `H`, `D`) and return ghost results (`T`, `shot`, `newEnemies`). These are proof-only snapshots of the entities' state on entry, extended by the entities a call creates, and have no counterpart in the source.
- World.WorldGenerator.ResolveLaser: for the enemies it states the subset, no-health-gain and flag facts rather than the exact 50 damage to the hit enemy and the untouched rest. Those exact facts are on `World.WorldGenerator.HitEnemy` and `World.WorldGenerator.StrikeEnemy`, which it calls; restating them here makes the proof too costly.
- World.WorldGenerator.CheckLaserCollisions: over the whole loop it states, for the enemies, only that they stay among the old ones, never gain health and are flagged when they leave. It does not give their exact health. For the lasers it states only that no disposal is undone. The per-laser exact effects are on `HitObstacle`, `HitEnemy` and `ResolveLaser`.
- World.WorldGenerator.ResolveNext: for one turn of the laser loop it states only what the loop keeps (the meteors after n + 1 scans, enemies among the starting set, never gaining health, flagged when gone, disposals not undone). It does not say which enemy took the 50 damage or which laser was disposed; those per-laser facts are on `World.WorldGenerator.ResolveLaser` and `World.WorldGenerator.HitEnemy`.
