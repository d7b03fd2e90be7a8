/** A hostile ship: health and speed scaled by its level, pursuit of the player,
    damage, and a one-way removal flag. */
module Enemies {
  import opened Geometry

  /** Damage dealt by one laser hit. */
  const LaserDamage: real := 50.0

  /** Health and speed of a new enemy at the given level. */
  function InitialHealth(level: int): real {
    100.0 * level as real
  }

  function InitialSpeed(level: int): real {
    0.2 + level as real * 0.1
  }

  /** Where an enemy at `position` ends up after one pursuit step of length `speed`
      toward `target`; `normalize` is the vector library's scaling to unit length. */
  function Seek(position: Vec3, target: Vec3, speed: real, normalize: Vec3 -> Vec3): Vec3 {
    Add(position, Scale(normalize(Sub(target, position)), speed))
  }

  /** When `normalize` shrinks a non-zero vector by a positive factor, as unit scaling
      does, a step at positive speed moves the enemy toward the target on every axis:
      closer in sign, and not at all on an axis where it is already aligned. */
  lemma SeekApproaches(position: Vec3, target: Vec3, speed: real, normalize: Vec3 -> Vec3, factor: real)
    requires speed > 0.0 && factor > 0.0
    requires normalize(Sub(target, position)) == Scale(Sub(target, position), factor)
    ensures var p := Seek(position, target, speed, normalize);
      (target.x > position.x ==> p.x > position.x) && (target.x < position.x ==> p.x < position.x) &&
      (target.x == position.x ==> p.x == position.x) &&
      (target.y > position.y ==> p.y > position.y) && (target.y < position.y ==> p.y < position.y) &&
      (target.y == position.y ==> p.y == position.y) &&
      (target.z > position.z ==> p.z > position.z) && (target.z < position.z ==> p.z < position.z) &&
      (target.z == position.z ==> p.z == position.z)
  {
    var d := Sub(target, position);
    var k := factor * speed;
    assert k > 0.0;
    assert Seek(position, target, speed, normalize) == Vec3(position.x + d.x * factor * speed,
      position.y + d.y * factor * speed, position.z + d.z * factor * speed);
    assert d.x * factor * speed == d.x * k && d.y * factor * speed == d.y * k && d.z * factor * speed == d.z * k;
  }

  /** Each level adds 100 health and 0.1 speed, so a higher level survives strictly
      more damage and pursues strictly faster; every real level moves. */
  lemma LevelScaling(low: int, high: int, damage: real)
    requires 1 <= low < high
    ensures InitialHealth(high) - InitialHealth(low) == 100.0 * (high - low) as real
    ensures InitialSpeed(high) > InitialSpeed(low) > 0.0
    ensures InitialHealth(low) - damage > 0.0 ==> InitialHealth(high) - damage > 0.0
  {
  }

  /** Everything an enemy's methods read or write, as one value. */
  datatype EnemyState = EnemyState(position: Vec3, health: real, speed: real, removeFlag: bool, glowPulse: real)

  /** A new enemy of the given level at `position`. */
  function Spawned(position: Vec3, level: int): (r: EnemyState)
    ensures !r.removeFlag && r.position == position
    ensures level >= 1 ==> r.health >= 100.0 && r.speed >= 0.3
  {
    EnemyState(position, InitialHealth(level), InitialSpeed(level), false, 0.0)
  }

  /** The state after one pursuit step toward `target`: only the position and the
      pulse phase move; health, speed and the removal flag stay as they were. */
  function Pursued(s: EnemyState, target: Vec3, normalize: Vec3 -> Vec3): (r: EnemyState)
    ensures r.health == s.health && r.speed == s.speed && r.removeFlag == s.removeFlag
    ensures r.position == Seek(s.position, target, s.speed, normalize)
  {
    s.(position := Seek(s.position, target, s.speed, normalize), glowPulse := s.glowPulse + 0.1)
  }

  /** The state after taking `amount` damage, and whether it was a kill. A kill is
      exactly a health of zero or less; it sets the removal flag, and nothing clears
      a flag already set. */
  function Damaged(s: EnemyState, amount: real): (r: (EnemyState, bool))
    ensures r.0.health == s.health - amount
    ensures r.1 <==> r.0.health <= 0.0
    ensures r.0.removeFlag == (s.removeFlag || r.1)
    ensures (r.0.position, r.0.speed, r.0.glowPulse) == (s.position, s.speed, s.glowPulse)
  {
    var health := s.health - amount;
    (s.(health := health, removeFlag := s.removeFlag || health <= 0.0), health <= 0.0)
  }

  /** The removal flag is one-way: neither a pursuit step nor any amount of damage
      clears a flag already set, and damage that kills sets it. */
  lemma RemovalIsFinal(s: EnemyState, target: Vec3, normalize: Vec3 -> Vec3, amount: real)
    ensures s.removeFlag ==> Pursued(s, target, normalize).removeFlag
    ensures s.removeFlag ==> Damaged(s, amount).0.removeFlag
    ensures Damaged(s, amount).1 ==> Damaged(s, amount).0.removeFlag
  {
  }

  class Enemy {
    var position: Vec3
    var health: real
    var speed: real
    var removeFlag: bool
    /** Phase of the cosmetic pulse and tilt. */
    var glowPulse: real

    ghost function State(): EnemyState
      reads this
    {
      EnemyState(position, health, speed, removeFlag, glowPulse)
    }

    constructor (position: Vec3, level: int)
      ensures this.position == position
      ensures health == InitialHealth(level) && speed == InitialSpeed(level)
      ensures !removeFlag && glowPulse == 0.0
      ensures State() == Spawned(position, level)
    {
      this.position := position;
      health := 100.0 * level as real;
      speed := 0.2 + level as real * 0.1;
      removeFlag := false;
      glowPulse := 0.0;
    }

    /** One pursuit step toward the player; health and the removal flag are left alone. */
    method Update(playerPosition: Vec3, normalize: Vec3 -> Vec3)
      modifies this`position, this`glowPulse
      ensures position == Seek(old(position), playerPosition, speed, normalize)
      ensures glowPulse == old(glowPulse) + 0.1
      ensures State() == Pursued(old(State()), playerPosition, normalize)
    {
      var direction := normalize(Sub(playerPosition, position));
      position := Add(position, Scale(direction, speed));
      glowPulse := glowPulse + 0.1;
    }

    /** Lowers health by `amount`; reports a kill, and removes the enemy, exactly when
        health has reached zero or below. */
    method TakeDamage(amount: real) returns (killed: bool)
      modifies this`health, this`removeFlag
      ensures health == old(health) - amount
      ensures killed <==> health <= 0.0
      ensures removeFlag == (old(removeFlag) || killed)
      ensures health <= 0.0 ==> removeFlag
      ensures (State(), killed) == Damaged(old(State()), amount)
    {
      health := health - amount;
      if health <= 0.0 {
        Destroy();
        return true;
      }
      return false;
    }

    /** Removes the enemy; calling it again changes nothing. */
    method Destroy()
      modifies this`removeFlag
      ensures removeFlag
    {
      removeFlag := true;
    }

    /** Whether the enemy has been taken out of play; the world's sweep drops exactly
        the enemies for which this holds. */
    function IsRemoved(): (r: bool)
      reads this
      ensures r <==> State().removeFlag
    {
      removeFlag
    }
  }

  /** Two hits of 50 on a level-1 enemy: the first leaves it alive, the second kills
      and removes it; a second destroy is harmless. */
  method TwoHitsScenario(position: Vec3)
  {
    var e := new Enemy(position, 1);
    var first := e.TakeDamage(LaserDamage);
    assert !first && !e.IsRemoved();
    var second := e.TakeDamage(LaserDamage);
    assert second && e.IsRemoved();
    e.Destroy();
    assert e.IsRemoved();
  }

  /** 150 damage removes a level-1 enemy but not a level-2 one. */
  method LevelScenario(position: Vec3)
  {
    var high := new Enemy(position, 2);
    var low := new Enemy(position, 1);
    var lowKilled := low.TakeDamage(150.0);
    var highKilled := high.TakeDamage(150.0);
    assert low.IsRemoved() && !high.IsRemoved();
  }
}
