/** The ship's health, shield and energy meters. */
module Stats {
  import opened Geometry

  /** Every meter's ceiling and starting value. */
  const Full: real := 100.0

  /** Health and shield after a hit of `amount`: the shield soaks it up first and
      only what it cannot hold reaches health; an empty shield lets all of it through. */
  function Absorb(health: real, shield: real, amount: real): (r: (real, real))
    // the hit is never lost or amplified, whatever the inputs
    ensures r.0 + r.1 == health + shield - amount
    // a shield that was not negative never goes negative
    ensures shield >= 0.0 ==> r.1 >= 0.0
    // a shield that can hold the whole (positive) hit keeps health intact
    ensures shield >= amount > 0.0 ==> r.0 == health && r.1 == shield - amount
    // a hit larger than a live shield empties it and the overflow reaches health
    ensures 0.0 < shield < amount ==> r.1 == 0.0 && r.0 == health - (amount - shield)
    // without shield, health takes the whole hit
    ensures shield <= 0.0 ==> r == (health - amount, shield)
  {
    if shield > 0.0 then
      var s := shield - amount;
      if s < 0.0 then (health + s, 0.0) else (health, s)
    else (health - amount, shield)
  }

  /** A meter topped up by `amount` and capped at full. */
  function Recharge(level: real, amount: real): (r: real)
    ensures r <= Full
    ensures r <= level + amount
    ensures r == level + amount || r == Full
    ensures level + amount <= Full ==> r == level + amount
  {
    Min(level + amount, Full)
  }

  class ShipStats {
    var health: real
    var shield: real
    var energy: real

    constructor ()
      ensures health == Full && shield == Full && energy == Full
    {
      health, shield, energy := Full, Full, Full;
    }

    method TakeDamage(amount: real)
      modifies this
      ensures (health, shield) == Absorb(old(health), old(shield), amount)
      ensures energy == old(energy)
    {
      if shield > 0.0 {
        shield := shield - amount;
        if shield < 0.0 {
          health := health + shield;
          shield := 0.0;
        }
      } else {
        health := health - amount;
      }
    }

    /** Spends `amount` only when there is that much energy. */
    method UseEnergy(amount: real) returns (spent: bool)
      modifies this`energy
      ensures spent <==> old(energy) >= amount
      ensures energy == if spent then old(energy) - amount else old(energy)
    {
      if energy >= amount {
        energy := energy - amount;
        return true;
      }
      return false;
    }

    method RechargeEnergy(amount: real)
      modifies this`energy
      ensures energy == Recharge(old(energy), amount)
    {
      energy := Min(energy + amount, Full);
    }

    method RechargeShield(amount: real)
      modifies this`shield
      ensures shield == Recharge(old(shield), amount)
    {
      shield := Min(shield + amount, Full);
    }

    method GetHealth() returns (r: real)
      ensures r == health
    {
      return health;
    }

    method GetShield() returns (r: real)
      ensures r == shield
    {
      return shield;
    }

    method GetEnergy() returns (r: real)
      ensures r == energy
    {
      return energy;
    }
  }
}
