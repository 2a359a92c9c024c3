/**
 * The older copy of the player controller (`Assets/Scripts/PlayerController.cs`):
 * the player always starts unarmed, and `TakeDamage` has no death guard, so
 * health keeps falling below zero and nothing marks the player dead.
 */
module LegacyPlayerHealth {

  datatype Player = Player(health: int, hasGun: bool)

  /** `Start`: unarmed, at full health. */
  function Start(maxHealth: int, p: Player): (r: Player)
    ensures !r.hasGun && r.health == maxHealth
  {
    Player(maxHealth, false)
  }

  function AcquireGun(p: Player): (r: Player)
    ensures r.hasGun && r.health == p.health
  {
    p.(hasGun := true)
  }

  function IsHealthFull(maxHealth: int, p: Player): bool {
    p.health >= maxHealth
  }

  function Heal(maxHealth: int, p: Player, amount: int): (r: Player)
    ensures r.health <= maxHealth
    ensures r.health == maxHealth <==> p.health + amount >= maxHealth
    ensures p.health + amount <= maxHealth ==> r.health == p.health + amount
    ensures r.hasGun == p.hasGun
  {
    var raised := p.health + amount;
    p.(health := if raised > maxHealth then maxHealth else raised)
  }

  /** `TakeDamage`: always subtracts. */
  function TakeDamage(p: Player, damage: int): (r: Player)
    ensures r.health == p.health - damage && r.hasGun == p.hasGun
  {
    p.(health := p.health - damage)
  }

  /** The health is full after a heal iff the sum reached the maximum. */
  lemma HealFillsIffSumReachesMax(maxHealth: int, p: Player, amount: int)
    ensures IsHealthFull(maxHealth, Heal(maxHealth, p, amount)) <==> p.health + amount >= maxHealth
  {
  }

  function TotalDamage(damages: seq<int>): int
    decreases |damages|
  {
    if |damages| == 0 then 0 else damages[0] + TotalDamage(damages[1..])
  }

  function TakeAll(p: Player, damages: seq<int>): Player
    decreases |damages|
  {
    if |damages| == 0 then p else TakeAll(TakeDamage(p, damages[0]), damages[1..])
  }

  /** Without a guard, every hit lands: after any hits the health is the start minus their sum, however far below zero. */
  lemma {:induction false} HitsAccumulateBelowZero(p: Player, damages: seq<int>)
    ensures TakeAll(p, damages).health == p.health - TotalDamage(damages)
    ensures TakeAll(p, damages).hasGun == p.hasGun
    decreases |damages|
  {
    if |damages| > 0 {
      HitsAccumulateBelowZero(TakeDamage(p, damages[0]), damages[1..]);
    }
  }
}

/** The older `PlayerController` MonoBehaviour's health and gun flag. */
module LegacyPlayerComponent {
  import opened LegacyPlayerHealth

  class PlayerController {
    const maxHealth: int
    var currentHealth: int
    var hasGun: bool

    function Snapshot(): Player
      reads this
    {
      Player(currentHealth, hasGun)
    }

    constructor (maxHealth: int)
      ensures this.maxHealth == maxHealth && Snapshot() == Player(0, false)
    {
      this.maxHealth := maxHealth;
      currentHealth := 0;
      hasGun := false;
    }

    method Start()
      modifies this
      ensures Snapshot() == LegacyPlayerHealth.Start(maxHealth, old(Snapshot()))
    {
      hasGun := false;
      currentHealth := maxHealth;
    }

    method AcquireGun()
      modifies this
      ensures Snapshot() == LegacyPlayerHealth.AcquireGun(old(Snapshot()))
    {
      hasGun := true;
    }

    method IsHealthFull() returns (full: bool)
      ensures full <==> currentHealth >= maxHealth
    {
      full := currentHealth >= maxHealth;
    }

    method Heal(amount: int)
      modifies this
      ensures Snapshot() == LegacyPlayerHealth.Heal(maxHealth, old(Snapshot()), amount)
    {
      currentHealth := currentHealth + amount;
      if currentHealth > maxHealth {
        currentHealth := maxHealth;
      }
    }

    method TakeDamage(damage: int)
      modifies this
      ensures Snapshot() == LegacyPlayerHealth.TakeDamage(old(Snapshot()), damage)
    {
      currentHealth := currentHealth - damage;
    }
  }
}
