/**
 * The current player controller's health and life cycle: `Start` decides
 * whether the player begins armed, `Heal` clamps at the maximum,
 * `TakeDamage` ignores a player already at or below zero and calls `Die`,
 * `Die` runs once, and `Update` does nothing after death except, while
 * alive, pace the footstep sound.
 *
 * The game manager's presence, floor and retry flag, the character
 * controller's grounded flag, the move input's magnitude and `Time.time`
 * are inputs. Movement, aiming, gravity and pushing are not modelled.
 */
module PlayerHealth {
  import opened Wrappers

  /** Floors at or above this one start armed. */
  const ARMED_FROM_FLOOR: int := -8
  /** Move inputs at or below this magnitude play no footsteps. */
  const STEP_INPUT_THRESHOLD: real := 0.1

  datatype PlayerConfig = PlayerConfig(maxHealth: int, stepRate: real)

  /** What `Start` reads from the game manager. */
  datatype ManagerInfo = ManagerInfo(currentFloor: int, isRetry: bool)

  /**
   * The player's fields; `steps` counts footsteps played, `deaths` counts
   * `Die` calls that took effect, `deathNotices` counts `OnPlayerDead` calls
   * on the game manager, `controllerEnabled` is the character controller.
   */
  datatype Player = Player(
    health: int,
    isDead: bool,
    hasGun: bool,
    nextStepTime: real,
    steps: nat,
    deaths: nat,
    deathNotices: nat,
    controllerEnabled: bool)

  /** `Start`: armed iff a game manager exists and the floor is -8 or higher or this is a retry; alive at full health. */
  function Start(cfg: PlayerConfig, p: Player, manager: Option<ManagerInfo>): (r: Player)
    ensures r.hasGun <==> manager.Some? && (manager.value.currentFloor >= ARMED_FROM_FLOOR || manager.value.isRetry)
    ensures !r.isDead && r.health == cfg.maxHealth
    ensures r.deaths == p.deaths && r.steps == p.steps && r.nextStepTime == p.nextStepTime
  {
    var armed := manager.Some? && (manager.value.currentFloor >= ARMED_FROM_FLOOR || manager.value.isRetry);
    p.(hasGun := armed, isDead := false, health := cfg.maxHealth)
  }

  function AcquireGun(p: Player): (r: Player)
    ensures r.hasGun && r.(hasGun := p.hasGun) == p
  {
    p.(hasGun := true)
  }

  function IsHealthFull(cfg: PlayerConfig, p: Player): bool {
    p.health >= cfg.maxHealth
  }

  /** `Heal`: add `amount`, never ending above `maxHealth`. */
  function Heal(cfg: PlayerConfig, p: Player, amount: int): (r: Player)
    ensures r.health <= cfg.maxHealth
    ensures r.health == cfg.maxHealth <==> p.health + amount >= cfg.maxHealth
    ensures p.health + amount <= cfg.maxHealth ==> r.health == p.health + amount
    ensures r.(health := p.health) == p
  {
    var raised := p.health + amount;
    p.(health := if raised > cfg.maxHealth then cfg.maxHealth else raised)
  }

  /** `Die`: only the first call takes effect; the game manager is told when it exists. */
  function Die(p: Player, managerPresent: bool): (r: Player)
    ensures r.isDead
    ensures p.isDead ==> r == p
    ensures !p.isDead ==>
      r.deaths == p.deaths + 1 && !r.controllerEnabled
      && r.deathNotices == p.deathNotices + (if managerPresent then 1 else 0)
    ensures r.health == p.health && r.hasGun == p.hasGun
  {
    if p.isDead then p
    else p.(isDead := true, controllerEnabled := false, deaths := p.deaths + 1,
            deathNotices := p.deathNotices + if managerPresent then 1 else 0)
  }

  /** `TakeDamage`: ignored at or below zero health; otherwise subtract, and die at or below zero. */
  function TakeDamage(p: Player, damage: int, managerPresent: bool): Player {
    if p.health <= 0 then p
    else
      var hurt := p.(health := p.health - damage);
      if hurt.health <= 0 then Die(hurt, managerPresent) else hurt
  }

  /** `HandleFootstep`: a step when grounded, moving and due; the next one is due `stepRate` later. */
  function HandleFootstep(cfg: PlayerConfig, p: Player, grounded: bool, moveMagnitude: real, now: real): Player {
    if grounded && moveMagnitude > STEP_INPUT_THRESHOLD && now >= p.nextStepTime then
      p.(steps := p.steps + 1, nextStepTime := now + cfg.stepRate)
    else p
  }

  /** `Update`: nothing at all once dead. */
  function Update(cfg: PlayerConfig, p: Player, grounded: bool, moveMagnitude: real, now: real): Player {
    if p.isDead then p else HandleFootstep(cfg, p, grounded, moveMagnitude, now)
  }

  /** The health is full after a heal iff the sum reached the maximum; a full player stays full under any non-negative heal. */
  lemma HealFillsIffSumReachesMax(cfg: PlayerConfig, p: Player, amount: int)
    ensures IsHealthFull(cfg, Heal(cfg, p, amount)) <==> p.health + amount >= cfg.maxHealth
    ensures IsHealthFull(cfg, p) && amount >= 0 ==> IsHealthFull(cfg, Heal(cfg, p, amount))
  {
  }

  /** Damage at or below zero health is ignored; otherwise health drops by `damage` and `Die` runs iff it reaches zero or below. */
  lemma TakeDamageContract(p: Player, damage: int, managerPresent: bool)
    ensures p.health <= 0 ==> TakeDamage(p, damage, managerPresent) == p
    ensures p.health > 0 ==>
      var r := TakeDamage(p, damage, managerPresent);
      r.health == p.health - damage
      && (r.health <= 0 ==> r.isDead && r.deaths == p.deaths + (if p.isDead then 0 else 1))
      && (r.health > 0 ==> r.isDead == p.isDead && r.deaths == p.deaths)
  {
  }

  /** `Die` is idempotent. */
  lemma DieIdempotent(p: Player, m1: bool, m2: bool)
    ensures Die(Die(p, m1), m2) == Die(p, m1)
  {
  }

  /** Once dead, `Update` changes nothing: no footsteps, no timers. */
  lemma DeadPlayerIsFrozen(cfg: PlayerConfig, p: Player, grounded: bool, moveMagnitude: real, now: real)
    requires p.isDead
    ensures Update(cfg, p, grounded, moveMagnitude, now) == p
  {
  }

  /** A footstep plays iff grounded, moving above 0.1 and due, and the next is scheduled `stepRate` after `now`. */
  lemma FootstepGate(cfg: PlayerConfig, p: Player, grounded: bool, moveMagnitude: real, now: real)
    requires !p.isDead
    ensures var r := Update(cfg, p, grounded, moveMagnitude, now);
      (r.steps == p.steps + 1 <==> grounded && moveMagnitude > 0.1 && now >= p.nextStepTime)
      && (r.steps == p.steps + 1 ==> r.nextStepTime == now + cfg.stepRate)
      && (r.steps == p.steps ==> r == p)
  {
  }

  // ---------------------------------------------------------------------
  // A whole life after Start
  // ---------------------------------------------------------------------

  datatype PlayerEvent =
    | HealBy(amount: int)
    | Hit(damage: int, managerPresent: bool)
    | Frame(grounded: bool, moveMagnitude: real, now: real)
    | PickUpGun

  /** Healing and damage amounts the game uses are never negative. */
  predicate SaneEvent(e: PlayerEvent) {
    (e.HealBy? ==> e.amount >= 0) && (e.Hit? ==> e.damage >= 0)
  }

  function Step(cfg: PlayerConfig, p: Player, e: PlayerEvent): Player {
    match e
    case HealBy(amount) => Heal(cfg, p, amount)
    case Hit(damage, managerPresent) => TakeDamage(p, damage, managerPresent)
    case Frame(grounded, moveMagnitude, now) => Update(cfg, p, grounded, moveMagnitude, now)
    case PickUpGun => AcquireGun(p)
  }

  function Run(cfg: PlayerConfig, p: Player, events: seq<PlayerEvent>): Player
    decreases |events|
  {
    if |events| == 0 then p else Run(cfg, Step(cfg, p, events[0]), events[1..])
  }

  /**
   * The life invariant: health never exceeds the maximum, a living player has
   * positive health, `Die` has taken effect exactly once iff the player is
   * dead, and the game manager heard of at most that death.
   */
  ghost predicate Alive(cfg: PlayerConfig, p: Player) {
    && p.health <= cfg.maxHealth
    && (p.isDead || p.health > 0)
    && p.deaths == (if p.isDead then 1 else 0)
    && p.deathNotices <= p.deaths
  }

  lemma StartEstablishes(cfg: PlayerConfig, p: Player, manager: Option<ManagerInfo>)
    requires cfg.maxHealth > 0 && p.deaths == 0 && p.deathNotices == 0
    ensures Alive(cfg, Start(cfg, p, manager))
  {
  }

  /** Every heal, hit, frame and pickup keeps the life invariant, so the player dies at most once. */
  lemma {:induction false} LifeKeepsInvariant(cfg: PlayerConfig, p: Player, events: seq<PlayerEvent>)
    requires Alive(cfg, p) && forall k :: 0 <= k < |events| ==> SaneEvent(events[k])
    ensures Alive(cfg, Run(cfg, p, events))
    ensures p.isDead ==> Run(cfg, p, events).isDead && Run(cfg, p, events).deaths == 1
    decreases |events|
  {
    if |events| > 0 {
      var next := Step(cfg, p, events[0]);
      assert SaneEvent(events[0]);
      assert Alive(cfg, next);
      LifeKeepsInvariant(cfg, next, events[1..]);
    }
  }
}

/** The current `PlayerController` MonoBehaviour's health and life cycle. */
module PlayerComponent {
  import opened Wrappers
  import opened PlayerHealth

  class PlayerController {
    const config: PlayerConfig
    var currentHealth: int
    var isDead: bool
    var hasGun: bool
    var nextStepTime: real
    var steps: nat
    var deaths: nat
    var deathNotices: nat
    var controllerEnabled: bool

    function Snapshot(): Player
      reads this
    {
      Player(currentHealth, isDead, hasGun, nextStepTime, steps, deaths, deathNotices, controllerEnabled)
    }

    /** The object before `Start`: the serialized defaults. */
    constructor (config: PlayerConfig)
      ensures this.config == config
      ensures Snapshot() == Player(0, false, false, 0.0, 0, 0, 0, true)
    {
      this.config := config;
      currentHealth := 0;
      isDead := false;
      hasGun := false;
      nextStepTime := 0.0;
      steps := 0;
      deaths := 0;
      deathNotices := 0;
      controllerEnabled := true;
    }

    method Start(manager: Option<ManagerInfo>)
      modifies this
      ensures Snapshot() == PlayerHealth.Start(config, old(Snapshot()), manager)
    {
      if manager.Some? && (manager.value.currentFloor >= ARMED_FROM_FLOOR || manager.value.isRetry) {
        hasGun := true;
      } else {
        hasGun := false;
      }
      isDead := false;
      currentHealth := config.maxHealth;
    }

    method AcquireGun()
      modifies this
      ensures Snapshot() == PlayerHealth.AcquireGun(old(Snapshot()))
    {
      hasGun := true;
    }

    method IsHealthFull() returns (full: bool)
      ensures full <==> currentHealth >= config.maxHealth
    {
      full := currentHealth >= config.maxHealth;
    }

    method Heal(amount: int)
      modifies this
      ensures Snapshot() == PlayerHealth.Heal(config, old(Snapshot()), amount)
    {
      currentHealth := currentHealth + amount;
      if currentHealth > config.maxHealth {
        currentHealth := config.maxHealth;
      }
    }

    method Die(managerPresent: bool)
      modifies this
      ensures Snapshot() == PlayerHealth.Die(old(Snapshot()), managerPresent)
    {
      if isDead {
        return;
      }
      isDead := true;
      controllerEnabled := false;
      deaths := deaths + 1;
      if managerPresent {
        deathNotices := deathNotices + 1;
      }
    }

    method TakeDamage(damage: int, managerPresent: bool)
      modifies this
      ensures Snapshot() == PlayerHealth.TakeDamage(old(Snapshot()), damage, managerPresent)
    {
      if currentHealth <= 0 {
        return;
      }
      currentHealth := currentHealth - damage;
      if currentHealth <= 0 {
        Die(managerPresent);
      }
    }

    method Update(grounded: bool, moveMagnitude: real, now: real)
      modifies this
      ensures Snapshot() == PlayerHealth.Update(config, old(Snapshot()), grounded, moveMagnitude, now)
    {
      if isDead {
        return;
      }
      if grounded && moveMagnitude > STEP_INPUT_THRESHOLD && now >= nextStepTime {
        steps := steps + 1;
        nextStepTime := now + config.stepRate;
      }
    }
  }
}
