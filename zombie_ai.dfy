/**
 * One zombie: its health, attack cooldown and behaviour state (Idle, Chase,
 * Attack, Dead), the state-pattern transition `ChangeState`, the per-frame
 * `Execute` of each state, damage, the pool-acquire reset and the spawner's
 * `Initialize`.
 *
 * Engine queries are inputs: `target` is the distance to the player (`None`
 * when the player reference is null), `now` is `Time.time`, `onNavMesh` is
 * `Agent.isOnNavMesh`, `sampled` is the result of `NavMesh.SamplePosition`.
 * The pure functions below are the specification; the class `ZombieAI`
 * holds the same state in mutable fields and is proved against them.
 */
module ZombieBehaviour {
  import opened Wrappers

  datatype BehaviorState = Idle | Chase | Attack | Dead

  /** Inspector settings of a zombie prefab. */
  datatype ZombieConfig = ZombieConfig(
    detectionRange: real,
    attackRange: real,
    moveSpeed: real,
    attackCooldown: real,
    maxHealth: int,
    deathAnimationDuration: real)

  /** Radius within which `Initialize` looks for a navigable point. */
  const SPAWN_SNAP_RADIUS: real := 2.0

  /**
   * Everything the behaviour reads or writes on one zombie.
   * `attacks` counts attack-animation triggers, `deaths` counts death
   * sequences started (die trigger plus a scheduled despawn), `despawnAt`
   * is the deadline of the pending despawn, `active` says the object is
   * out of the pool.
   */
  datatype Zombie = Zombie(
    health: int,
    lastAttackTime: real,
    state: Option<BehaviorState>,
    agentEnabled: bool,
    agentStopped: bool,
    agentSpeed: real,
    running: bool,
    colliderEnabled: bool,
    attacks: nat,
    deaths: nat,
    despawnAt: Option<real>,
    active: bool)

  predicate IsDead(z: Zombie) {
    z.state == Some(Dead)
  }

  /** `Exit` of each state: only Chase has one (it stops the agent and the run animation). */
  function Exit(s: BehaviorState, z: Zombie, onNavMesh: bool): (r: Zombie)
    ensures r.state == z.state && r.health == z.health && r.attacks == z.attacks && r.deaths == z.deaths
    ensures s != Chase ==> r == z
  {
    match s
    case Chase => z.(agentStopped := if onNavMesh then true else z.agentStopped, running := false)
    case _ => z
  }

  /** `Enter` of each state. Dead disables agent and collider and schedules the despawn. */
  function Enter(c: ZombieConfig, s: BehaviorState, z: Zombie, now: real, onNavMesh: bool): (r: Zombie)
    ensures r.state == z.state && r.health == z.health && r.lastAttackTime == z.lastAttackTime
    ensures r.attacks == z.attacks && r.active == z.active
    ensures r.deaths == if s == Dead then z.deaths + 1 else z.deaths
    ensures r.running <==> s == Chase
    ensures s == Dead ==> !r.agentEnabled && !r.colliderEnabled && r.despawnAt == Some(now + c.deathAnimationDuration)
    ensures s != Dead ==> r.despawnAt == z.despawnAt && r.agentEnabled == z.agentEnabled
  {
    match s
    case Idle =>
      z.(agentStopped := if onNavMesh then true else z.agentStopped, running := false)
    case Chase =>
      if onNavMesh then z.(agentStopped := false, agentSpeed := c.moveSpeed, running := true)
      else z.(running := true)
    case Attack =>
      z.(agentStopped := if onNavMesh then true else z.agentStopped, running := false)
    case Dead =>
      z.(agentStopped := if z.agentEnabled then true else z.agentStopped,
         agentEnabled := false,
         colliderEnabled := false,
         running := false,
         deaths := z.deaths + 1,
         despawnAt := Some(now + c.deathAnimationDuration))
  }

  /** `ZombieAI.ChangeState`: Exit the old state (if any), assign, then Enter the new one. */
  function ChangeState(c: ZombieConfig, z: Zombie, s: BehaviorState, now: real, onNavMesh: bool): (r: Zombie)
    ensures r.state == Some(s)
    ensures r.health == z.health && r.lastAttackTime == z.lastAttackTime && r.attacks == z.attacks
    ensures r.deaths == if s == Dead then z.deaths + 1 else z.deaths
    ensures r.active == z.active
    ensures r.running <==> s == Chase
    ensures s == Dead ==> !r.agentEnabled && !r.colliderEnabled && r.despawnAt == Some(now + c.deathAnimationDuration)
    ensures s != Dead ==> r.despawnAt == z.despawnAt && r.agentEnabled == z.agentEnabled
    ensures r == Enter(c, s, (if z.state.Some? then Exit(z.state.value, z, onNavMesh) else z).(state := Some(s)), now, onNavMesh)
  {
    var exited := if z.state.Some? then Exit(z.state.value, z, onNavMesh) else z;
    Enter(c, s, exited.(state := Some(s)), now, onNavMesh)
  }

  /** `Execute` of the current state; `target` is the player's distance, `None` without a player. */
  function Execute(c: ZombieConfig, z: Zombie, target: Option<real>, now: real, onNavMesh: bool): Zombie
    requires z.state.Some?
  {
    match z.state.value
    case Idle =>
      if target.Some? && target.value <= c.detectionRange then ChangeState(c, z, Chase, now, onNavMesh) else z
    case Chase =>
      if target.None? then ChangeState(c, z, Idle, now, onNavMesh)
      else if !onNavMesh then z
      else if target.value <= c.attackRange then ChangeState(c, z, Attack, now, onNavMesh)
      else z
    case Attack =>
      if target.None? then ChangeState(c, z, Idle, now, onNavMesh)
      else if target.value > c.attackRange then ChangeState(c, z, Chase, now, onNavMesh)
      else if now >= z.lastAttackTime + c.attackCooldown then z.(attacks := z.attacks + 1, lastAttackTime := now)
      else z
    case Dead =>
      z
  }

  /** `ZombieAI.Update`: run the current state's Execute when a state is set. */
  function Tick(c: ZombieConfig, z: Zombie, target: Option<real>, now: real, onNavMesh: bool): (r: Zombie)
    ensures z.state.None? ==> r == z
  {
    if z.state.Some? then Execute(c, z, target, now, onNavMesh) else z
  }

  /** `ZombieAI.TakeDamage`: ignored when Dead; otherwise subtract, and die at or below zero. */
  function TakeDamage(c: ZombieConfig, z: Zombie, damage: int, now: real, onNavMesh: bool): Zombie {
    if IsDead(z) then z
    else
      var hurt := z.(health := z.health - damage);
      if hurt.health <= 0 then ChangeState(c, hurt, Dead, now, onNavMesh) else hurt
  }

  /** `ZombieAI.OnObjectSpawn`, run when the pool hands the zombie out. */
  function OnObjectSpawn(c: ZombieConfig, z: Zombie): Zombie {
    z.(health := c.maxHealth,
       lastAttackTime := -c.attackCooldown,
       colliderEnabled := true,
       running := false,
       state := None,
       active := true)
  }

  /** `ZombieAI.Initialize`: enable the agent and enter Idle only if the navmesh sample succeeded. */
  function Initialize(c: ZombieConfig, z: Zombie, sampled: bool, now: real, onNavMesh: bool): Zombie {
    var enabled := z.(agentEnabled := true);
    if sampled then ChangeState(c, enabled.(agentSpeed := c.moveSpeed), Idle, now, onNavMesh)
    else enabled.(agentEnabled := false)
  }

  /** The end of `DeadState.DespawnRoutine`: once the deadline passes the zombie goes back to the pool. */
  function CompleteDespawn(z: Zombie, now: real): (r: Zombie)
    ensures z.despawnAt.Some? && now >= z.despawnAt.value ==> !r.active && !r.agentEnabled && r.despawnAt.None?
    ensures !(z.despawnAt.Some? && now >= z.despawnAt.value) ==> r == z
    ensures r.state == z.state && r.health == z.health && r.deaths == z.deaths && r.attacks == z.attacks
  {
    if z.despawnAt.Some? && now >= z.despawnAt.value then
      z.(agentEnabled := false, active := false, despawnAt := None)
    else z
  }

  /** `ZombieAI.DealDamageToPlayer`: a hit registers only on an existing player within attack range. */
  function DealsDamage(c: ZombieConfig, target: Option<real>): (hit: bool)
    ensures hit <==> target.Some? && target.value <= c.attackRange
  {
    target.Some? && target.value <= c.attackRange
  }

  // ---------------------------------------------------------------------
  // Properties of one step
  // ---------------------------------------------------------------------

  /**
   * The Attack state strikes (the attack animation whose event calls
   * `DealDamageToPlayer`) exactly when that call would register a hit and the
   * cooldown has run out; every other outcome of Attack's Execute leaves the
   * strike count alone.
   */
  lemma AttackStrikesOnlyWhenHitRegisters(c: ZombieConfig, z: Zombie, target: Option<real>, now: real, onNavMesh: bool)
    requires z.state == Some(Attack)
    ensures Execute(c, z, target, now, onNavMesh).attacks > z.attacks
      <==> DealsDamage(c, target) && now >= z.lastAttackTime + c.attackCooldown
    ensures Execute(c, z, target, now, onNavMesh).attacks <= z.attacks + 1
  {
  }

  /** Update does nothing without a state; with one it is exactly that state's Execute. */
  lemma UpdateRunsExecuteOnlyWithState(c: ZombieConfig, z: Zombie, target: Option<real>, now: real, onNavMesh: bool)
    ensures z.state.None? ==> Tick(c, z, target, now, onNavMesh) == z
    ensures z.state.Some? ==> Tick(c, z, target, now, onNavMesh) == Execute(c, z, target, now, onNavMesh)
  {
  }

  /** The pool reset: full health, an attack eligible at any `now >= 0`, no state. */
  lemma SpawnResetPrimesCooldown(c: ZombieConfig, z: Zombie, now: real)
    requires c.attackCooldown >= 0.0 && now >= 0.0
    ensures OnObjectSpawn(c, z).health == c.maxHealth
    ensures OnObjectSpawn(c, z).state.None? && OnObjectSpawn(c, z).active
    ensures now >= OnObjectSpawn(c, z).lastAttackTime + c.attackCooldown
  {
  }

  /** Initialize enters Idle iff the navigable point was found; otherwise the agent is off and no state is set. */
  lemma InitializeEntersIdleIffSampled(c: ZombieConfig, z: Zombie, sampled: bool, now: real, onNavMesh: bool)
    requires z.state.None?
    ensures var r := Initialize(c, z, sampled, now, onNavMesh);
      (r.state == Some(Idle) <==> sampled) && (!sampled ==> r.state.None? && !r.agentEnabled)
      && r.health == z.health && r.deaths == z.deaths
  {
  }

  /** Damage on a Dead zombie changes nothing; otherwise health drops by exactly `damage` and Dead is entered iff it is now <= 0. */
  lemma TakeDamageContract(c: ZombieConfig, z: Zombie, damage: int, now: real, onNavMesh: bool)
    ensures IsDead(z) ==> TakeDamage(c, z, damage, now, onNavMesh) == z
    ensures !IsDead(z) ==>
      var r := TakeDamage(c, z, damage, now, onNavMesh);
      r.health == z.health - damage
      && (IsDead(r) <==> r.health <= 0)
      && r.deaths == (if r.health <= 0 then z.deaths + 1 else z.deaths)
  {
  }

  /** Idle with no player does nothing; Idle moves to Chase iff the player is within detection range (inclusive). */
  lemma IdleDetection(c: ZombieConfig, z: Zombie, target: Option<real>, now: real, onNavMesh: bool)
    requires z.state == Some(Idle)
    ensures target.None? ==> Tick(c, z, target, now, onNavMesh) == z
    ensures Tick(c, z, target, now, onNavMesh).state == Some(Chase)
        <==> target.Some? && target.value <= c.detectionRange
    ensures Tick(c, z, target, now, onNavMesh).state in {Some(Idle), Some(Chase)}
  {
  }

  /** Chase: a lost player sends it to Idle, off the navmesh nothing changes, within attack range it attacks, otherwise it keeps chasing. */
  lemma ChaseRules(c: ZombieConfig, z: Zombie, target: Option<real>, now: real, onNavMesh: bool)
    requires z.state == Some(Chase)
    ensures var r := Tick(c, z, target, now, onNavMesh);
      && (target.None? <==> r.state == Some(Idle))
      && (target.Some? && !onNavMesh ==> r == z)
      && (target.Some? && onNavMesh && target.value <= c.attackRange ==> r.state == Some(Attack))
      && (target.Some? && target.value > c.attackRange ==> r == z)
  {
  }

  /** However far the player gets, a chasing zombie never gives up while the player exists. */
  lemma ChaseNeverAbandonsOnDistance(c: ZombieConfig, z: Zombie, d: real, now: real, onNavMesh: bool)
    requires z.state == Some(Chase)
    ensures Tick(c, z, Some(d), now, onNavMesh).state != Some(Idle)
  {
  }

  /** Attack: lost player -> Idle, out of range -> Chase, otherwise fire iff the cooldown has elapsed, stamping `now`. */
  lemma AttackRules(c: ZombieConfig, z: Zombie, target: Option<real>, now: real, onNavMesh: bool)
    requires z.state == Some(Attack)
    ensures var r := Tick(c, z, target, now, onNavMesh);
      && (target.None? ==> r.state == Some(Idle))
      && (target.Some? && target.value > c.attackRange ==> r.state == Some(Chase) && r.attacks == z.attacks)
      && (target.Some? && target.value <= c.attackRange ==>
            r.state == Some(Attack)
            && (r.attacks == z.attacks + 1 <==> now >= z.lastAttackTime + c.attackCooldown)
            && (r.attacks == z.attacks ==> r.lastAttackTime == z.lastAttackTime)
            && (r.attacks == z.attacks + 1 ==> r.lastAttackTime == now))
  {
  }

  /** No Execute kills a zombie: only damage leads to Dead, and a Dead zombie's Execute is a no-op. */
  lemma ExecuteNeverSelectsDead(c: ZombieConfig, z: Zombie, target: Option<real>, now: real, onNavMesh: bool)
    ensures var r := Tick(c, z, target, now, onNavMesh);
      (IsDead(r) <==> IsDead(z)) && r.health == z.health && r.deaths == z.deaths
    ensures IsDead(z) ==> Tick(c, z, target, now, onNavMesh) == z
  {
  }

  /** The attack scenario: cooldown 2.0, eligible ticks at 0.0, 1.0 and 2.1 fire at 0.0 and 2.1 only. */
  lemma CooldownScenario(c: ZombieConfig, z: Zombie)
    requires c.attackCooldown == 2.0 && c.attackRange == 2.0
    requires z.state == Some(Attack) && z.lastAttackTime == -2.0 && z.attacks == 0
    ensures var z1 := Tick(c, z, Some(1.0), 0.0, true);
      var z2 := Tick(c, z1, Some(1.0), 1.0, true);
      var z3 := Tick(c, z2, Some(1.0), 2.1, true);
      z1.attacks == 1 && z2.attacks == 1 && z3.attacks == 2 && z3.lastAttackTime == 2.1
  {
  }

  // ---------------------------------------------------------------------
  // Properties of a whole life: any sequence of frames, hits and despawn checks
  // ---------------------------------------------------------------------

  datatype ZombieEvent =
    | Frame(target: Option<real>, now: real, onNavMesh: bool)
    | Hit(damage: int, now: real, onNavMesh: bool)
    | DespawnCheck(now: real)

  function Step(c: ZombieConfig, z: Zombie, e: ZombieEvent): Zombie {
    match e
    case Frame(target, now, onNavMesh) => Tick(c, z, target, now, onNavMesh)
    case Hit(damage, now, onNavMesh) => TakeDamage(c, z, damage, now, onNavMesh)
    case DespawnCheck(now) => CompleteDespawn(z, now)
  }

  function Run(c: ZombieConfig, z: Zombie, events: seq<ZombieEvent>): Zombie
    decreases |events|
  {
    if |events| == 0 then z else Run(c, Step(c, z, events[0]), events[1..])
  }

  /** The life invariant: a zombie at or below zero health is Dead. */
  ghost predicate LifeInvariant(z: Zombie) {
    z.health <= 0 ==> IsDead(z)
  }

  /** Acquire from the pool followed by a successful or failed Initialize establishes the invariant. */
  lemma SpawnEstablishesInvariant(c: ZombieConfig, z: Zombie, sampled: bool, now: real, onNavMesh: bool)
    requires c.maxHealth > 0
    ensures LifeInvariant(OnObjectSpawn(c, z))
    ensures LifeInvariant(Initialize(c, OnObjectSpawn(c, z), sampled, now, onNavMesh))
  {
  }

  /** Dead is terminal: no frame, hit or despawn check leaves Dead, heals, or starts a second death. */
  lemma {:induction false} DeadIsTerminal(c: ZombieConfig, z: Zombie, events: seq<ZombieEvent>)
    requires IsDead(z)
    ensures var r := Run(c, z, events);
      IsDead(r) && r.health == z.health && r.deaths == z.deaths
      && r.attacks == z.attacks && r.lastAttackTime == z.lastAttackTime
    decreases |events|
  {
    if |events| > 0 {
      var next := Step(c, z, events[0]);
      assert IsDead(next) && next.health == z.health && next.deaths == z.deaths;
      DeadIsTerminal(c, next, events[1..]);
    }
  }

  /** Every frame, hit and despawn check keeps "health <= 0 implies Dead". */
  lemma {:induction false} LifeInvariantPreserved(c: ZombieConfig, z: Zombie, events: seq<ZombieEvent>)
    requires LifeInvariant(z)
    ensures LifeInvariant(Run(c, z, events))
    decreases |events|
  {
    if |events| > 0 {
      var next := Step(c, z, events[0]);
      match events[0] {
        case Frame(target, now, onNavMesh) =>
          ExecuteNeverSelectsDead(c, z, target, now, onNavMesh);
        case Hit(_, _, _) =>
        case DespawnCheck(_) =>
      }
      LifeInvariantPreserved(c, next, events[1..]);
    }
  }

  /** A zombie dies at most once per life: no sequence of events starts two death sequences. */
  lemma {:induction false} AtMostOneDeath(c: ZombieConfig, z: Zombie, events: seq<ZombieEvent>)
    ensures Run(c, z, events).deaths <= z.deaths + (if IsDead(z) then 0 else 1)
    decreases |events|
  {
    if |events| > 0 {
      var next := Step(c, z, events[0]);
      match events[0] {
        case Frame(target, now, onNavMesh) =>
          ExecuteNeverSelectsDead(c, z, target, now, onNavMesh);
        case Hit(_, _, _) =>
        case DespawnCheck(_) =>
      }
      if IsDead(next) && !IsDead(z) {
        DeadIsTerminal(c, next, events[1..]);
      } else {
        AtMostOneDeath(c, next, events[1..]);
      }
    }
  }

}

/** The `ZombieAI` MonoBehaviour: the same state in mutable fields, each method proved against its function. */
module ZombieComponent {
  import opened Wrappers
  import opened ZombieBehaviour

  class ZombieAI {
    const config: ZombieConfig
    var currentHealth: int
    var lastAttackTime: real
    var currentState: Option<BehaviorState>
    var agentEnabled: bool
    var agentStopped: bool
    var agentSpeed: real
    var running: bool
    var colliderEnabled: bool
    var attacks: nat
    var deaths: nat
    var despawnAt: Option<real>
    var active: bool

    /** The fields as one specification value. */
    function Snapshot(): Zombie
      reads this
    {
      Zombie(currentHealth, lastAttackTime, currentState, agentEnabled, agentStopped, agentSpeed,
             running, colliderEnabled, attacks, deaths, despawnAt, active)
    }

    /** `Awake`: the agent stays disabled until `Initialize`; the object starts in the pool. */
    constructor (config: ZombieConfig)
      ensures this.config == config
      ensures Snapshot() == Zombie(0, 0.0, None, false, false, 0.0, false, true, 0, 0, None, false)
    {
      this.config := config;
      currentHealth := 0;
      lastAttackTime := 0.0;
      currentState := None;
      agentEnabled := false;
      agentStopped := false;
      agentSpeed := 0.0;
      running := false;
      colliderEnabled := true;
      attacks := 0;
      deaths := 0;
      despawnAt := None;
      active := false;
    }

    method ExitState(s: BehaviorState, onNavMesh: bool)
      modifies this
      ensures Snapshot() == Exit(s, old(Snapshot()), onNavMesh)
    {
      if s == Chase {
        if onNavMesh { agentStopped := true; }
        running := false;
      }
    }

    method EnterState(s: BehaviorState, now: real, onNavMesh: bool)
      modifies this
      ensures Snapshot() == Enter(config, s, old(Snapshot()), now, onNavMesh)
    {
      match s
      case Idle =>
        if onNavMesh { agentStopped := true; }
        running := false;
      case Chase =>
        if onNavMesh {
          agentStopped := false;
          agentSpeed := config.moveSpeed;
        }
        running := true;
      case Attack =>
        if onNavMesh { agentStopped := true; }
        running := false;
      case Dead =>
        if agentEnabled {
          agentStopped := true;
          agentEnabled := false;
        }
        colliderEnabled := false;
        running := false;
        deaths := deaths + 1;
        despawnAt := Some(now + config.deathAnimationDuration);
    }

    method ChangeState(newState: BehaviorState, now: real, onNavMesh: bool)
      modifies this
      ensures Snapshot() == ZombieBehaviour.ChangeState(config, old(Snapshot()), newState, now, onNavMesh)
    {
      if currentState.Some? {
        ExitState(currentState.value, onNavMesh);
      }
      currentState := Some(newState);
      EnterState(newState, now, onNavMesh);
    }

    method Update(target: Option<real>, now: real, onNavMesh: bool)
      modifies this
      ensures Snapshot() == Tick(config, old(Snapshot()), target, now, onNavMesh)
    {
      if currentState.None? {
        return;
      }
      match currentState.value
      case Idle =>
        if target.Some? && target.value <= config.detectionRange {
          ChangeState(Chase, now, onNavMesh);
        }
      case Chase =>
        if target.None? {
          ChangeState(Idle, now, onNavMesh);
        } else if onNavMesh && target.value <= config.attackRange {
          ChangeState(Attack, now, onNavMesh);
        }
      case Attack =>
        if target.None? {
          ChangeState(Idle, now, onNavMesh);
        } else if target.value > config.attackRange {
          ChangeState(Chase, now, onNavMesh);
        } else if now >= lastAttackTime + config.attackCooldown {
          attacks := attacks + 1;
          lastAttackTime := now;
        }
      case Dead =>
    }

    method OnObjectSpawn()
      modifies this
      ensures Snapshot() == ZombieBehaviour.OnObjectSpawn(config, old(Snapshot()))
    {
      currentHealth := config.maxHealth;
      lastAttackTime := -config.attackCooldown;
      colliderEnabled := true;
      running := false;
      active := true;
      currentState := None;
    }

    method Initialize(sampled: bool, now: real, onNavMesh: bool)
      modifies this
      ensures Snapshot() == ZombieBehaviour.Initialize(config, old(Snapshot()), sampled, now, onNavMesh)
    {
      agentEnabled := true;
      if sampled {
        agentSpeed := config.moveSpeed;
        ChangeState(Idle, now, onNavMesh);
      } else {
        agentEnabled := false;
      }
    }

    method TakeDamage(damage: int, now: real, onNavMesh: bool)
      modifies this
      ensures Snapshot() == ZombieBehaviour.TakeDamage(config, old(Snapshot()), damage, now, onNavMesh)
    {
      if currentState == Some(Dead) {
        return;
      }
      currentHealth := currentHealth - damage;
      if currentHealth <= 0 {
        ChangeState(Dead, now, onNavMesh);
      }
    }

    /** Resumption of `DespawnRoutine` once `deathAnimationDuration` has passed. */
    method CompleteDespawn(now: real)
      modifies this
      ensures Snapshot() == ZombieBehaviour.CompleteDespawn(old(Snapshot()), now)
    {
      if despawnAt.Some? && now >= despawnAt.value {
        agentEnabled := false;
        active := false;
        despawnAt := None;
      }
    }

    method DealDamageToPlayer(target: Option<real>) returns (hit: bool)
      ensures hit == DealsDamage(config, target)
    {
      if target.None? {
        return false;
      }
      hit := target.value <= config.attackRange;
    }
  }
}
