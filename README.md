# Minus Nine: the zombie layer and its surrounding components, modelled in Dafny

Minus Nine is a first-person zombie survival game. The player descends floor by floor, from the tutorial floor B9 towards the surface. This project models the game's logic layer, one module per script:

- the zombie state machine `ZombieAI` (Idle, Chase, Attack, Dead);
- the `DynamicZombieSpawner` that tops the population up;
- the two versions of the weapon controller (`Gun/GunController.cs` and the older `GunController.cs`);
- the two versions of the player's health logic;
- the tutorial's step machine;
- the hold-to-activate generator;
- the localisation table;
- the resolution and display-mode settings;
- the HUD labels.

Every stateful script comes in two parts:

- A specification module. A datatype holds the script's fields. Each handler is a function from the old value to the new one. Lemmas state what each handler promises. An event datatype and a `Run` function cover arbitrary sequences of handler calls, and an induction lemma proves an invariant over every such sequence.
- A component module. A class holds the same fields. Each method changes the fields in place, and its `ensures` ties the new state (`Snapshot()`) to the specification function applied to the old one.

Engine queries are parameters:

- the player's distance, or `None` when there is no player;
- the time `now` and frame times;
- whether the agent is on the navmesh;
- the per-attempt navmesh, visibility and obstacle results;
- the raycast hits;
- random draws;
- whether singletons such as the game manager, sound manager and UI exist.

Coroutine waits are split at the wait: the part before the wait is one method, and the resumption is another (`FinishReload`, `AutoShootStep`, `CompleteDespawn`, `RunCycle`).

Three modules are shared by the others:

- `Wrappers` holds `Option` and `Result`.
- `Text` holds C#'s integer formatting, with a parser, so that label formats can be proved lossless.
- `Localization` holds the key table. The tutorial's message keys are checked against it.

## Model

| member | source | states |
|---|---|---|
| Text.NatToString | Assets/Scripts/Manager/UIManager.cs:149 | the decimal rendering is non-empty, all digits, and without a leading zero |
| Text.IntToString | Assets/Scripts/Manager/UIManager.cs:152 | a number renders with a leading '-' exactly when it is negative, followed by the digits of its magnitude |
| Text.ParseNatToString | Assets/Scripts/Manager/UIManager.cs:149 | reading the digits of `n` back gives `n` |
| Text.IntRoundTrip | Assets/Scripts/Manager/UIManager.cs:152 | parsing the rendering of any integer gives the integer back |
| Text.IntToStringInjective | Assets/Scripts/Manager/UIManager.cs:152 | distinct integers render differently |
| Text.DigitsAfterSign | Assets/Scripts/Manager/UIManager.cs:152 | after its first character an integer's rendering contains only digits, so no separator can occur inside it |
| Text.JoinedInjective | Assets/Scripts/Manager/UIManager.cs:152 | "a sep b" with a non-digit separator determines both a and b |
| ZombieBehaviour.Exit | Assets/Scripts/ZombieAI.cs:253-257 | only Chase's Exit changes anything (it stops the agent and the run animation); state, health and the attack and death counts are kept |
| ZombieBehaviour.Enter | Assets/Scripts/ZombieAI.cs:182-332 | the run animation is on iff the state entered is Chase; only Dead's Enter starts a death, disabling agent and collider and scheduling the despawn at `now` plus the death animation time; state, health, cooldown and activity are kept |
| ZombieBehaviour.ChangeState | Assets/Scripts/ZombieAI.cs:74-83 | the new state is set after the old state's Exit and before the new Enter; the run animation is on iff the new state is Chase; entering Dead disables agent and collider and schedules the despawn at `now` plus the death animation time, while any other state keeps the agent flag and the pending despawn; health, cooldown, strikes and activity are kept and deaths grow only on Dead |
| ZombieBehaviour.Tick | Assets/Scripts/ZombieAI.cs:65-71 | with no state the zombie is unchanged |
| ZombieBehaviour.DealsDamage | Assets/Scripts/ZombieAI.cs:139-148 | a hit registers iff a player exists and is within attack range |
| ZombieBehaviour.AttackStrikesOnlyWhenHitRegisters | Assets/Scripts/ZombieAI.cs:269-304 | in Attack, a strike (whose animation event calls `DealDamageToPlayer`) happens iff `DealsDamage` holds for the target and the cooldown has elapsed, and at most one strike happens per frame |
| ZombieBehaviour.Execute | Assets/Scripts/ZombieAI.cs:182-337 | each state's rule for one frame, stated by `IdleDetection`, `ChaseRules`, `AttackRules`, `AttackStrikesOnlyWhenHitRegisters` and `ExecuteNeverSelectsDead`: Idle chases a player within detection range, Chase gives up only when the player is gone and attacks within attack range, Attack strikes after the cooldown, Dead does nothing |
| ZombieBehaviour.TakeDamage | Assets/Scripts/ZombieAI.cs:127-136 | stated by `TakeDamageContract`: a Dead zombie ignores damage; otherwise health drops by the damage and Dead is entered iff it reaches zero or below |
| ZombieBehaviour.OnObjectSpawn | Assets/Scripts/ZombieAI.cs:86-102 | stated by `SpawnResetPrimesCooldown`: full health, no state, active, and the cooldown already elapsed at any non-negative time |
| ZombieBehaviour.Initialize | Assets/Scripts/ZombieAI.cs:105-125 | stated by `InitializeEntersIdleIffSampled`: Idle is entered iff the navmesh sample succeeded, otherwise the agent is disabled |
| ZombieBehaviour.CompleteDespawn | Assets/Scripts/ZombieAI.cs:341-345 | once the despawn deadline has passed the zombie is back in the pool (inactive, agent off, nothing pending); before it nothing changes; state, health, strikes and deaths are kept |
| ZombieBehaviour.UpdateRunsExecuteOnlyWithState | Assets/Scripts/ZombieAI.cs:65-71 | an update without a state does nothing; with a state it is exactly that state's Execute |
| ZombieBehaviour.SpawnResetPrimesCooldown | Assets/Scripts/ZombieAI.cs:86-102 | the pool reset restores full health, clears the state and sets the last attack to minus the cooldown, so an attack is eligible at any `now >= 0` |
| ZombieBehaviour.InitializeEntersIdleIffSampled | Assets/Scripts/ZombieAI.cs:105-125 | Initialize enters Idle iff the navmesh sample succeeded; otherwise the agent is disabled and no state is set |
| ZombieBehaviour.TakeDamageContract | Assets/Scripts/ZombieAI.cs:127-136 | damage to a Dead zombie changes nothing; otherwise health drops by exactly the damage and Dead is entered iff the result is <= 0 |
| ZombieBehaviour.IdleDetection | Assets/Scripts/ZombieAI.cs:188-199 | Idle without a player does nothing; Idle switches to Chase iff the distance is <= the detection range |
| ZombieBehaviour.ChaseRules | Assets/Scripts/ZombieAI.cs:218-251 | Chase: a lost player leads to Idle, off the navmesh nothing changes, within attack range it switches to Attack, otherwise it keeps chasing |
| ZombieBehaviour.ChaseNeverAbandonsOnDistance | Assets/Scripts/ZombieAI.cs:218-251 | however far away the player is, a chasing zombie never returns to Idle while the player exists |
| ZombieBehaviour.AttackRules | Assets/Scripts/ZombieAI.cs:269-304 | Attack: a lost player leads to Idle, beyond attack range it returns to Chase, otherwise it strikes iff the cooldown has elapsed, and a strike stamps `now` |
| ZombieBehaviour.ExecuteNeverSelectsDead | Assets/Scripts/ZombieAI.cs:334-337 | Dead's Execute is a no-op and no other state's Execute moves to Dead |
| ZombieBehaviour.CooldownScenario | Assets/Scripts/ZombieAI.cs:292-303 | with a 2.0 cooldown, ticks at 0.0, 1.0 and 2.1 strike at 0.0 and at 2.1 only |
| ZombieBehaviour.SpawnEstablishesInvariant | Assets/Scripts/ZombieAI.cs:86-125 | after the pool reset and Initialize, a zombie at or below zero health is Dead |
| ZombieBehaviour.DeadIsTerminal | Assets/Scripts/ZombieAI.cs:127-136 | over any sequence of frames, hits and despawn checks a Dead zombie stays Dead, never heals and never starts a second death |
| ZombieBehaviour.LifeInvariantPreserved | Assets/Scripts/ZombieAI.cs:127-136 | every frame, hit and despawn check keeps "health <= 0 implies Dead" |
| ZombieBehaviour.AtMostOneDeath | Assets/Scripts/ZombieAI.cs:312-332 | no sequence of events runs Dead's Enter twice in one life |
| ZombieComponent.ZombieAI.constructor | Assets/Scripts/ZombieAI.cs:51-58 | a new zombie has its agent disabled, no state, no deaths, and is not yet out of the pool |
| ZombieComponent.ZombieAI.ExitState | Assets/Scripts/ZombieAI.cs:253-257 | the fields become `Exit` of the old fields |
| ZombieComponent.ZombieAI.EnterState | Assets/Scripts/ZombieAI.cs:312-332 | the fields become `Enter` of the old fields |
| ZombieComponent.ZombieAI.ChangeState | Assets/Scripts/ZombieAI.cs:74-83 | the fields become `ChangeState` of the old fields: Exit, assign, Enter |
| ZombieComponent.ZombieAI.Update | Assets/Scripts/ZombieAI.cs:65-71 | the fields become `Tick` of the old fields |
| ZombieComponent.ZombieAI.OnObjectSpawn | Assets/Scripts/ZombieAI.cs:86-102 | the fields become the pool reset of the old fields |
| ZombieComponent.ZombieAI.Initialize | Assets/Scripts/ZombieAI.cs:105-125 | the fields become `Initialize` of the old fields |
| ZombieComponent.ZombieAI.TakeDamage | Assets/Scripts/ZombieAI.cs:127-136 | the fields become `TakeDamage` of the old fields |
| ZombieComponent.ZombieAI.CompleteDespawn | Assets/Scripts/ZombieAI.cs:341-345 | once the despawn deadline has passed the object goes back to the pool |
| ZombieComponent.ZombieAI.DealDamageToPlayer | Assets/Scripts/ZombieAI.cs:139-148 | returns exactly `DealsDamage` of the target: a hit iff a player exists within attack range |
| ZombieSpawning.VisibilityBounds | Assets/Scripts/Monster/DynamicZombieSpawner.cs:177-184 | without a camera nothing is visible; a point in front of the camera inside the viewport is visible; a point behind the camera or beyond the 0.2 margin is not |
| ZombieSpawning.IsVisibleToCamera | Assets/Scripts/Monster/DynamicZombieSpawner.cs:177-184 | stated by `VisibilityBounds`: nothing is visible without a camera; a point in front of the camera inside the viewport is visible; a point behind it or beyond the 0.2 margin is not |
| ZombieSpawning.Accepted | Assets/Scripts/Monster/DynamicZombieSpawner.cs:103-138 | an attempt is taken iff its navmesh sample succeeded, the point is not visible to the camera and nothing blocks it; `FirstAccepted` and `TrySpawn` state that the first such attempt is the one used |
| ZombieSpawning.FirstAccepted | Assets/Scripts/Monster/DynamicZombieSpawner.cs:103-138 | the index found is an accepted attempt with no accepted attempt before it; `None` means no attempt was accepted |
| ZombieSpawning.Clamp | Assets/Scripts/Monster/DynamicZombieSpawner.cs:158 | the result lies in [lo, hi] and equals x when x already does |
| ZombieSpawning.SpecialChance | Assets/Scripts/Monster/DynamicZombieSpawner.cs:143-160 | the chance always lies in [0, 0.5] and is 0 below floor -6 or without special tags |
| ZombieSpawning.ChooseZombieTag | Assets/Scripts/Monster/DynamicZombieSpawner.cs:163-174 | the tag comes from the special list when the special draw succeeds and from the normal list otherwise |
| ZombieSpawning.SpecialIffBelowChance | Assets/Scripts/Monster/DynamicZombieSpawner.cs:150-160 | a special zombie is chosen iff the sample is below the chance, and never below floor -6 or without special tags |
| ZombieSpawning.SpecialChanceValue | Assets/Scripts/Monster/DynamicZombieSpawner.cs:143-160 | on eligible floors the chance is exactly clamp(start + (floor + 6) * rate, 0, 0.5); without a game manager (floor -9) it is 0 |
| ZombieSpawning.SpecialChanceMonotone | Assets/Scripts/Monster/DynamicZombieSpawner.cs:150-160 | with a non-negative increase rate, a higher floor never has a lower chance |
| ZombieSpawning.TrySpawn | Assets/Scripts/Monster/DynamicZombieSpawner.cs:93-139 | no spawn without a player or normal tags; a spawn happens at the first accepted of the 10 attempts, with a valid tag, and happens iff some attempt is accepted |
| ZombieSpawning.SpawnDistanceInBand | Assets/Scripts/Monster/DynamicZombieSpawner.cs:103-117 | every spawned zombie lies within [minDistance - 2, maxDistance + 2] of the player |
| ZombieSpawning.LiveCount | Assets/Scripts/Monster/DynamicZombieSpawner.cs:71-76 | the live count never exceeds the number of zombies in the scene |
| ZombieSpawning.CountLive | Assets/Scripts/Monster/DynamicZombieSpawner.cs:71-76 | the counting loop returns the number of zombies that are not Dead and are active |
| ZombieSpawning.SpawnAmount | Assets/Scripts/Monster/DynamicZombieSpawner.cs:78-80 | nothing is planned at or above target; otherwise min(2, target - live) calls, positive and not overshooting the target |
| ZombieSpawning.CallsBeforeLoss | Assets/Scripts/Monster/DynamicZombieSpawner.cs:81-88 | the calls made all had a player, and fewer calls than planned means the player was gone at the next check |
| ZombieSpawning.Requests | Assets/Scripts/Monster/DynamicZombieSpawner.cs:81-88 | a cycle's spawn calls yield one result per call |
| ZombieSpawning.StartSpawning | Assets/Scripts/Monster/DynamicZombieSpawner.cs:34-40 | spawning is switched on, the camera is looked up, and one more routine runs (a second call starts a second routine) |
| ZombieSpawning.StopSpawning | Assets/Scripts/Monster/DynamicZombieSpawner.cs:42-46 | spawning is switched off, every routine stops, and the calls made so far are kept |
| ZombieSpawning.NoPlayerSkipsCycle | Assets/Scripts/Monster/DynamicZombieSpawner.cs:55-69 | without a player a cycle makes no spawn call; the routine ends iff the game manager is also absent |
| ZombieSpawning.CycleTopsUp | Assets/Scripts/Monster/DynamicZombieSpawner.cs:71-89 | a checked cycle makes no call at or above target, otherwise exactly min(2, target - live) calls, fewer only when the player disappears |
| ZombieSpawning.CyclePlansWithinTarget | Assets/Scripts/Monster/DynamicZombieSpawner.cs:78-88 | a cycle never plans the population past the target |
| ZombieSpawning.CycleSpawnsInBand | Assets/Scripts/Monster/DynamicZombieSpawner.cs:81-138 | each call of a checked cycle is a `TrySpawnZombie` with the player present, and every zombie it spawns lies in the widened band |
| ZombieSpawning.Cycle | Assets/Scripts/Monster/DynamicZombieSpawner.cs:48-91 | stated by `NoPlayerSkipsCycle`, `CycleTopsUp`, `CyclePlansWithinTarget` and `CycleSpawnsInBand`: without a player no call is made and the routine ends iff the game manager is gone; otherwise min(2, target - live) calls, fewer only when the player disappears, never past the target, each spawn in the distance band |
| ZombieSpawnerComponent.DynamicZombieSpawner.constructor | Assets/Scripts/Monster/DynamicZombieSpawner.cs:34-40 | a new spawner is not spawning and has made no calls |
| ZombieSpawnerComponent.DynamicZombieSpawner.StartSpawning | Assets/Scripts/Monster/DynamicZombieSpawner.cs:34-40 | the state becomes `StartSpawning` of the old state |
| ZombieSpawnerComponent.DynamicZombieSpawner.StopSpawning | Assets/Scripts/Monster/DynamicZombieSpawner.cs:42-46 | the state becomes `StopSpawning` of the old state |
| ZombieSpawnerComponent.DynamicZombieSpawner.TrySpawnZombie | Assets/Scripts/Monster/DynamicZombieSpawner.cs:93-139 | the attempt loop returns exactly the spawn `TrySpawn` describes |
| ZombieSpawnerComponent.DynamicZombieSpawner.RunCycle | Assets/Scripts/Monster/DynamicZombieSpawner.cs:48-91 | the new state and the outcome are exactly those of `Cycle` on the old state |
| ZombieSpawnerComponent.DynamicZombieSpawner.SpawnBatch | Assets/Scripts/Monster/DynamicZombieSpawner.cs:81-88 | the spawn loop makes exactly the calls made before the player disappears, and returns their results |
| Gun.Pattern | Assets/Scripts/Gun/GunController.cs:248-271 | projectile iff the weapon uses projectiles; otherwise a spread of the weapon's pellets for the shotgun, penetration for the sniper and a single raycast for the others |
| Gun.Equip | Assets/Scripts/Gun/GunController.cs:100-128 | selects the weapon, refills to the final maximum ammo and sets the last fire time to minus the fire rate; the trigger, reload flag and routine are kept |
| Gun.StartReload | Assets/Scripts/Gun/GunController.cs:447-452 | a reload already running is left alone; otherwise reloading starts and the automatic routine named by the handle is stopped |
| Gun.CompleteReload | Assets/Scripts/Gun/GunController.cs:470-473 | the next weapon, (index + 1) mod the count, is equipped full and reloading is cleared |
| Gun.Shoot | Assets/Scripts/Gun/GunController.cs:212-279 | one round is used, one shot of the weapon's pattern is logged, and reloading starts iff the magazine reaches <= 0 |
| Gun.OnFire | Assets/Scripts/Gun/GunController.cs:130-195 | stated by `GuardsIgnoreInput`, `EmptyPressOnlyReloads`, `SemiAutoFireRate` and `StaleHandleSwallowsPress`: guarded input changes nothing, an empty press only reloads, a semi-automatic press fires iff the fire rate allows |
| Gun.AutoStep | Assets/Scripts/Gun/GunController.cs:197-210 | stated by `AutoLoopCondition`: one round of the automatic routine shoots iff the trigger is held, ammo remains and no reload runs, and otherwise ends the routine |
| Gun.EquipPrimesFireRate | Assets/Scripts/Gun/GunController.cs:108-112 | right after equipping, the first semi-automatic shot is eligible at any `now >= 0` |
| Gun.GuardsIgnoreInput | Assets/Scripts/Gun/GunController.cs:132-134 | input while paused, in the upgrade menu, with the cursor over UI, without a gun or during a reload changes nothing |
| Gun.EmptyPressOnlyReloads | Assets/Scripts/Gun/GunController.cs:136-140 | with an empty magazine a press starts the reload and fires nothing |
| Gun.SemiAutoFireRate | Assets/Scripts/Gun/GunController.cs:162-173 | a semi-automatic press fires iff `now >= lastFireTime + fireRate`, and firing stamps `now` |
| Gun.AutoLoopCondition | Assets/Scripts/Gun/GunController.cs:197-210 | the automatic routine shoots iff the trigger is held, ammo remains and no reload runs; otherwise it ends and drops its handle |
| Gun.ReloadGuardAndCycle | Assets/Scripts/Gun/GunController.cs:447-474 | a second reload request is ignored; completion cycles to the next weapon and refills |
| Gun.StepKeepsValid | Assets/Scripts/Gun/GunController.cs:130-279 | every event keeps the index in range and the ammo non-negative, and a running routine always has its handle |
| Gun.SessionKeepsValid | Assets/Scripts/Gun/GunController.cs:130-279 | over any session the gun stays valid and the shot log only grows, by at most one shot per event |
| Gun.StaleHandleSwallowsPress | Assets/Scripts/Gun/GunController.cs:175-194 | after the automatic routine fires its last round, the release during the reload is ignored, so the first press afterwards fires nothing and the press after the next release fires again |
| Gun.SniperPenetrationBound | Assets/Scripts/Gun/GunController.cs:359-375 | with `count` zombies already damaged, the rest of the walk damages at most max(1, maxPenetration - count) more |
| Gun.SniperDamagesAllBeforeWall | Assets/Scripts/Gun/GunController.cs:342-376 | short of the penetration limit, every zombie before the first wall is damaged |
| Gun.SniperDamagedShape | Assets/Scripts/Gun/GunController.cs:342-376 | only zombies are damaged, each once and in hit order, none behind a wall, and the shooter's own collider is skipped |
| Gun.SniperEndShape | Assets/Scripts/Gun/GunController.cs:348-375 | the tracer ends at the wall that stopped it or at the zombie that used up the penetration, which is the last one damaged |
| Gun.SniperNearestFirst | Assets/Scripts/Gun/GunController.cs:337-376 | with hits sorted by distance, zombies are damaged nearest first |
| Gun.SniperWalk | Assets/Scripts/Gun/GunController.cs:342-376 | stated by `SniperPenetrationBound`, `SniperDamagesAllBeforeWall`, `SniperDamagedShape` and `SniperEndShape`: zombies before the first wall are damaged in hit order, each once, up to the penetration limit, and the tracer ends where the walk stopped |
| Gun.Pellets | Assets/Scripts/Gun/GunController.cs:311-324 | max(0, pellets) rays, the k-th turned by the k-th drawn angle |
| Gun.PelletsWithinSpread | Assets/Scripts/Gun/GunController.cs:311-324 | angles drawn in [-spread/2, spread/2] keep every pellet within half the spread, and there are exactly max(0, pellets) rays |
| GunComponent.GunController.constructor | Assets/Scripts/Gun/GunController.cs:71-78 | `Start` equips weapon 0 with its final maximum ammo when at least one weapon is configured, and otherwise leaves every field at its default |
| GunComponent.GunController.EquipWeapon | Assets/Scripts/Gun/GunController.cs:100-128 | the fields become `Equip` of the old fields |
| GunComponent.GunController.ReloadAndSwitch | Assets/Scripts/Gun/GunController.cs:447-452 | the fields become `StartReload` of the old fields |
| GunComponent.GunController.FinishReload | Assets/Scripts/Gun/GunController.cs:470-473 | the fields become `CompleteReload` of the old fields |
| GunComponent.GunController.Shoot | Assets/Scripts/Gun/GunController.cs:212-279 | the fields become `Shoot` of the old fields |
| GunComponent.GunController.OnFire | Assets/Scripts/Gun/GunController.cs:130-195 | the fields become `OnFire` of the old fields for the phase, gate and time |
| GunComponent.GunController.AutoShootStep | Assets/Scripts/Gun/GunController.cs:197-210 | the fields become one `AutoStep` of the old fields |
| GunComponent.GunController.FireSniper | Assets/Scripts/Gun/GunController.cs:328-383 | the loop damages exactly the hits `SniperWalk` names and ends the tracer where it does |
| GunComponent.GunController.FireShotgun | Assets/Scripts/Gun/GunController.cs:302-325 | the loop casts exactly `Pellets` of the drawn angles |
| LegacyGun.Equip | Assets/Scripts/GunController.cs:60-89 | selects the weapon and refills to its own `maxAmmo`, with no multiplier and no fire-time stamp |
| LegacyGun.StartReload | Assets/Scripts/GunController.cs:264-269 | a reload already running is left alone; otherwise reloading starts and the routine stops |
| LegacyGun.CompleteReload | Assets/Scripts/GunController.cs:282-285 | the next weapon, (index + 1) mod the count, is equipped full and reloading is cleared |
| LegacyGun.Shoot | Assets/Scripts/GunController.cs:159-198 | one round is used, one shot is logged, and reloading starts iff the magazine reaches <= 0 |
| LegacyGun.OnFire | Assets/Scripts/GunController.cs:91-137 | stated by `GuardsAndEmptyMagazine` and `SemiPressHasNoFireRate`: guarded input changes nothing, an empty press only reloads, a semi-automatic press with ammo always fires |
| LegacyGun.AutoStep | Assets/Scripts/GunController.cs:139-157 | stated by `AutoLoopCondition`: the automatic routine shoots iff the trigger is held, ammo remains and no reload runs |
| LegacyGun.GuardsAndEmptyMagazine | Assets/Scripts/GunController.cs:93-100 | input without a gun or during a reload changes nothing; with an empty magazine a press only starts the reload |
| LegacyGun.SemiPressHasNoFireRate | Assets/Scripts/GunController.cs:112-119 | a semi-automatic press with ammo always fires, so two presses in the same instant fire twice |
| LegacyGun.AutoLoopCondition | Assets/Scripts/GunController.cs:139-157 | the automatic routine shoots iff the trigger is held, ammo remains and no reload runs |
| LegacyGun.ReloadGuardAndCycle | Assets/Scripts/GunController.cs:261-287 | a second reload request is ignored; completion cycles to the next weapon and refills to its `maxAmmo` |
| LegacyGun.SessionKeepsValid | Assets/Scripts/GunController.cs:91-198 | over any session ammo stays non-negative and the index in range, and the shot log grows by at most one per event |
| LegacyGunComponent.GunController.constructor | Assets/Scripts/GunController.cs:51-58 | `Start` equips weapon 0 full when at least one weapon is configured, and otherwise leaves every field at its default |
| LegacyGunComponent.GunController.EquipWeapon | Assets/Scripts/GunController.cs:60-89 | the fields become `Equip` of the old fields |
| LegacyGunComponent.GunController.ReloadAndSwitch | Assets/Scripts/GunController.cs:261-269 | the fields become `StartReload` of the old fields |
| LegacyGunComponent.GunController.FinishReload | Assets/Scripts/GunController.cs:282-285 | the fields become `CompleteReload` of the old fields |
| LegacyGunComponent.GunController.Shoot | Assets/Scripts/GunController.cs:159-198 | the fields become `Shoot` of the old fields |
| LegacyGunComponent.GunController.OnFire | Assets/Scripts/GunController.cs:91-137 | the fields become `OnFire` of the old fields |
| LegacyGunComponent.GunController.AutoShootStep | Assets/Scripts/GunController.cs:139-157 | the fields become one `AutoStep` of the old fields |
| PlayerHealth.Start | Assets/Scripts/Player/PlayerController.cs:69-99 | the player is armed iff a game manager exists and (the floor is -8 or higher, or this is a retry); the player is alive at full health |
| PlayerHealth.AcquireGun | Assets/Scripts/Player/PlayerController.cs:124-135 | the player is armed and nothing else changes |
| PlayerHealth.Heal | Assets/Scripts/Player/PlayerController.cs:139-144 | the health rises by the amount but never above the maximum, and is the maximum iff the sum reached it |
| PlayerHealth.Die | Assets/Scripts/Player/PlayerController.cs:161-168 | the first call marks the player dead and notifies the game manager when it exists; later calls change nothing |
| PlayerHealth.IsHealthFull | Assets/Scripts/Player/PlayerController.cs:138 | stated by `HealFillsIffSumReachesMax`: after a heal the player is full iff the sum reached the maximum, and a full player stays full under a non-negative heal |
| PlayerHealth.TakeDamage | Assets/Scripts/Player/PlayerController.cs:146-159 | stated by `TakeDamageContract`: ignored at zero health or below; otherwise health drops by the damage and `Die` runs iff it reaches zero or below |
| PlayerHealth.HandleFootstep | Assets/Scripts/Player/PlayerController.cs:112-122 | stated by `FootstepGate`: a footstep plays iff grounded, moving faster than 0.1 and due, and the next is due `stepRate` later |
| PlayerHealth.Update | Assets/Scripts/Player/PlayerController.cs:101-122 | stated by `DeadPlayerIsFrozen` and `FootstepGate`: nothing happens once dead, otherwise the footstep gate runs |
| PlayerHealth.HealFillsIffSumReachesMax | Assets/Scripts/Player/PlayerController.cs:138-144 | after a heal the health is full iff the sum reached the maximum; a full player stays full under any non-negative heal |
| PlayerHealth.TakeDamageContract | Assets/Scripts/Player/PlayerController.cs:146-159 | damage at or below zero health is ignored; otherwise health drops by the damage and `Die` runs iff it reaches <= 0 |
| PlayerHealth.DieIdempotent | Assets/Scripts/Player/PlayerController.cs:161-168 | dying twice is dying once |
| PlayerHealth.DeadPlayerIsFrozen | Assets/Scripts/Player/PlayerController.cs:101-103 | once dead, a frame changes nothing |
| PlayerHealth.FootstepGate | Assets/Scripts/Player/PlayerController.cs:112-122 | a footstep plays iff grounded, moving faster than 0.1 and due, and the next one is then due `stepRate` later |
| PlayerHealth.StartEstablishes | Assets/Scripts/Player/PlayerController.cs:69-99 | `Start` establishes the life invariant |
| PlayerHealth.LifeKeepsInvariant | Assets/Scripts/Player/PlayerController.cs:139-168 | every non-negative heal, hit, frame and pickup keeps the life invariant (health at most the maximum, a living player has positive health, `Die` took effect once iff dead, the manager heard of at most that death), and a dead player stays dead |
| PlayerComponent.PlayerController.constructor | Assets/Scripts/Player/PlayerController.cs:69-78 | the object before `Start` holds its serialized defaults |
| PlayerComponent.PlayerController.Start | Assets/Scripts/Player/PlayerController.cs:69-99 | the fields become `Start` of the old fields |
| PlayerComponent.PlayerController.AcquireGun | Assets/Scripts/Player/PlayerController.cs:124-135 | the fields become `AcquireGun` of the old fields |
| PlayerComponent.PlayerController.IsHealthFull | Assets/Scripts/Player/PlayerController.cs:138 | returns true iff health is at least the maximum |
| PlayerComponent.PlayerController.Heal | Assets/Scripts/Player/PlayerController.cs:139-144 | the fields become `Heal` of the old fields |
| PlayerComponent.PlayerController.Die | Assets/Scripts/Player/PlayerController.cs:161-168 | the fields become `Die` of the old fields |
| PlayerComponent.PlayerController.TakeDamage | Assets/Scripts/Player/PlayerController.cs:146-159 | the fields become `TakeDamage` of the old fields |
| PlayerComponent.PlayerController.Update | Assets/Scripts/Player/PlayerController.cs:101-122 | the fields become `Update` of the old fields: nothing once dead, otherwise the footstep gate |
| LegacyPlayerHealth.Start | Assets/Scripts/PlayerController.cs:45-64 | the player is unarmed at full health |
| LegacyPlayerHealth.AcquireGun | Assets/Scripts/PlayerController.cs:74-81 | the player is armed and the health is unchanged |
| LegacyPlayerHealth.Heal | Assets/Scripts/PlayerController.cs:88-95 | the health rises by the amount but never above the maximum, and is the maximum iff the sum reached it |
| LegacyPlayerHealth.TakeDamage | Assets/Scripts/PlayerController.cs:97-111 | the damage is always subtracted |
| LegacyPlayerHealth.IsHealthFull | Assets/Scripts/PlayerController.cs:84-87 | stated by `HealFillsIffSumReachesMax`: after a heal the player is full iff the sum reached the maximum |
| LegacyPlayerHealth.HealFillsIffSumReachesMax | Assets/Scripts/PlayerController.cs:84-95 | after a heal the health is full iff the sum reached the maximum |
| LegacyPlayerHealth.HitsAccumulateBelowZero | Assets/Scripts/PlayerController.cs:97-111 | after any hits the health is the start minus their sum, however far below zero |
| LegacyPlayerComponent.PlayerController.constructor | Assets/Scripts/PlayerController.cs:6-15 | the object before `Start`: no health yet, unarmed |
| LegacyPlayerComponent.PlayerController.Start | Assets/Scripts/PlayerController.cs:45-64 | the fields become `Start` of the old fields |
| LegacyPlayerComponent.PlayerController.AcquireGun | Assets/Scripts/PlayerController.cs:74-81 | the fields become `AcquireGun` of the old fields |
| LegacyPlayerComponent.PlayerController.IsHealthFull | Assets/Scripts/PlayerController.cs:84-87 | returns true iff health is at least the maximum |
| LegacyPlayerComponent.PlayerController.Heal | Assets/Scripts/PlayerController.cs:88-95 | the fields become `Heal` of the old fields |
| LegacyPlayerComponent.PlayerController.TakeDamage | Assets/Scripts/PlayerController.cs:97-111 | the fields become `TakeDamage` of the old fields |
| Tutorial.UpdateText | Assets/Scripts/TutorialRoom/TutorialManager.cs:156-167 | the key is always recorded as the current message, and displayed only when the UI and languages exist |
| Tutorial.Start | Assets/Scripts/TutorialRoom/TutorialManager.cs:34-60 | on a retry or off floor -9 the manager disables itself without touching the step or message, and the tutorial text ends up hidden iff a UI manager exists or it already was; otherwise it is at step 0 with the move message, shown iff the UI and language managers both exist, and the text box is left as it was |
| Tutorial.OnPlayerEnterCorridor | Assets/Scripts/TutorialRoom/TutorialManager.cs:65-76 | stated by `CorridorAndPickup`: only step 0 moves, to step 1; any other step is left alone |
| Tutorial.OnGunPickedUp | Assets/Scripts/TutorialRoom/TutorialManager.cs:79-90 | stated by `CorridorAndPickup`: any step below 2 jumps to 2, later steps are left alone |
| Tutorial.OnZombieKilled | Assets/Scripts/TutorialRoom/TutorialManager.cs:93-104 | stated by `KillsCountOnlyInCombat`: a kill counts only in step 2, and step 3 starts iff two kills are counted |
| Tutorial.CheckCapsuleCount | Assets/Scripts/TutorialRoom/TutorialManager.cs:108-115 | stated by `LaterStepsNeedPredecessor`: step 3 moves to 4 iff at least two capsules are held |
| Tutorial.OnUpgradeCompleted | Assets/Scripts/TutorialRoom/TutorialManager.cs:118-126 | stated by `LaterStepsNeedPredecessor`: step 4 moves to 5 and opens the exit door; other steps are left alone |
| Tutorial.OnPlayerEnterGeneratorRoom | Assets/Scripts/TutorialRoom/TutorialManager.cs:128-136 | stated by `LaterStepsNeedPredecessor`: only step 5 moves, to 6 |
| Tutorial.OnTutorialGeneratorActivated | Assets/Scripts/TutorialRoom/TutorialManager.cs:139-147 | stated by `LaterStepsNeedPredecessor`: only step 6 moves, to 7 |
| Tutorial.ShowFinalGoalMessage | Assets/Scripts/TutorialRoom/TutorialManager.cs:150-153 | the final-goal message becomes the current key, shown iff the UI is ready; step and kills are kept |
| Tutorial.RefreshCurrentMessage | Assets/Scripts/TutorialRoom/TutorialManager.cs:171-178 | stated by `RefreshShowsCurrentKey`: the step and key are kept, and the key is shown again iff it is non-empty and the UI is ready |
| Tutorial.CorridorAndPickup | Assets/Scripts/TutorialRoom/TutorialManager.cs:65-90 | the corridor moves only step 0 to 1; the gun pickup moves any step below 2 to 2 and leaves later steps alone |
| Tutorial.KillsCountOnlyInCombat | Assets/Scripts/TutorialRoom/TutorialManager.cs:93-104 | kills count only in step 2, and step 3 starts iff two kills are counted |
| Tutorial.LaterStepsNeedPredecessor | Assets/Scripts/TutorialRoom/TutorialManager.cs:108-147 | 3 to 4 (with at least two capsules), 4 to 5, 5 to 6 and 6 to 7 each fire only from their exact predecessor; only 4 to 5 opens the exit door |
| Tutorial.RefreshShowsCurrentKey | Assets/Scripts/TutorialRoom/TutorialManager.cs:171-178 | a refresh keeps the step and the key, and shows the key again iff it is non-empty and the UI is ready |
| Tutorial.StartEstablishesProgress | Assets/Scripts/TutorialRoom/TutorialManager.cs:34-60 | a started tutorial satisfies the progress invariant |
| Tutorial.StepKeepsProgress | Assets/Scripts/TutorialRoom/TutorialManager.cs:65-178 | any handler keeps the progress invariant and never lowers the step |
| Tutorial.StepsNeverDecrease | Assets/Scripts/TutorialRoom/TutorialManager.cs:65-147 | across any sequence of handler calls the step never decreases and stays within 0..7 |
| TutorialComponent.TutorialManager.constructor | Assets/Scripts/TutorialRoom/TutorialManager.cs:17-27 | a new manager is enabled at step 0 with no kills, no message and nothing shown |
| TutorialComponent.TutorialManager.UpdateText | Assets/Scripts/TutorialRoom/TutorialManager.cs:156-167 | the fields become `UpdateText` of the old fields |
| TutorialComponent.TutorialManager.Start | Assets/Scripts/TutorialRoom/TutorialManager.cs:34-60 | the fields become `Start` of the old fields, given whether the UI manager and the language manager exist: the text is hidden off the tutorial path iff a UI manager exists |
| TutorialComponent.TutorialManager.OnPlayerEnterCorridor | Assets/Scripts/TutorialRoom/TutorialManager.cs:65-76 | the fields become the corridor handler's result |
| TutorialComponent.TutorialManager.OnGunPickedUp | Assets/Scripts/TutorialRoom/TutorialManager.cs:79-90 | the fields become the pickup handler's result |
| TutorialComponent.TutorialManager.OnZombieKilled | Assets/Scripts/TutorialRoom/TutorialManager.cs:93-104 | the fields become the kill handler's result |
| TutorialComponent.TutorialManager.CheckCapsuleCount | Assets/Scripts/TutorialRoom/TutorialManager.cs:108-115 | the fields become the capsule handler's result |
| TutorialComponent.TutorialManager.OnUpgradeCompleted | Assets/Scripts/TutorialRoom/TutorialManager.cs:118-126 | the fields become the upgrade handler's result |
| TutorialComponent.TutorialManager.OnPlayerEnterGeneratorRoom | Assets/Scripts/TutorialRoom/TutorialManager.cs:128-136 | the fields become the generator-room handler's result |
| TutorialComponent.TutorialManager.OnTutorialGeneratorActivated | Assets/Scripts/TutorialRoom/TutorialManager.cs:139-147 | the fields become the generator handler's result |
| TutorialComponent.TutorialManager.ShowFinalGoalMessage | Assets/Scripts/TutorialRoom/TutorialManager.cs:150-153 | the final-goal message becomes the current key |
| TutorialComponent.TutorialManager.RefreshCurrentMessage | Assets/Scripts/TutorialRoom/TutorialManager.cs:171-178 | the fields become `RefreshCurrentMessage` of the old fields |
| Generators.Activate | Assets/Scripts/Generator.cs:60-82 | activation is idempotent: it sets the flag, clears the hold and notifies the game manager once, for a non-tutorial generator with a manager present |
| Generators.OnTriggerEnter | Assets/Scripts/Generator.cs:84-93 | the player is in range afterwards iff it was before or the player entered an inactive generator; nothing else changes |
| Generators.OnTriggerExit | Assets/Scripts/Generator.cs:95-107 | the player leaving clears the range flag and the hold; other colliders change nothing |
| Generators.Update | Assets/Scripts/Generator.cs:20-58 | stated by `ActivatedIgnoresFrames`, `HoldAccumulates` and `ReleaseResets`: an active generator ignores frames; in range and holding the hold grows by the frame time and activation happens iff it reaches the duration; releasing resets the hold |
| Generators.ActivatedIgnoresFrames | Assets/Scripts/Generator.cs:20-22 | an activated generator ignores every frame |
| Generators.HoldAccumulates | Assets/Scripts/Generator.cs:25-45 | in range and holding, the hold grows by the frame time and the generator activates iff the hold reaches the duration (and the sound manager exists) |
| Generators.ReleaseResets | Assets/Scripts/Generator.cs:47-56 | releasing the key in range resets the hold to zero and does not activate |
| Generators.TutorialNeverNotifies | Assets/Scripts/Generator.cs:60-82 | activating twice is activating once, and a tutorial generator never notifies the game manager |
| Generators.RunKeepsConsistent | Assets/Scripts/Generator.cs:20-107 | any sequence of frames and trigger events keeps the hold non-negative and the manager notified at most once (never for the tutorial generator); activation is permanent |
| GeneratorComponent.Generator.constructor | Assets/Scripts/Generator.cs:7-18 | a new generator is inactive, out of range and holds nothing |
| GeneratorComponent.Generator.Activate | Assets/Scripts/Generator.cs:60-82 | the fields become `Activate` of the old fields |
| GeneratorComponent.Generator.Update | Assets/Scripts/Generator.cs:20-58 | the fields become one frame of `Update` of the old fields |
| GeneratorComponent.Generator.OnTriggerEnter | Assets/Scripts/Generator.cs:84-93 | the fields become `OnTriggerEnter` of the old fields |
| GeneratorComponent.Generator.OnTriggerExit | Assets/Scripts/Generator.cs:95-107 | the fields become `OnTriggerExit` of the old fields |
| Localization.RegistrationKeysDistinct | Assets/Scripts/Setting/LanguageManager.cs:44-71 | no key is registered twice, so no `Add` call throws |
| Localization.BuildLookup | Assets/Scripts/Setting/LanguageManager.cs:44-71 | with distinct keys the dictionary maps each key to its registered texts |
| Localization.PairsBuild | Assets/Scripts/Setting/LanguageManager.cs:44-71 | a dictionary built from pairs holds only pairs |
| Localization.KeyCount | Assets/Scripts/Setting/LanguageManager.cs:44-71 | with distinct keys the dictionary has one key per registration |
| Localization.Build | Assets/Scripts/Setting/LanguageManager.cs:44-71 | stated by `BuildLookup`, `PairsBuild` and `KeyCount`: with distinct keys each key maps to its registered texts and there is one key per registration |
| Localization.TableHoldsRegistrations | Assets/Scripts/Setting/LanguageManager.cs:44-71 | the table maps each of the 24 registered keys to exactly its two strings, Korean first |
| Localization.TutorialMessagesRegistered | Assets/Scripts/Setting/LanguageManager.cs:60-70 | every message key the tutorial shows is registered |
| Localization.GetTextFallsBackToKey | Assets/Scripts/Setting/LanguageManager.cs:131-138 | an unregistered key comes back unchanged in any language |
| Localization.GetTextRegistered | Assets/Scripts/Setting/LanguageManager.cs:131-138 | a registered key gives its Korean text for language 0, its English text for 1, and fails for any other language |
| Localization.GetTextTotalInKnownLanguages | Assets/Scripts/Setting/LanguageManager.cs:131-138 | in Korean or English the lookup never fails |
| Localization.GetText | Assets/Scripts/Setting/LanguageManager.cs:131-138 | stated by `GetTextFallsBackToKey`, `GetTextRegistered` and `GetTextTotalInKnownLanguages`: an unknown key comes back unchanged, a known key gives its text in Korean or English, and any other language fails |
| Localization.DropdownOffersBothLanguages | Assets/Scripts/Setting/LanguageManager.cs:91-112 | the language dropdown gets exactly two options, Korean's label then English's, in the current language, and keeps its selection |
| Localization.ChangeLanguagePersists | Assets/Scripts/Setting/LanguageManager.cs:73-88 | the new language is set and persisted whatever follows; for Korean or English the switch completes and the tutorial is refreshed iff present |
| Localization.RefreshLanguageDropdown | Assets/Scripts/Setting/LanguageManager.cs:91-112 | stated by `DropdownOffersBothLanguages`: two options, Korean's label then English's, in the current language, selection kept |
| Localization.ChangeLanguage | Assets/Scripts/Setting/LanguageManager.cs:73-88 | stated by `ChangeLanguagePersists`: the language is set and persisted whatever follows; in Korean or English the switch completes and the tutorial is refreshed iff present |
| LanguageComponent.LanguageManager.constructor | Assets/Scripts/Setting/LanguageManager.cs:11-17 | a new manager is in Korean with an empty dictionary |
| LanguageComponent.LanguageManager.InitLocalizationData | Assets/Scripts/Setting/LanguageManager.cs:44-71 | succeeds iff no registered key was already present; the dictionary then holds the table; from empty it is exactly the table |
| LanguageComponent.LanguageManager.AddAll | Assets/Scripts/Setting/LanguageManager.cs:46-70 | the `Add` loop succeeds iff no key was present before, and the dictionary then gains exactly the built entries |
| LanguageComponent.LanguageManager.GetText | Assets/Scripts/Setting/LanguageManager.cs:131-138 | returns `GetText` on the dictionary and the current language |
| LanguageComponent.LanguageManager.RefreshLanguageDropdown | Assets/Scripts/Setting/LanguageManager.cs:91-112 | the state and success flag are those of `RefreshLanguageDropdown`; the dictionary is unchanged |
| LanguageComponent.LanguageManager.ChangeLanguage | Assets/Scripts/Setting/LanguageManager.cs:73-88 | the state and success flag are those of `ChangeLanguage`; the dictionary is unchanged |
| Display.Labels | Assets/Scripts/Setting/GraphicSettings.cs:127-133 | one option per resolution, each its "w x h" label |
| Display.LabelMeansSize | Assets/Scripts/Setting/GraphicSettings.cs:124-126 | two resolutions share a label iff they have the same width and height |
| Display.InLabelsIffHasSize | Assets/Scripts/Setting/GraphicSettings.cs:126-128 | a label is already taken iff a resolution of that size is already listed |
| Display.DedupFromInput | Assets/Scripts/Setting/GraphicSettings.cs:120-135 | every kept resolution comes from the input |
| Display.DedupCoversSizes | Assets/Scripts/Setting/GraphicSettings.cs:120-135 | every input size is represented in the kept list |
| Display.DedupSizesDistinct | Assets/Scripts/Setting/GraphicSettings.cs:120-135 | no two kept resolutions share a size |
| Display.DedupIsFirsts | Assets/Scripts/Setting/GraphicSettings.cs:120-135 | the kept list is the first resolution of every size, in input order |
| Display.DedupKeepsFirstOfEachSize | Assets/Scripts/Setting/GraphicSettings.cs:120-135 | the filtered list is the first of each size in order, its sizes are distinct, it covers every input size and takes nothing from outside the input |
| Display.Dedup | Assets/Scripts/Setting/GraphicSettings.cs:120-135 | stated by `DedupKeepsFirstOfEachSize`: the first resolution of every size, in input order, with distinct sizes covering the input |
| Display.MatchIndex | Assets/Scripts/Setting/GraphicSettings.cs:137-141 | the current index is 0 for an empty list and otherwise a valid position |
| Display.MatchIndexFindsScreen | Assets/Scripts/Setting/GraphicSettings.cs:118-141 | the index points at an entry of the screen's size when there is one, and is 0 otherwise |
| Display.DedupPrefixStep | Assets/Scripts/Setting/GraphicSettings.cs:124-134 | reading one more resolution keeps it iff its label is new, which holds iff its size is new |
| Display.AppendStep | Assets/Scripts/Setting/GraphicSettings.cs:129-141 | appending a resolution appends its option, and moves the current index to it iff it has the screen's size |
| Display.SelectedIndex | Assets/Scripts/Setting/GraphicSettings.cs:146-151 | the saved index, defaulting to the current one, is kept when below the count and replaced by 0 otherwise |
| Display.InitResolutionMeaning | Assets/Scripts/Setting/GraphicSettings.cs:109-155 | the filtered list is the first of each size, options are aligned with it and pairwise distinct, the selection never runs past the end, and with nothing saved it selects the screen's size |
| Display.OptionsDistinct | Assets/Scripts/Setting/GraphicSettings.cs:127-133 | resolutions of pairwise different sizes get pairwise different options |
| Display.SetResolutionMeaning | Assets/Scripts/Setting/GraphicSettings.cs:157-164 | an in-range index switches the screen to that entry and persists the index; no list or an index past the end changes nothing; a negative index throws |
| Display.SetDisplayModeMeaning | Assets/Scripts/Setting/GraphicSettings.cs:96-104 | fullscreen iff index 0, the mode agrees with the flag, the index is persisted, and setting the mode twice is setting it once |
| Display.DisplayModeOptionsMeaning | Assets/Scripts/Setting/GraphicSettings.cs:64-94 | for Korean, English or no language manager there are exactly two options, fullscreen first (localized, or "Fullscreen" and "Windowed"), and the saved mode is selected |
| Display.InitResolution | Assets/Scripts/Setting/GraphicSettings.cs:109-155 | stated by `InitResolutionMeaning`: the filtered list is the first of each size, the options are aligned with it and distinct, the selection never runs past the end, and without a saved index it points at the screen's size when that is listed |
| Display.SetResolution | Assets/Scripts/Setting/GraphicSettings.cs:157-164 | stated by `SetResolutionMeaning`: an in-range index switches the screen and is persisted; no list or an index past the end changes nothing; a negative index throws |
| Display.SetDisplayMode | Assets/Scripts/Setting/GraphicSettings.cs:96-104 | stated by `SetDisplayModeMeaning`: fullscreen iff index 0, the index persisted, idempotent |
| Display.RefreshDisplayModeOptions | Assets/Scripts/Setting/GraphicSettings.cs:64-94 | stated by `DisplayModeOptionsMeaning`: two options, fullscreen first, localized when a language manager exists |
| DisplayComponent.GraphicSettings.constructor | Assets/Scripts/Setting/GraphicSettings.cs:18-23 | the component before its first scene load holds the given screen, preferences and dropdowns, and no resolution list yet |
| DisplayComponent.GraphicSettings.InitResolution | Assets/Scripts/Setting/GraphicSettings.cs:109-155 | the loop builds exactly the state `InitResolution` describes |
| DisplayComponent.GraphicSettings.SetResolution | Assets/Scripts/Setting/GraphicSettings.cs:157-164 | the state becomes `SetResolution` of the old state, and the call fails iff that throws |
| DisplayComponent.GraphicSettings.SetDisplayMode | Assets/Scripts/Setting/GraphicSettings.cs:96-104 | the state becomes `SetDisplayMode` of the old state |
| DisplayComponent.GraphicSettings.RefreshDisplayModeOptions | Assets/Scripts/Setting/GraphicSettings.cs:64-94 | the state and success flag are those of `RefreshDisplayModeOptions` |
| Hud.FloorLabel | Assets/Scripts/Manager/UIManager.cs:149 | the label is non-empty and starts with 'B' iff the floor is a basement |
| Hud.FloorLabelRoundTrip | Assets/Scripts/Manager/UIManager.cs:149 | reading a floor label back gives the floor: "B" and the depth below ground, "Lobby" for 0, the number and "F" above |
| Hud.FloorLabelInjective | Assets/Scripts/Manager/UIManager.cs:149 | distinct floors get distinct labels |
| Hud.DisplayedHealth | Assets/Scripts/Manager/UIManager.cs:150 | the shown health is max(0, hp) |
| Hud.HealthDisplayMeaning | Assets/Scripts/Manager/UIManager.cs:150 | the label is "HP " followed by max(0, hp), red iff that value is <= 30 |
| Hud.AmmoLabelInjective | Assets/Scripts/Manager/UIManager.cs:152 | the "current / max" label determines both numbers |
| Hud.UpdateInteractionProgress | Assets/Scripts/Manager/UIManager.cs:156 | the bar is shown iff 0 < ratio < 1, the fill is the ratio, and missing widgets are left alone |
| Hud.SetFadeAlpha | Assets/Scripts/Manager/UIManager.cs:95-102 | the alpha is set and the canvas blocks clicks iff it is above 0.1 |
| Hud.ShowTutorialText | Assets/Scripts/Manager/UIManager.cs:104-118 | the group is active iff the message is non-empty; an empty message leaves the text unchanged |
| Hud.HideTutorialText | Assets/Scripts/Manager/UIManager.cs:120-123 | the group is deactivated and nothing else changes |
| Hud.PauseCloseClosesSettings | Assets/Scripts/Manager/UIManager.cs:157 | closing the pause panel leaves no settings panel open; opening it leaves the settings panel as it was |
| Hud.EmptyMessageHidesButKeepsText | Assets/Scripts/Manager/UIManager.cs:104-118 | an empty message hides the box but keeps the old text, and a later message shows again |
| Hud.LabelsReadBack | Assets/Scripts/Manager/UIManager.cs:149-152 | the floor and ammo labels of a wired HUD read back as the values last passed in |
| Hud.HealthReadsBack | Assets/Scripts/Manager/UIManager.cs:150 | a wired health label reads back as max(0, hp), red iff the health is 30 or less, and no other widget changes |
| Hud.HealthDisplay | Assets/Scripts/Manager/UIManager.cs:150 | stated by `HealthDisplayMeaning`: "HP " and max(0, hp), red iff at most 30 |
| Hud.AmmoLabel | Assets/Scripts/Manager/UIManager.cs:152 | stated by `AmmoLabelInjective`: the label determines both numbers |
| Hud.UpdateFloor | Assets/Scripts/Manager/UIManager.cs:149 | stated by `LabelsReadBack`: a wired floor label reads back as the floor last passed in |
| Hud.UpdateHealth | Assets/Scripts/Manager/UIManager.cs:150 | stated by `HealthReadsBack`: a wired health label shows max(0, hp), red iff at most 30 |
| Hud.UpdateAmmo | Assets/Scripts/Manager/UIManager.cs:152 | stated by `LabelsReadBack`: a wired ammo label reads back as the two numbers last passed in |
| Hud.ShowPausePanel | Assets/Scripts/Manager/UIManager.cs:157 | stated by `PauseCloseClosesSettings`: closing the pause panel closes the settings panel, opening it leaves that panel alone |
| HudComponent.UIManager.constructor | Assets/Scripts/Manager/UIManager.cs:11-42 | the widgets are as wired in the scene |
| HudComponent.UIManager.UpdateFloor | Assets/Scripts/Manager/UIManager.cs:149 | the widgets become `UpdateFloor` of the old ones |
| HudComponent.UIManager.UpdateHealth | Assets/Scripts/Manager/UIManager.cs:150 | the widgets become `UpdateHealth` of the old ones |
| HudComponent.UIManager.UpdateAmmo | Assets/Scripts/Manager/UIManager.cs:152 | the widgets become `UpdateAmmo` of the old ones |
| HudComponent.UIManager.UpdateInteractionProgress | Assets/Scripts/Manager/UIManager.cs:156 | the widgets become `UpdateInteractionProgress` of the old ones |
| HudComponent.UIManager.SetFadeAlpha | Assets/Scripts/Manager/UIManager.cs:95-102 | the widgets become `SetFadeAlpha` of the old ones |
| HudComponent.UIManager.ShowTutorialText | Assets/Scripts/Manager/UIManager.cs:104-118 | the widgets become `ShowTutorialText` of the old ones |
| HudComponent.UIManager.HideTutorialText | Assets/Scripts/Manager/UIManager.cs:120-123 | the widgets become `HideTutorialText` of the old ones |
| HudComponent.UIManager.ShowPausePanel | Assets/Scripts/Manager/UIManager.cs:157 | the widgets become `ShowPausePanel` of the old ones |

## Left out

- Unity engine services are inputs, not models: `NavMesh.SamplePosition`, `Physics.Raycast`/`RaycastAll`/`CheckSphere`, `Camera.WorldToViewportPoint`, the object pool, `Animator` and `NavMeshAgent`. Agent and animation calls appear only as the flags they leave behind.
- Coroutines are not suspended. `SpawnRoutine`, `ReloadAndSwitch`, `AutoShootRoutine` and `DespawnRoutine` are split at their `WaitForSeconds`, and the resumption is a separate call. The 0.1 s gap between two spawns of a cycle is not represented.
- Randomness (`Random.value`, `Random.Range`, `insideUnitCircle`) is passed in as drawn samples. No distribution is modelled.
- Vector, rotation and float movement math is not modelled: zombie facing, player movement, gravity, push force, `OnMove`/`OnLook` and camera look. Positions are reduced to distances and viewport coordinates.
- Gun.Equip: `GetFinalMaxAmmo` and `GetFinalDamage` with their float multipliers and rounding are given as integers, because they depend on game-manager upgrades outside this model. Damage amounts do not appear.
- Gun.SniperWalk: `RaycastAll` results arrive already sorted by distance. `System.Array.Sort` is not modelled.
- With no weapon configured, both gun controllers' `Start` leaves the defaults, and later input in the source indexes the empty list (or divides by its count on a reload) and throws. The methods that read the current weapon require it to exist, so those throws are not modelled.
- Sound, particle, muzzle-flash, tracer, shell-ejection and UI side effects of the scripts are left out, except where a missing sound manager changes control flow (the generator).
- Unity's destroyed-object null semantics and the player's transform lookup (`FindPlayer`) are reduced to "present / absent" inputs.
- 32-bit wrap-around of `int` health and ammo is not modelled. The values stay far from the limits in play.
- ZombieComponent.ZombieAI.CompleteDespawn: the `Despawn` call into the pool is reduced to a flag. The Chase give-up rule at `Assets/Scripts/ZombieAI.cs:242-247` is commented out in the source and is not modelled.
- ZombieComponent.ZombieAI.DealDamageToPlayer: the source only logs the hit, so the model returns whether one would register.
- LanguageManager's `Awake` singleton, `Start` (which reads the dropdown without a null check) and `UpdateAllText` with `LocalizedText` are not modelled.
- Localization.ChangeLanguage: because `UpdateAllText` is not modelled, an index other than 0 or 1 with no language dropdown is reported as completing with a tutorial refresh. In the source, `UpdateAllText` throws before the refresh: first in `LocalizedText.UpdateText` for any label in the scene that has a text component and a registered key, and otherwise in `GraphicSettings.RefreshDisplayModeOptions` (its lookup of "Opt_DisplayFull") when a display-mode dropdown exists.
- GraphicSettings' `Awake`, `OnSceneLoaded`, `Start` and `RefreshUI` are not modelled. The dropdown records the index it is given, without TMP's own clamping. `Screen.SetResolution` is taken to apply at once.
- UIManager's `FadeIn`/`FadeOut` coroutines, `UpdateUpgradePrices`, `ShowSettingsPanel`, `UpdateWeaponName`, `UpdateBioSample`, `ShowReloading`, `ShowUpgradePanel` and the button bridges are not modelled. `UpdateGeneratorCount` uses the same "current / max" label as `UpdateAmmo`.
- The generator's interaction prompt and its UI calls are left out. When a handler throws part-way, the model keeps the fields written before the throw.
- The tutorial's scene objects are reduced to flags. Its `Awake` singleton is not modelled.
