/**
 * The current weapon controller: equipping, the fire input with its guards
 * and semi-automatic fire-rate gate, the automatic-fire routine, the ammo
 * count, the reload that switches to the next weapon, the sniper's
 * penetration walk and the shotgun's pellets.
 *
 * The coroutines become explicit events: `AutoTick` is the automatic routine
 * waking after `fireRate`, `ReloadDone` is `ReloadAndSwitch` waking after
 * `reloadTime`. The `shootCoroutine` handle and whether the routine it
 * started is still running are kept apart, because stopping the routine from
 * a reload leaves the handle set.
 */
module Gun {
  import opened Wrappers

  datatype WeaponType = Rifle | Bazooka | FlameThrower | Shotgun | Sniper

  /** The gameplay fields of `WeaponStats`. */
  datatype WeaponStats = WeaponStats(
    kind: WeaponType,
    maxAmmo: int,
    fireRate: real,
    isAutomatic: bool,
    pellets: int,
    spreadAngle: real,
    maxPenetration: int,
    useProjectile: bool)

  /** What one shot fires, chosen by `Shoot`. */
  datatype ShotKind = Projectile | Spread(pellets: int) | Penetrating | Raycast

  /** The input phase of the fire action. */
  datatype Phase = Started | Performed | Canceled

  /**
   * The conditions `OnFire` checks first: the upgrade menu or pause (only with
   * a game manager), the cursor over UI, and whether the player holds a gun.
   */
  datatype FireGate = FireGate(menuOrPause: bool, cursorOverUI: bool, hasGun: bool)

  predicate Blocked(gate: FireGate) {
    gate.menuOrPause || gate.cursorOverUI || !gate.hasGun
  }

  /**
   * The controller's state. `handle` is `shootCoroutine != null`; `autoLive`
   * says the automatic routine is still running; `shots` lists every shot.
   */
  datatype GunState = GunState(
    index: int,
    ammo: int,
    reloading: bool,
    holding: bool,
    lastFireTime: real,
    handle: bool,
    autoLive: bool,
    shots: seq<ShotKind>)

  /** The index names a weapon, ammo is never negative, and a running routine always has its handle. */
  predicate Valid(weapons: seq<WeaponStats>, g: GunState) {
    && 0 <= g.index < |weapons|
    && g.ammo >= 0
    && (g.autoLive ==> g.handle)
  }

  /** `Shoot`'s choice of firing pattern. */
  function Pattern(w: WeaponStats): (k: ShotKind)
    ensures w.useProjectile <==> k == Projectile
    ensures !w.useProjectile ==> (k.Spread? <==> w.kind == Shotgun) && (k == Penetrating <==> w.kind == Sniper)
    ensures k.Spread? ==> k.pellets == w.pellets
  {
    if w.useProjectile then Projectile
    else match w.kind
      case Shotgun => Spread(w.pellets)
      case Sniper => Penetrating
      case _ => Raycast
  }

  /** `EquipWeapon`: select the weapon, refill to its final maximum, make the next semi shot eligible. */
  function Equip(weapons: seq<WeaponStats>, g: GunState, i: int, finalMaxAmmo: int): (r: GunState)
    requires 0 <= i < |weapons|
    ensures r.index == i && r.ammo == finalMaxAmmo && r.lastFireTime == -weapons[i].fireRate
    ensures r.reloading == g.reloading && r.holding == g.holding && r.shots == g.shots
    ensures r.handle == g.handle && r.autoLive == g.autoLive
  {
    g.(index := i, ammo := finalMaxAmmo, lastFireTime := -weapons[i].fireRate)
  }

  /** The synchronous part of `ReloadAndSwitch`: ignored when already reloading; otherwise mark it and stop the routine the handle names. */
  function StartReload(g: GunState): (r: GunState)
    ensures r.reloading
    ensures g.reloading ==> r == g
    ensures r.ammo == g.ammo && r.index == g.index && r.shots == g.shots && r.handle == g.handle
    ensures !g.reloading && g.handle ==> !r.autoLive
  {
    if g.reloading then g
    else g.(reloading := true, autoLive := if g.handle then false else g.autoLive)
  }

  /** The end of `ReloadAndSwitch`: equip the next weapon (wrapping) and clear the flag. */
  function CompleteReload(weapons: seq<WeaponStats>, g: GunState, finalMaxAmmo: int): (r: GunState)
    requires |weapons| > 0 && g.index >= 0
    ensures r.index == (g.index + 1) % |weapons| && 0 <= r.index < |weapons|
    ensures r.ammo == finalMaxAmmo && !r.reloading
  {
    Equip(weapons, g, (g.index + 1) % |weapons|, finalMaxAmmo).(reloading := false)
  }

  /** `Shoot`: one round, one shot of the weapon's pattern, and a reload when the magazine is empty. */
  function Shoot(weapons: seq<WeaponStats>, g: GunState): (r: GunState)
    requires 0 <= g.index < |weapons|
    ensures r.ammo == g.ammo - 1 && r.shots == g.shots + [Pattern(weapons[g.index])]
    ensures r.reloading <==> g.reloading || g.ammo - 1 <= 0
    ensures r.index == g.index && r.holding == g.holding && r.handle == g.handle
  {
    var fired := g.(ammo := g.ammo - 1, shots := g.shots + [Pattern(weapons[g.index])]);
    if fired.ammo <= 0 then StartReload(fired) else fired
  }

  /** `OnFire` for one input phase at time `now`. */
  function OnFire(weapons: seq<WeaponStats>, g: GunState, phase: Phase, gate: FireGate, now: real): GunState
    requires 0 <= g.index < |weapons|
  {
    var w := weapons[g.index];
    if Blocked(gate) || g.reloading then g
    else if g.ammo <= 0 then
      if phase == Started then StartReload(g) else g
    else
      match phase
      case Started =>
        var held := g.(holding := true);
        if w.isAutomatic then
          if held.handle then held
          else Shoot(weapons, held).(handle := true, autoLive := true)
        else if now >= g.lastFireTime + w.fireRate then Shoot(weapons, held).(lastFireTime := now)
        else held
      case Canceled =>
        g.(holding := false, handle := false, autoLive := if g.handle then false else g.autoLive)
      case Performed =>
        g
  }

  /** One wake-up of `AutoShootRoutine` after `fireRate`: shoot while held, loaded and not reloading; otherwise finish and clear the handle. */
  function AutoStep(weapons: seq<WeaponStats>, g: GunState): GunState
    requires 0 <= g.index < |weapons|
  {
    if g.holding && g.ammo > 0 && !g.reloading then Shoot(weapons, g)
    else g.(autoLive := false, handle := false)
  }

  // ---------------------------------------------------------------------
  // Properties of single steps
  // ---------------------------------------------------------------------

  /** Equipping makes the first semi-automatic shot eligible at any `now >= 0`. */
  lemma EquipPrimesFireRate(weapons: seq<WeaponStats>, g: GunState, i: int, finalMaxAmmo: int, now: real)
    requires 0 <= i < |weapons| && weapons[i].fireRate >= 0.0 && now >= 0.0
    ensures var r := Equip(weapons, g, i, finalMaxAmmo);
      now >= r.lastFireTime + weapons[i].fireRate && r.ammo == finalMaxAmmo
  {
  }

  /** A blocked input or one during a reload changes nothing. */
  lemma GuardsIgnoreInput(weapons: seq<WeaponStats>, g: GunState, phase: Phase, gate: FireGate, now: real)
    requires 0 <= g.index < |weapons|
    requires Blocked(gate) || g.reloading
    ensures OnFire(weapons, g, phase, gate, now) == g
  {
  }

  /** With an empty magazine a press only starts the reload, and nothing is fired. */
  lemma EmptyPressOnlyReloads(weapons: seq<WeaponStats>, g: GunState, phase: Phase, gate: FireGate, now: real)
    requires 0 <= g.index < |weapons| && !Blocked(gate) && !g.reloading && g.ammo <= 0
    ensures var r := OnFire(weapons, g, phase, gate, now);
      r.shots == g.shots && r.ammo == g.ammo && (r.reloading <==> phase == Started)
  {
  }

  /** A semi-automatic press fires iff the fire rate has elapsed, and then stamps `now`. */
  lemma SemiAutoFireRate(weapons: seq<WeaponStats>, g: GunState, gate: FireGate, now: real)
    requires 0 <= g.index < |weapons| && !weapons[g.index].isAutomatic
    requires !Blocked(gate) && !g.reloading && g.ammo > 0
    ensures var r := OnFire(weapons, g, Started, gate, now);
      && r.holding
      && (|r.shots| == |g.shots| + 1 <==> now >= g.lastFireTime + weapons[g.index].fireRate)
      && (|r.shots| == |g.shots| + 1 ==> r.lastFireTime == now && r.ammo == g.ammo - 1)
      && (|r.shots| == |g.shots| ==> r.lastFireTime == g.lastFireTime && r.ammo == g.ammo)
  {
  }

  /** The automatic routine shoots iff the trigger is held, ammo remains and no reload runs; otherwise it ends and drops its handle. */
  lemma AutoLoopCondition(weapons: seq<WeaponStats>, g: GunState)
    requires 0 <= g.index < |weapons|
    ensures var r := AutoStep(weapons, g);
      (|r.shots| == |g.shots| + 1 <==> g.holding && g.ammo > 0 && !g.reloading)
      && (!(g.holding && g.ammo > 0 && !g.reloading) ==> !r.autoLive && !r.handle && r.ammo == g.ammo)
  {
  }

  /** A second reload request while one runs is ignored; completion cycles to the next weapon and refills. */
  lemma ReloadGuardAndCycle(weapons: seq<WeaponStats>, g: GunState, finalMaxAmmo: int)
    requires Valid(weapons, g)
    ensures StartReload(StartReload(g)) == StartReload(g)
    ensures var r := CompleteReload(weapons, StartReload(g), finalMaxAmmo);
      r.index == (g.index + 1) % |weapons| && r.ammo == finalMaxAmmo && !r.reloading
      && r.shots == g.shots
  {
  }

  // ---------------------------------------------------------------------
  // Whole sessions of input, routine and reload events
  // ---------------------------------------------------------------------

  datatype GunEvent =
    | Fire(phase: Phase, gate: FireGate, now: real)
    | AutoTick                        // the automatic routine resumes (ignored when none runs)
    | ReloadDone(finalMaxAmmo: int)   // the pending reload finishes (ignored when none is pending)

  function Step(weapons: seq<WeaponStats>, g: GunState, e: GunEvent): GunState
    requires 0 <= g.index < |weapons|
  {
    match e
    case Fire(phase, gate, now) => OnFire(weapons, g, phase, gate, now)
    case AutoTick => if g.autoLive then AutoStep(weapons, g) else g
    case ReloadDone(finalMaxAmmo) => if g.reloading then CompleteReload(weapons, g, finalMaxAmmo) else g
  }

  /** Refills are never negative (a final max ammo below zero is outside what the game configures). */
  predicate SaneEvent(e: GunEvent) {
    e.ReloadDone? ==> e.finalMaxAmmo >= 0
  }

  /** Every event keeps `Valid`: ammo never drops below zero and a running routine always has its handle. */
  lemma StepKeepsValid(weapons: seq<WeaponStats>, g: GunState, e: GunEvent)
    requires Valid(weapons, g) && SaneEvent(e)
    ensures Valid(weapons, Step(weapons, g, e))
    ensures g.shots <= Step(weapons, g, e).shots && |Step(weapons, g, e).shots| <= |g.shots| + 1
  {
  }

  function Run(weapons: seq<WeaponStats>, g: GunState, events: seq<GunEvent>): GunState
    requires Valid(weapons, g) && forall k :: 0 <= k < |events| ==> SaneEvent(events[k])
    decreases |events|
  {
    if |events| == 0 then g
    else
      StepKeepsValid(weapons, g, events[0]);
      Run(weapons, Step(weapons, g, events[0]), events[1..])
  }

  /** Over any session, ammo stays non-negative and the shot log only grows, by at most one shot per event. */
  lemma {:induction false} SessionKeepsValid(weapons: seq<WeaponStats>, g: GunState, events: seq<GunEvent>)
    requires Valid(weapons, g) && forall k :: 0 <= k < |events| ==> SaneEvent(events[k])
    ensures var r := Run(weapons, g, events);
      Valid(weapons, r) && g.shots <= r.shots && |r.shots| <= |g.shots| + |events|
    decreases |events|
  {
    if |events| > 0 {
      StepKeepsValid(weapons, g, events[0]);
      var next := Step(weapons, g, events[0]);
      SessionKeepsValid(weapons, next, events[1..]);
      assert Run(weapons, g, events) == Run(weapons, next, events[1..]);
    }
  }

  /**
   * When the automatic routine fires the last round it starts the reload,
   * which stops the routine but leaves `shootCoroutine` set. A release during
   * the reload is ignored, so the first press after it fires nothing; only the
   * next release clears the handle and the press after that fires.
   */
  lemma StaleHandleSwallowsPress(weapons: seq<WeaponStats>, g: GunState, finalMaxAmmo: int, open: FireGate, t1: real, t2: real, t3: real)
    requires Valid(weapons, g) && weapons[g.index].isAutomatic && weapons[(g.index + 1) % |weapons|].isAutomatic
    requires g.autoLive && g.holding && g.ammo == 1 && !g.reloading
    requires finalMaxAmmo > 0 && !Blocked(open)
    ensures var afterLast := Step(weapons, g, AutoTick);
      var afterRelease := Step(weapons, afterLast, Fire(Canceled, open, t1));
      var reloaded := Step(weapons, afterRelease, ReloadDone(finalMaxAmmo));
      var swallowed := Step(weapons, reloaded, Fire(Started, open, t2));
      var released := Step(weapons, swallowed, Fire(Canceled, open, t2));
      var fired := Step(weapons, released, Fire(Started, open, t3));
      && afterLast.reloading && afterLast.handle && !afterLast.autoLive
      && afterRelease == afterLast
      && swallowed.shots == reloaded.shots && !swallowed.autoLive
      && |fired.shots| == |reloaded.shots| + 1 && fired.autoLive
  {
  }

  // ---------------------------------------------------------------------
  // Sniper penetration and shotgun pellets
  // ---------------------------------------------------------------------

  /** One `RaycastAll` hit as the sniper walk sees it. */
  datatype RayHit = RayHit(distance: real, isSelf: bool, isEnemy: bool, isTrigger: bool, hasZombie: bool)

  /** A solid non-enemy collider: the shot stops there. */
  predicate IsWall(h: RayHit) {
    !h.isSelf && !h.isEnemy && !h.isTrigger
  }

  /** An enemy with a zombie behaviour: the shot damages it. */
  predicate IsTarget(h: RayHit) {
    !h.isSelf && h.isEnemy && h.hasZombie
  }

  /** Which hits are damaged, and at which hit the tracer ends (`None`: full range). */
  datatype SniperResult = SniperResult(damaged: seq<nat>, end: Option<nat>)

  /** The penetration walk from hit `i` with `count` zombies already damaged. */
  function SniperWalk(hits: seq<RayHit>, maxPenetration: int, i: nat, count: int): SniperResult
    requires i <= |hits|
    decreases |hits| - i
  {
    if i == |hits| then SniperResult([], None)
    else if hits[i].isSelf then SniperWalk(hits, maxPenetration, i + 1, count)
    else if IsWall(hits[i]) then SniperResult([], Some(i))
    else if IsTarget(hits[i]) then
      if count + 1 >= maxPenetration then SniperResult([i], Some(i))
      else
        var rest := SniperWalk(hits, maxPenetration, i + 1, count + 1);
        SniperResult([i] + rest.damaged, rest.end)
    else SniperWalk(hits, maxPenetration, i + 1, count)
  }

  function Max(a: int, b: int): int {
    if a >= b then a else b
  }

  /** At most `maxPenetration` zombies are damaged (at least one can be, even when it is configured below one). */
  lemma {:induction false} SniperPenetrationBound(hits: seq<RayHit>, maxPenetration: int, i: nat, count: int)
    requires i <= |hits|
    ensures |SniperWalk(hits, maxPenetration, i, count).damaged| <= Max(1, maxPenetration - count)
    decreases |hits| - i
  {
    if i < |hits| {
      if hits[i].isSelf || (!IsWall(hits[i]) && !IsTarget(hits[i])) {
        SniperPenetrationBound(hits, maxPenetration, i + 1, count);
      } else if IsTarget(hits[i]) && count + 1 < maxPenetration {
        SniperPenetrationBound(hits, maxPenetration, i + 1, count + 1);
      }
    }
  }

  /** Short of the penetration limit, every zombie before the first wall is damaged. */
  lemma {:induction false} SniperDamagesAllBeforeWall(hits: seq<RayHit>, maxPenetration: int, i: nat, count: int, j: nat)
    requires i <= j < |hits| && IsTarget(hits[j])
    requires forall m :: i <= m < j ==> !IsWall(hits[m])
    requires count + (j - i) + 1 < maxPenetration
    ensures j in SniperWalk(hits, maxPenetration, i, count).damaged
    decreases |hits| - i
  {
    if i < j {
      if IsTarget(hits[i]) && !hits[i].isSelf {
        SniperDamagesAllBeforeWall(hits, maxPenetration, i + 1, count + 1, j);
      } else {
        SniperDamagesAllBeforeWall(hits, maxPenetration, i + 1, count, j);
      }
    }
  }

  /** Only zombies are damaged, in hit order, and none behind a wall. */
  lemma {:induction false} SniperDamagedShape(hits: seq<RayHit>, maxPenetration: int, i: nat, count: int)
    requires i <= |hits|
    ensures forall k :: 0 <= k < |SniperWalk(hits, maxPenetration, i, count).damaged| ==>
      i <= SniperWalk(hits, maxPenetration, i, count).damaged[k] < |hits|
      && IsTarget(hits[SniperWalk(hits, maxPenetration, i, count).damaged[k]])
    ensures forall k, l :: 0 <= k < l < |SniperWalk(hits, maxPenetration, i, count).damaged| ==>
      SniperWalk(hits, maxPenetration, i, count).damaged[k] < SniperWalk(hits, maxPenetration, i, count).damaged[l]
    ensures forall k, j ::
      0 <= k < |SniperWalk(hits, maxPenetration, i, count).damaged| && i <= j < |hits| && j < SniperWalk(hits, maxPenetration, i, count).damaged[k]
      ==> !IsWall(hits[j])
    decreases |hits| - i
  {
    if i < |hits| && !IsWall(hits[i]) {
      if IsTarget(hits[i]) && count + 1 < maxPenetration {
        SniperDamagedShape(hits, maxPenetration, i + 1, count + 1);
      } else if !IsTarget(hits[i]) {
        SniperDamagedShape(hits, maxPenetration, i + 1, count);
      }
    }
  }

  /** The tracer ends at the wall that stopped it or at the last zombie damaged, the one that used up the penetration. */
  lemma {:induction false} SniperEndShape(hits: seq<RayHit>, maxPenetration: int, i: nat, count: int)
    requires i <= |hits|
    ensures var r := SniperWalk(hits, maxPenetration, i, count);
      && (r.end.Some? ==> i <= r.end.value < |hits| && (IsWall(hits[r.end.value]) || IsTarget(hits[r.end.value])))
      && (r.end.Some? && IsTarget(hits[r.end.value]) ==> |r.damaged| > 0 && r.damaged[|r.damaged| - 1] == r.end.value)
    decreases |hits| - i
  {
    if i < |hits| && !IsWall(hits[i]) {
      if IsTarget(hits[i]) && count + 1 < maxPenetration {
        SniperEndShape(hits, maxPenetration, i + 1, count + 1);
      } else if !IsTarget(hits[i]) {
        SniperEndShape(hits, maxPenetration, i + 1, count);
      }
    }
  }

  /** With hits sorted by distance, zombies are damaged nearest first. */
  lemma SniperNearestFirst(hits: seq<RayHit>, maxPenetration: int)
    requires forall a, b :: 0 <= a < b < |hits| ==> hits[a].distance <= hits[b].distance
    ensures var d := SniperWalk(hits, maxPenetration, 0, 0).damaged;
      forall k, l :: 0 <= k < l < |d| ==> d[k] < d[l] < |hits| && hits[d[k]].distance <= hits[d[l]].distance
  {
    SniperDamagedShape(hits, maxPenetration, 0, 0);
  }

  /** The shotgun's pellet directions: one ray per pellet, each turned by its drawn angle. */
  function Pellets(pellets: int, angles: seq<real>): (rays: seq<real>)
    requires pellets <= |angles|
    ensures |rays| == Max(0, pellets)
    ensures forall k :: 0 <= k < |rays| ==> rays[k] == angles[k]
  {
    if pellets <= 0 then [] else angles[..pellets]
  }

  /** Angles drawn by `Random.Range(-spread/2, spread/2)` keep every pellet within half the spread. */
  lemma PelletsWithinSpread(w: WeaponStats, angles: seq<real>)
    requires w.pellets <= |angles|
    requires forall k :: 0 <= k < |angles| ==> -w.spreadAngle / 2.0 <= angles[k] <= w.spreadAngle / 2.0
    ensures var rays := Pellets(w.pellets, angles);
      |rays| == Max(0, w.pellets)
      && forall k :: 0 <= k < |rays| ==> -w.spreadAngle / 2.0 <= rays[k] <= w.spreadAngle / 2.0
  {
  }
}

/** The `GunController` MonoBehaviour. */
module GunComponent {
  import opened Wrappers
  import opened Gun

  class GunController {
    const weapons: seq<WeaponStats>
    var currentWeaponIndex: int
    var currentAmmo: int
    var isReloading: bool
    var isHoldingTrigger: bool
    var lastFireTime: real
    var shootHandle: bool
    var autoRoutineLive: bool
    var shots: seq<ShotKind>

    function Snapshot(): GunState
      reads this
    {
      GunState(currentWeaponIndex, currentAmmo, isReloading, isHoldingTrigger, lastFireTime,
               shootHandle, autoRoutineLive, shots)
    }

    /** `Start`: equip weapon 0 when at least one weapon is configured; otherwise keep the serialized defaults. */
    constructor (weapons: seq<WeaponStats>, finalMaxAmmo: int)
      ensures this.weapons == weapons
      ensures |weapons| > 0 ==>
        Snapshot() == Equip(weapons, GunState(0, 0, false, false, 0.0, false, false, []), 0, finalMaxAmmo)
      ensures |weapons| == 0 ==> Snapshot() == GunState(0, 0, false, false, 0.0, false, false, [])
    {
      this.weapons := weapons;
      currentWeaponIndex := 0;
      currentAmmo := 0;
      isReloading := false;
      isHoldingTrigger := false;
      lastFireTime := 0.0;
      shootHandle := false;
      autoRoutineLive := false;
      shots := [];
      if |weapons| > 0 {
        currentAmmo := finalMaxAmmo;
        lastFireTime := -weapons[0].fireRate;
      }
    }

    method EquipWeapon(index: int, finalMaxAmmo: int)
      requires 0 <= index < |weapons|
      modifies this
      ensures Snapshot() == Equip(weapons, old(Snapshot()), index, finalMaxAmmo)
    {
      currentWeaponIndex := index;
      currentAmmo := finalMaxAmmo;
      lastFireTime := -weapons[index].fireRate;
    }

    /** The part of `ReloadAndSwitch` that runs before its wait. */
    method ReloadAndSwitch()
      modifies this
      ensures Snapshot() == StartReload(old(Snapshot()))
    {
      if isReloading {
        return;
      }
      isReloading := true;
      if shootHandle {
        autoRoutineLive := false;
      }
    }

    /** The part of `ReloadAndSwitch` that runs after `reloadTime`. */
    method FinishReload(finalMaxAmmo: int)
      requires currentWeaponIndex >= 0 && |weapons| > 0
      modifies this
      ensures Snapshot() == CompleteReload(weapons, old(Snapshot()), finalMaxAmmo)
    {
      var nextIndex := (currentWeaponIndex + 1) % |weapons|;
      EquipWeapon(nextIndex, finalMaxAmmo);
      isReloading := false;
    }

    method Shoot()
      requires 0 <= currentWeaponIndex < |weapons|
      modifies this
      ensures Snapshot() == Gun.Shoot(weapons, old(Snapshot()))
    {
      currentAmmo := currentAmmo - 1;
      shots := shots + [Pattern(weapons[currentWeaponIndex])];
      if currentAmmo <= 0 {
        ReloadAndSwitch();
      }
    }

    method OnFire(phase: Phase, gate: FireGate, now: real)
      requires 0 <= currentWeaponIndex < |weapons|
      modifies this
      ensures Snapshot() == Gun.OnFire(weapons, old(Snapshot()), phase, gate, now)
    {
      if Blocked(gate) || isReloading {
        return;
      }
      if currentAmmo <= 0 {
        if phase == Started {
          ReloadAndSwitch();
        }
        return;
      }
      var w := weapons[currentWeaponIndex];
      if phase == Started {
        isHoldingTrigger := true;
        if w.isAutomatic {
          if !shootHandle {
            // The routine's first iteration runs inside StartCoroutine, before the handle is stored.
            Shoot();
            shootHandle := true;
            autoRoutineLive := true;
          }
        } else if now >= lastFireTime + w.fireRate {
          Shoot();
          lastFireTime := now;
        }
      } else if phase == Canceled {
        isHoldingTrigger := false;
        if shootHandle {
          autoRoutineLive := false;
          shootHandle := false;
        }
      }
    }

    /** `AutoShootRoutine` resuming after `fireRate`. */
    method AutoShootStep()
      requires 0 <= currentWeaponIndex < |weapons|
      modifies this
      ensures Snapshot() == AutoStep(weapons, old(Snapshot()))
    {
      if isHoldingTrigger && currentAmmo > 0 && !isReloading {
        Shoot();
      } else {
        autoRoutineLive := false;
        shootHandle := false;
      }
    }

    /** `FireSniper`'s walk over the hits of `RaycastAll`, already sorted by distance. */
    method FireSniper(hits: seq<RayHit>) returns (damaged: seq<nat>, end: Option<nat>)
      requires 0 <= currentWeaponIndex < |weapons|
      ensures SniperResult(damaged, end) == SniperWalk(hits, weapons[currentWeaponIndex].maxPenetration, 0, 0)
    {
      var maxPenetration := weapons[currentWeaponIndex].maxPenetration;
      var hitCount := 0;
      damaged := [];
      end := None;
      var i := 0;
      while i < |hits|
        invariant 0 <= i <= |hits| && hitCount == |damaged|
        invariant end.None?
        invariant hitCount < maxPenetration || hitCount == 0
        invariant SniperWalk(hits, maxPenetration, 0, 0) ==
          var rest := SniperWalk(hits, maxPenetration, i, hitCount);
          SniperResult(damaged + rest.damaged, rest.end)
      {
        var hit := hits[i];
        if hit.isSelf {
          i := i + 1;
          continue;
        }
        if !hit.isEnemy && !hit.isTrigger {
          end := Some(i);
          break;
        }
        if hit.isEnemy && hit.hasZombie {
          damaged := damaged + [i];
          hitCount := hitCount + 1;
          if hitCount >= maxPenetration {
            end := Some(i);
            break;
          }
        }
        i := i + 1;
      }
    }

    /** `FireShotgun`: one raycast per pellet, each turned by its drawn angle. */
    method FireShotgun(angles: seq<real>) returns (rays: seq<real>)
      requires 0 <= currentWeaponIndex < |weapons| && weapons[currentWeaponIndex].pellets <= |angles|
      ensures rays == Pellets(weapons[currentWeaponIndex].pellets, angles)
    {
      var pellets := weapons[currentWeaponIndex].pellets;
      rays := [];
      var i := 0;
      while i < pellets
        invariant 0 <= i && (pellets <= 0 ==> i == 0) && (pellets > 0 ==> i <= pellets)
        invariant rays == angles[..i]
      {
        rays := rays + [angles[i]];
        i := i + 1;
      }
    }
  }
}
