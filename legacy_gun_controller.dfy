/**
 * The older copy of the weapon controller (`Assets/Scripts/GunController.cs`):
 * the same ammo, reload and weapon-rotation machine, but with no pause, menu
 * or UI guard, no fire-rate gate on semi-automatic presses, no ammo
 * multiplier, and only projectile or single-ray shots.
 */
module LegacyGun {
  import Gun

  /** The gameplay fields of the older `WeaponStats`. */
  datatype WeaponStats = WeaponStats(maxAmmo: int, fireRate: real, isAutomatic: bool, useProjectile: bool)

  datatype ShotKind = Projectile | Raycast

  /** The controller's state; `handle` is `shootCoroutine != null`, `autoLive` says the routine still runs. */
  datatype GunState = GunState(
    index: int,
    ammo: int,
    reloading: bool,
    holding: bool,
    handle: bool,
    autoLive: bool,
    shots: seq<ShotKind>)

  predicate Valid(weapons: seq<WeaponStats>, g: GunState) {
    && 0 <= g.index < |weapons|
    && g.ammo >= 0
    && (g.autoLive ==> g.handle)
  }

  /** `EquipWeapon`: select the weapon and refill to its own `maxAmmo`. */
  function Equip(weapons: seq<WeaponStats>, g: GunState, i: int): (r: GunState)
    requires 0 <= i < |weapons|
    ensures r.index == i && r.ammo == weapons[i].maxAmmo
    ensures r.reloading == g.reloading && r.holding == g.holding && r.shots == g.shots
    ensures r.handle == g.handle && r.autoLive == g.autoLive
  {
    g.(index := i, ammo := weapons[i].maxAmmo)
  }

  /** The synchronous part of `ReloadAndSwitch`. */
  function StartReload(g: GunState): (r: GunState)
    ensures r.reloading
    ensures g.reloading ==> r == g
    ensures r.ammo == g.ammo && r.index == g.index && r.shots == g.shots && r.handle == g.handle
    ensures !g.reloading && g.handle ==> !r.autoLive
  {
    if g.reloading then g
    else g.(reloading := true, autoLive := if g.handle then false else g.autoLive)
  }

  /** The end of `ReloadAndSwitch`: the next weapon, full, not reloading. */
  function CompleteReload(weapons: seq<WeaponStats>, g: GunState): (r: GunState)
    requires |weapons| > 0 && g.index >= 0
    ensures r.index == (g.index + 1) % |weapons| && r.ammo == weapons[r.index].maxAmmo && !r.reloading
  {
    Equip(weapons, g, (g.index + 1) % |weapons|).(reloading := false)
  }

  function Shoot(weapons: seq<WeaponStats>, g: GunState): (r: GunState)
    requires 0 <= g.index < |weapons|
    ensures r.ammo == g.ammo - 1
    ensures r.shots == g.shots + [if weapons[g.index].useProjectile then Projectile else Raycast]
    ensures r.reloading <==> g.reloading || g.ammo - 1 <= 0
    ensures r.index == g.index && r.holding == g.holding && r.handle == g.handle
  {
    var fired := g.(ammo := g.ammo - 1,
                    shots := g.shots + [if weapons[g.index].useProjectile then Projectile else Raycast]);
    if fired.ammo <= 0 then StartReload(fired) else fired
  }

  /** `OnFire`: only the gun and reload guards; a semi-automatic press always shoots. */
  function OnFire(weapons: seq<WeaponStats>, g: GunState, phase: Gun.Phase, hasGun: bool): GunState
    requires 0 <= g.index < |weapons|
  {
    if !hasGun || g.reloading then g
    else if g.ammo <= 0 then
      if phase == Gun.Started then StartReload(g) else g
    else
      match phase
      case Started =>
        var held := g.(holding := true);
        if weapons[g.index].isAutomatic then
          if held.handle then held
          else Shoot(weapons, held).(handle := true, autoLive := true)
        else Shoot(weapons, held)
      case Canceled =>
        g.(holding := false, handle := false, autoLive := if g.handle then false else g.autoLive)
      case Performed =>
        g
  }

  /** One wake-up of `AutoShootRoutine`. */
  function AutoStep(weapons: seq<WeaponStats>, g: GunState): GunState
    requires 0 <= g.index < |weapons|
  {
    if g.holding && g.ammo > 0 && !g.reloading then Shoot(weapons, g)
    else g.(autoLive := false, handle := false)
  }

  /** Without a gun or during a reload, input changes nothing; with an empty magazine a press only reloads. */
  lemma GuardsAndEmptyMagazine(weapons: seq<WeaponStats>, g: GunState, phase: Gun.Phase, hasGun: bool)
    requires 0 <= g.index < |weapons|
    ensures !hasGun || g.reloading ==> OnFire(weapons, g, phase, hasGun) == g
    ensures hasGun && !g.reloading && g.ammo <= 0 ==>
      var r := OnFire(weapons, g, phase, hasGun);
      r.shots == g.shots && r.ammo == g.ammo && (r.reloading <==> phase == Gun.Started)
  {
  }

  /** A semi-automatic press with ammo always fires, so two presses in the same instant fire twice. */
  lemma SemiPressHasNoFireRate(weapons: seq<WeaponStats>, g: GunState)
    requires Valid(weapons, g) && !weapons[g.index].isAutomatic && g.ammo >= 2 && !g.reloading
    ensures var once := OnFire(weapons, g, Gun.Started, true);
      var twice := OnFire(weapons, once, Gun.Started, true);
      |once.shots| == |g.shots| + 1 && |twice.shots| == |g.shots| + 2 && twice.ammo == g.ammo - 2
  {
  }

  /** The automatic routine shoots iff the trigger is held, ammo remains and no reload runs. */
  lemma AutoLoopCondition(weapons: seq<WeaponStats>, g: GunState)
    requires 0 <= g.index < |weapons|
    ensures var r := AutoStep(weapons, g);
      (|r.shots| == |g.shots| + 1 <==> g.holding && g.ammo > 0 && !g.reloading)
      && (!(g.holding && g.ammo > 0 && !g.reloading) ==> !r.autoLive && !r.handle && r.ammo == g.ammo)
  {
  }

  /** The reload guard makes a second request a no-op; completion cycles weapons and refills to `maxAmmo`. */
  lemma ReloadGuardAndCycle(weapons: seq<WeaponStats>, g: GunState)
    requires Valid(weapons, g)
    ensures StartReload(StartReload(g)) == StartReload(g)
    ensures var r := CompleteReload(weapons, StartReload(g));
      r.index == (g.index + 1) % |weapons| && r.ammo == weapons[r.index].maxAmmo && !r.reloading
  {
  }

  datatype GunEvent = Fire(phase: Gun.Phase, hasGun: bool) | AutoTick | ReloadDone

  function Step(weapons: seq<WeaponStats>, g: GunState, e: GunEvent): GunState
    requires 0 <= g.index < |weapons|
  {
    match e
    case Fire(phase, hasGun) => OnFire(weapons, g, phase, hasGun)
    case AutoTick => if g.autoLive then AutoStep(weapons, g) else g
    case ReloadDone => if g.reloading then CompleteReload(weapons, g) else g
  }

  /** Weapons configured with a non-negative magazine. */
  predicate SaneWeapons(weapons: seq<WeaponStats>) {
    forall k :: 0 <= k < |weapons| ==> weapons[k].maxAmmo >= 0
  }

  function Run(weapons: seq<WeaponStats>, g: GunState, events: seq<GunEvent>): GunState
    requires Valid(weapons, g) && SaneWeapons(weapons)
    decreases |events|
  {
    if |events| == 0 then g
    else
      var next := Step(weapons, g, events[0]);
      assert Valid(weapons, next);
      Run(weapons, next, events[1..])
  }

  /** Over any session ammo stays non-negative and the shot log only grows, by at most one per event. */
  lemma {:induction false} SessionKeepsValid(weapons: seq<WeaponStats>, g: GunState, events: seq<GunEvent>)
    requires Valid(weapons, g) && SaneWeapons(weapons)
    ensures var r := Run(weapons, g, events);
      Valid(weapons, r) && g.shots <= r.shots && |r.shots| <= |g.shots| + |events|
    decreases |events|
  {
    if |events| > 0 {
      var next := Step(weapons, g, events[0]);
      assert g.shots <= next.shots && |next.shots| <= |g.shots| + 1;
      SessionKeepsValid(weapons, next, events[1..]);
    }
  }
}

/** The older `GunController` MonoBehaviour. */
module LegacyGunComponent {
  import Gun
  import opened LegacyGun

  class GunController {
    const weapons: seq<WeaponStats>
    var currentWeaponIndex: int
    var currentAmmo: int
    var isReloading: bool
    var isHoldingTrigger: bool
    var shootHandle: bool
    var autoRoutineLive: bool
    var shots: seq<ShotKind>

    function Snapshot(): GunState
      reads this
    {
      GunState(currentWeaponIndex, currentAmmo, isReloading, isHoldingTrigger, shootHandle, autoRoutineLive, shots)
    }

    /** `Start`: equip weapon 0 when at least one weapon is configured; otherwise keep the serialized defaults. */
    constructor (weapons: seq<WeaponStats>)
      ensures this.weapons == weapons
      ensures |weapons| > 0 ==> Snapshot() == Equip(weapons, GunState(0, 0, false, false, false, false, []), 0)
      ensures |weapons| == 0 ==> Snapshot() == GunState(0, 0, false, false, false, false, [])
    {
      this.weapons := weapons;
      currentWeaponIndex := 0;
      currentAmmo := if |weapons| > 0 then weapons[0].maxAmmo else 0;
      isReloading := false;
      isHoldingTrigger := false;
      shootHandle := false;
      autoRoutineLive := false;
      shots := [];
    }

    method EquipWeapon(index: int)
      requires 0 <= index < |weapons|
      modifies this
      ensures Snapshot() == Equip(weapons, old(Snapshot()), index)
    {
      currentWeaponIndex := index;
      currentAmmo := weapons[index].maxAmmo;
    }

    method ReloadAndSwitch()
      modifies this
      ensures Snapshot() == StartReload(old(Snapshot()))
    {
      if isReloading {
        return;
      }
      isReloading := true;
      if shootHandle {
        autoRoutineLive := false;
      }
    }

    method FinishReload()
      requires currentWeaponIndex >= 0 && |weapons| > 0
      modifies this
      ensures Snapshot() == CompleteReload(weapons, old(Snapshot()))
    {
      EquipWeapon((currentWeaponIndex + 1) % |weapons|);
      isReloading := false;
    }

    method Shoot()
      requires 0 <= currentWeaponIndex < |weapons|
      modifies this
      ensures Snapshot() == LegacyGun.Shoot(weapons, old(Snapshot()))
    {
      currentAmmo := currentAmmo - 1;
      shots := shots + [if weapons[currentWeaponIndex].useProjectile then Projectile else Raycast];
      if currentAmmo <= 0 {
        ReloadAndSwitch();
      }
    }

    method OnFire(phase: Gun.Phase, hasGun: bool)
      requires 0 <= currentWeaponIndex < |weapons|
      modifies this
      ensures Snapshot() == LegacyGun.OnFire(weapons, old(Snapshot()), phase, hasGun)
    {
      if !hasGun || isReloading {
        return;
      }
      if currentAmmo <= 0 {
        if phase == Gun.Started {
          ReloadAndSwitch();
        }
        return;
      }
      if phase == Gun.Started {
        isHoldingTrigger := true;
        if weapons[currentWeaponIndex].isAutomatic {
          if !shootHandle {
            Shoot();
            shootHandle := true;
            autoRoutineLive := true;
          }
        } else {
          Shoot();
        }
      } else if phase == Gun.Canceled {
        isHoldingTrigger := false;
        if shootHandle {
          autoRoutineLive := false;
          shootHandle := false;
        }
      }
    }

    method AutoShootStep()
      requires 0 <= currentWeaponIndex < |weapons|
      modifies this
      ensures Snapshot() == AutoStep(weapons, old(Snapshot()))
    {
      if isHoldingTrigger && currentAmmo > 0 && !isReloading {
        Shoot();
      } else {
        autoRoutineLive := false;
        shootHandle := false;
      }
    }
  }
}
