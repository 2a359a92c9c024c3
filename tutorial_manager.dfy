/**
 * The tutorial's step machine: moving (0), finding the gun (1), fighting two
 * zombies (2), collecting samples (3), upgrading (4), escaping (5), reaching
 * the generator room (6) and finishing (7). Each handler advances only from
 * its own step, except the gun pickup, which jumps any earlier step to 2.
 * Every message shown is recorded as the current key so that a language
 * change can show it again.
 *
 * `uiReady` says that both the UI manager and the language manager exist;
 * only then is a message displayed. `shown` lists the keys displayed.
 */
module Tutorial {
  import opened Wrappers

  const MSG_MOVE: string := "TUTORIAL_MOVE"
  const MSG_GET_GUN: string := "TUTORIAL_GunPickup"
  const MSG_COMBAT: string := "TUTORIAL_GunShoot"
  const MSG_LOOT: string := "TUTORIAL_Sample"
  const MSG_UPGRADE: string := "TUTORIAL_Tap"
  const MSG_ESCAPE: string := "TUTORIAL_FinUpgrade"
  const MSG_GENERATOR: string := "TUTORIAL_Generator"
  const MSG_FINAL_GOAL: string := "TUTORIAL_Fin"

  /** Zombies to kill in step 2. */
  const TOTAL_ZOMBIES: int := 2
  /** Samples needed in step 3. */
  const CAPSULES_NEEDED: int := 2
  /** The only floor on which the tutorial runs. */
  const TUTORIAL_FLOOR: int := -9
  const FINAL_STEP: int := 7

  /** What `Start` reads from the game manager. */
  datatype ManagerInfo = ManagerInfo(currentFloor: int, isRetry: bool)

  /**
   * The manager's fields: the step, the kill count, the current message key,
   * whether the component is enabled, the scene objects it switches, and the
   * keys displayed so far.
   */
  datatype TutorialState = TutorialState(
    step: int,
    kills: int,
    messageKey: string,
    enabled: bool,
    gunItemVisible: bool,
    zombiesVisible: bool,
    exitDoorOpen: bool,
    textHidden: bool,
    shown: seq<string>)

  /** The message each step shows on entry. */
  function StepMessage(step: int): string {
    match step
    case 0 => MSG_MOVE
    case 1 => MSG_GET_GUN
    case 2 => MSG_COMBAT
    case 3 => MSG_LOOT
    case 4 => MSG_UPGRADE
    case 5 => MSG_ESCAPE
    case 6 => MSG_GENERATOR
    case _ => MSG_FINAL_GOAL
  }

  /** `UpdateText`: always remember the key; display it only when the UI and languages exist. */
  function UpdateText(t: TutorialState, key: string, uiReady: bool): (r: TutorialState)
    ensures r.messageKey == key
    ensures r.shown == if uiReady then t.shown + [key] else t.shown
    ensures r.step == t.step && r.kills == t.kills && r.enabled == t.enabled
  {
    t.(messageKey := key, shown := if uiReady then t.shown + [key] else t.shown)
  }

  /**
   * `Start`: off a retry or off the tutorial floor the component switches itself off,
   * hiding the tutorial text whenever a UI manager exists (`uiPresent`); otherwise step 0
   * with the move message, displayed only when the language manager exists as well.
   */
  function Start(t: TutorialState, manager: Option<ManagerInfo>, uiPresent: bool, languagePresent: bool): (r: TutorialState)
    ensures manager.Some? && (manager.value.isRetry || manager.value.currentFloor != TUTORIAL_FLOOR) ==>
      !r.enabled && r.step == t.step && r.messageKey == t.messageKey && r.shown == t.shown
    ensures manager.Some? && (manager.value.isRetry || manager.value.currentFloor != TUTORIAL_FLOOR) ==>
      (r.textHidden <==> uiPresent || t.textHidden)
    ensures !(manager.Some? && (manager.value.isRetry || manager.value.currentFloor != TUTORIAL_FLOOR)) ==>
      r.step == 0 && r.messageKey == MSG_MOVE && !r.gunItemVisible && !r.zombiesVisible && r.enabled == t.enabled
    ensures !(manager.Some? && (manager.value.isRetry || manager.value.currentFloor != TUTORIAL_FLOOR)) ==>
      r.textHidden == t.textHidden
      && r.shown == if uiPresent && languagePresent then t.shown + [MSG_MOVE] else t.shown
  {
    if manager.Some? && (manager.value.isRetry || manager.value.currentFloor != TUTORIAL_FLOOR) then
      t.(textHidden := if uiPresent then true else t.textHidden, enabled := false)
    else
      UpdateText(t.(step := 0, zombiesVisible := false, gunItemVisible := false), MSG_MOVE, uiPresent && languagePresent)
  }

  function OnPlayerEnterCorridor(t: TutorialState, uiReady: bool): TutorialState {
    if t.step == 0 then UpdateText(t.(step := 1, gunItemVisible := true), MSG_GET_GUN, uiReady) else t
  }

  function OnGunPickedUp(t: TutorialState, uiReady: bool): TutorialState {
    if t.step < 2 then UpdateText(t.(step := 2, zombiesVisible := true), MSG_COMBAT, uiReady) else t
  }

  function OnZombieKilled(t: TutorialState, uiReady: bool): TutorialState {
    if t.step == 2 then
      var counted := t.(kills := t.kills + 1);
      if counted.kills >= TOTAL_ZOMBIES then UpdateText(counted.(step := 3), MSG_LOOT, uiReady) else counted
    else t
  }

  function CheckCapsuleCount(t: TutorialState, currentCount: int, uiReady: bool): TutorialState {
    if t.step == 3 && currentCount >= CAPSULES_NEEDED then UpdateText(t.(step := 4), MSG_UPGRADE, uiReady) else t
  }

  function OnUpgradeCompleted(t: TutorialState, uiReady: bool): TutorialState {
    if t.step == 4 then UpdateText(t.(step := 5, exitDoorOpen := true), MSG_ESCAPE, uiReady) else t
  }

  function OnPlayerEnterGeneratorRoom(t: TutorialState, uiReady: bool): TutorialState {
    if t.step == 5 then UpdateText(t.(step := 6), MSG_GENERATOR, uiReady) else t
  }

  function OnTutorialGeneratorActivated(t: TutorialState, uiReady: bool): TutorialState {
    if t.step == 6 then UpdateText(t.(step := 7), MSG_FINAL_GOAL, uiReady) else t
  }

  function ShowFinalGoalMessage(t: TutorialState, uiReady: bool): (r: TutorialState)
    ensures r.messageKey == MSG_FINAL_GOAL && r.step == t.step && r.kills == t.kills
    ensures r.shown == if uiReady then t.shown + [MSG_FINAL_GOAL] else t.shown
  {
    UpdateText(t, MSG_FINAL_GOAL, uiReady)
  }

  /** `RefreshCurrentMessage`: show the current key again iff there is one. */
  function RefreshCurrentMessage(t: TutorialState, uiReady: bool): TutorialState {
    if |t.messageKey| > 0 then UpdateText(t, t.messageKey, uiReady) else t
  }

  // ---------------------------------------------------------------------
  // Properties of the handlers
  // ---------------------------------------------------------------------

  /** The corridor moves only 0 to 1; the gun pickup moves any step below 2 to 2 and leaves the others alone. */
  lemma CorridorAndPickup(t: TutorialState, uiReady: bool)
    ensures OnPlayerEnterCorridor(t, uiReady).step == if t.step == 0 then 1 else t.step
    ensures t.step != 0 ==> OnPlayerEnterCorridor(t, uiReady) == t
    ensures OnGunPickedUp(t, uiReady).step == if t.step < 2 then 2 else t.step
    ensures t.step >= 2 ==> OnGunPickedUp(t, uiReady) == t
  {
  }

  /** Kills count only in step 2, and step 3 starts as soon as two are counted. */
  lemma KillsCountOnlyInCombat(t: TutorialState, uiReady: bool)
    ensures t.step != 2 ==> OnZombieKilled(t, uiReady) == t
    ensures t.step == 2 ==>
      var r := OnZombieKilled(t, uiReady);
      r.kills == t.kills + 1 && (r.step == 3 <==> t.kills + 1 >= TOTAL_ZOMBIES) && (r.step == 2 || r.step == 3)
  {
  }

  /** Each later transition fires only from its exact predecessor step (3 to 4 also needs two capsules). */
  lemma LaterStepsNeedPredecessor(t: TutorialState, count: int, uiReady: bool)
    ensures CheckCapsuleCount(t, count, uiReady).step == if t.step == 3 && count >= 2 then 4 else t.step
    ensures OnUpgradeCompleted(t, uiReady).step == if t.step == 4 then 5 else t.step
    ensures OnPlayerEnterGeneratorRoom(t, uiReady).step == if t.step == 5 then 6 else t.step
    ensures OnTutorialGeneratorActivated(t, uiReady).step == if t.step == 6 then 7 else t.step
    ensures OnUpgradeCompleted(t, uiReady).exitDoorOpen <==> t.exitDoorOpen || t.step == 4
  {
  }

  /** The current key is remembered even without UI, and a refresh re-shows it iff it is non-empty. */
  lemma RefreshShowsCurrentKey(t: TutorialState, uiReady: bool)
    ensures var r := RefreshCurrentMessage(t, uiReady);
      r.messageKey == t.messageKey && r.step == t.step
      && (r.shown == if |t.messageKey| > 0 && uiReady then t.shown + [t.messageKey] else t.shown)
  {
  }

  // ---------------------------------------------------------------------
  // Any sequence of handler calls
  // ---------------------------------------------------------------------

  datatype TutorialEvent =
    | EnterCorridor
    | GunPickedUp
    | ZombieKilled
    | CapsuleCount(count: int)
    | UpgradeCompleted
    | EnterGeneratorRoom
    | GeneratorActivated
    | FinalGoal
    | Refresh

  function Step(t: TutorialState, e: TutorialEvent, uiReady: bool): TutorialState {
    match e
    case EnterCorridor => OnPlayerEnterCorridor(t, uiReady)
    case GunPickedUp => OnGunPickedUp(t, uiReady)
    case ZombieKilled => OnZombieKilled(t, uiReady)
    case CapsuleCount(count) => CheckCapsuleCount(t, count, uiReady)
    case UpgradeCompleted => OnUpgradeCompleted(t, uiReady)
    case EnterGeneratorRoom => OnPlayerEnterGeneratorRoom(t, uiReady)
    case GeneratorActivated => OnTutorialGeneratorActivated(t, uiReady)
    case FinalGoal => ShowFinalGoalMessage(t, uiReady)
    case Refresh => RefreshCurrentMessage(t, uiReady)
  }

  function Run(t: TutorialState, events: seq<TutorialEvent>, uiReady: bool): TutorialState
    decreases |events|
  {
    if |events| == 0 then t else Run(Step(t, events[0], uiReady), events[1..], uiReady)
  }

  /**
   * The progress invariant: the step is within 0..7, kills are counted only
   * from step 2 on and step 3 is reached only with two kills, and the key is
   * the current step's message or the final-goal message.
   */
  ghost predicate Progress(t: TutorialState) {
    && 0 <= t.step <= FINAL_STEP
    && t.kills >= 0
    && (t.step < 2 ==> t.kills == 0)
    && (t.step >= 3 ==> t.kills >= TOTAL_ZOMBIES)
    && (t.messageKey == StepMessage(t.step) || t.messageKey == MSG_FINAL_GOAL)
  }

  lemma StartEstablishesProgress(t: TutorialState, manager: Option<ManagerInfo>, uiPresent: bool, languagePresent: bool)
    requires t.kills == 0
    requires !(manager.Some? && (manager.value.isRetry || manager.value.currentFloor != TUTORIAL_FLOOR))
    ensures Progress(Start(t, manager, uiPresent, languagePresent))
  {
  }

  /** One handler keeps the invariant and never lowers the step. */
  lemma StepKeepsProgress(t: TutorialState, e: TutorialEvent, uiReady: bool)
    requires Progress(t)
    ensures Progress(Step(t, e, uiReady)) && Step(t, e, uiReady).step >= t.step
    ensures Step(t, e, uiReady).step <= t.step + 2
  {
  }

  /** Across any sequence of handler calls the step never decreases and stays within 0..7. */
  lemma {:induction false} StepsNeverDecrease(t: TutorialState, events: seq<TutorialEvent>, uiReady: bool)
    requires Progress(t)
    ensures Progress(Run(t, events, uiReady))
    ensures t.step <= Run(t, events, uiReady).step <= FINAL_STEP
    decreases |events|
  {
    if |events| > 0 {
      StepKeepsProgress(t, events[0], uiReady);
      StepsNeverDecrease(Step(t, events[0], uiReady), events[1..], uiReady);
    }
  }
}

/** The `TutorialManager` MonoBehaviour. */
module TutorialComponent {
  import opened Wrappers
  import opened Tutorial

  class TutorialManager {
    var currentStep: int
    var zombiesKilled: int
    var currentMessageKey: string
    var enabled: bool
    var gunItemVisible: bool
    var zombiesVisible: bool
    var exitDoorOpen: bool
    var textHidden: bool
    var shown: seq<string>

    function Snapshot(): TutorialState
      reads this
    {
      TutorialState(currentStep, zombiesKilled, currentMessageKey, enabled, gunItemVisible, zombiesVisible,
                    exitDoorOpen, textHidden, shown)
    }

    /** The serialized defaults: step 0, no kills, empty key, scene objects as placed. */
    constructor ()
      ensures Snapshot() == TutorialState(0, 0, "", true, true, true, false, false, [])
    {
      currentStep := 0;
      zombiesKilled := 0;
      currentMessageKey := "";
      enabled := true;
      gunItemVisible := true;
      zombiesVisible := true;
      exitDoorOpen := false;
      textHidden := false;
      shown := [];
    }

    method UpdateText(key: string, uiReady: bool)
      modifies this
      ensures Snapshot() == Tutorial.UpdateText(old(Snapshot()), key, uiReady)
    {
      currentMessageKey := key;
      if uiReady {
        shown := shown + [key];
      }
    }

    method Start(manager: Option<ManagerInfo>, uiPresent: bool, languagePresent: bool)
      modifies this
      ensures Snapshot() == Tutorial.Start(old(Snapshot()), manager, uiPresent, languagePresent)
    {
      if manager.Some? && (manager.value.isRetry || manager.value.currentFloor != TUTORIAL_FLOOR) {
        if uiPresent {
          textHidden := true;
        }
        enabled := false;
        return;
      }
      currentStep := 0;
      zombiesVisible := false;
      gunItemVisible := false;
      UpdateText(MSG_MOVE, uiPresent && languagePresent);
    }

    method OnPlayerEnterCorridor(uiReady: bool)
      modifies this
      ensures Snapshot() == Tutorial.OnPlayerEnterCorridor(old(Snapshot()), uiReady)
    {
      if currentStep == 0 {
        currentStep := 1;
        UpdateText(MSG_GET_GUN, uiReady);
        gunItemVisible := true;
      }
    }

    method OnGunPickedUp(uiReady: bool)
      modifies this
      ensures Snapshot() == Tutorial.OnGunPickedUp(old(Snapshot()), uiReady)
    {
      if currentStep < 2 {
        currentStep := 2;
        UpdateText(MSG_COMBAT, uiReady);
        zombiesVisible := true;
      }
    }

    method OnZombieKilled(uiReady: bool)
      modifies this
      ensures Snapshot() == Tutorial.OnZombieKilled(old(Snapshot()), uiReady)
    {
      if currentStep == 2 {
        zombiesKilled := zombiesKilled + 1;
        if zombiesKilled >= TOTAL_ZOMBIES {
          currentStep := 3;
          UpdateText(MSG_LOOT, uiReady);
        }
      }
    }

    method CheckCapsuleCount(currentCount: int, uiReady: bool)
      modifies this
      ensures Snapshot() == Tutorial.CheckCapsuleCount(old(Snapshot()), currentCount, uiReady)
    {
      if currentStep == 3 && currentCount >= CAPSULES_NEEDED {
        currentStep := 4;
        UpdateText(MSG_UPGRADE, uiReady);
      }
    }

    method OnUpgradeCompleted(uiReady: bool)
      modifies this
      ensures Snapshot() == Tutorial.OnUpgradeCompleted(old(Snapshot()), uiReady)
    {
      if currentStep == 4 {
        currentStep := 5;
        UpdateText(MSG_ESCAPE, uiReady);
        exitDoorOpen := true;
      }
    }

    method OnPlayerEnterGeneratorRoom(uiReady: bool)
      modifies this
      ensures Snapshot() == Tutorial.OnPlayerEnterGeneratorRoom(old(Snapshot()), uiReady)
    {
      if currentStep == 5 {
        currentStep := 6;
        UpdateText(MSG_GENERATOR, uiReady);
      }
    }

    method OnTutorialGeneratorActivated(uiReady: bool)
      modifies this
      ensures Snapshot() == Tutorial.OnTutorialGeneratorActivated(old(Snapshot()), uiReady)
    {
      if currentStep == 6 {
        currentStep := 7;
        UpdateText(MSG_FINAL_GOAL, uiReady);
      }
    }

    method ShowFinalGoalMessage(uiReady: bool)
      modifies this
      ensures Snapshot() == Tutorial.ShowFinalGoalMessage(old(Snapshot()), uiReady)
    {
      UpdateText(MSG_FINAL_GOAL, uiReady);
    }

    method RefreshCurrentMessage(uiReady: bool)
      modifies this
      ensures Snapshot() == Tutorial.RefreshCurrentMessage(old(Snapshot()), uiReady)
    {
      if |currentMessageKey| > 0 {
        UpdateText(currentMessageKey, uiReady);
      }
    }
  }
}
