/**
 * The hold-to-activate generator: while the player stands in its trigger and
 * holds the interact key, the hold time grows by the frame time; reaching
 * `holdDuration` activates it once, and only a non-tutorial generator tells
 * the game manager. Releasing the key or leaving the trigger resets the hold.
 *
 * The key state, `Time.deltaTime` and the presence of the game manager and of
 * the sound manager are inputs. The activation sound is played without a null
 * check, so without a sound manager the frame that should activate ends in an
 * exception after the hold time was raised, and nothing is activated.
 */
module Generators {

  datatype GeneratorConfig = GeneratorConfig(holdDuration: real, isTutorialGenerator: bool)

  /** The generator's fields; `notices` counts `OnGeneratorActivated` calls on the game manager. */
  datatype GeneratorState = GeneratorState(
    isActivated: bool,
    playerInRange: bool,
    currentHoldTime: real,
    effectOn: bool,
    notices: nat)

  /** `Activate`: idempotent; sets the flag, clears the hold, notifies the game manager for non-tutorial generators. */
  function Activate(cfg: GeneratorConfig, g: GeneratorState, managerPresent: bool): (r: GeneratorState)
    ensures r.isActivated && r.effectOn == (g.effectOn || !g.isActivated)
    ensures g.isActivated ==> r == g
    ensures !g.isActivated ==> r.currentHoldTime == 0.0
    ensures r.notices == if !g.isActivated && !cfg.isTutorialGenerator && managerPresent then g.notices + 1 else g.notices
  {
    if g.isActivated then g
    else
      g.(isActivated := true, currentHoldTime := 0.0, effectOn := true,
         notices := if !cfg.isTutorialGenerator && managerPresent then g.notices + 1 else g.notices)
  }

  /** One frame of `Update`. */
  function Update(cfg: GeneratorConfig, g: GeneratorState, holding: bool, dt: real,
                  managerPresent: bool, soundPresent: bool): GeneratorState
  {
    if g.isActivated || !g.playerInRange then g
    else if holding then
      var held := g.(currentHoldTime := g.currentHoldTime + dt);
      if held.currentHoldTime >= cfg.holdDuration then
        if soundPresent then Activate(cfg, held, managerPresent) else held
      else held
    else if g.currentHoldTime > 0.0 then g.(currentHoldTime := 0.0)
    else g
  }

  function OnTriggerEnter(g: GeneratorState, isPlayer: bool): (r: GeneratorState)
    ensures r.playerInRange <==> g.playerInRange || (isPlayer && !g.isActivated)
    ensures r.(playerInRange := g.playerInRange) == g
  {
    if isPlayer && !g.isActivated then g.(playerInRange := true) else g
  }

  function OnTriggerExit(g: GeneratorState, isPlayer: bool): (r: GeneratorState)
    ensures isPlayer ==> !r.playerInRange && r.currentHoldTime == 0.0
    ensures !isPlayer ==> r == g
    ensures r.isActivated == g.isActivated && r.notices == g.notices
  {
    if isPlayer then g.(playerInRange := false, currentHoldTime := 0.0) else g
  }

  /** Once activated, frames change nothing. */
  lemma ActivatedIgnoresFrames(cfg: GeneratorConfig, g: GeneratorState, holding: bool, dt: real, m: bool, s: bool)
    requires g.isActivated
    ensures Update(cfg, g, holding, dt, m, s) == g
  {
  }

  /** In range and holding, the hold grows by `dt`, and activation happens iff it reaches the duration (and the sound manager exists). */
  lemma HoldAccumulates(cfg: GeneratorConfig, g: GeneratorState, dt: real, m: bool, s: bool)
    requires !g.isActivated && g.playerInRange
    ensures var r := Update(cfg, g, true, dt, m, s);
      (r.isActivated <==> s && g.currentHoldTime + dt >= cfg.holdDuration)
      && (!r.isActivated ==> r.currentHoldTime == g.currentHoldTime + dt)
      && (r.isActivated ==> r.currentHoldTime == 0.0)
  {
  }

  /** Releasing the key in range resets the hold to zero. */
  lemma ReleaseResets(cfg: GeneratorConfig, g: GeneratorState, dt: real, m: bool, s: bool)
    requires !g.isActivated && g.playerInRange && g.currentHoldTime >= 0.0
    ensures Update(cfg, g, false, dt, m, s).currentHoldTime == 0.0
    ensures Update(cfg, g, false, dt, m, s).isActivated == false
  {
  }

  /** A tutorial generator never notifies the game manager; a real one does exactly when it activates with a manager present. */
  lemma TutorialNeverNotifies(cfg: GeneratorConfig, g: GeneratorState, managerPresent: bool)
    ensures Activate(cfg, Activate(cfg, g, managerPresent), managerPresent) == Activate(cfg, g, managerPresent)
    ensures cfg.isTutorialGenerator ==> Activate(cfg, g, managerPresent).notices == g.notices
  {
  }

  // ---------------------------------------------------------------------
  // Any sequence of frames and trigger events
  // ---------------------------------------------------------------------

  datatype GeneratorEvent =
    | Frame(holding: bool, dt: real, managerPresent: bool, soundPresent: bool)
    | Enter(isPlayer: bool)
    | Exit(isPlayer: bool)

  function Step(cfg: GeneratorConfig, g: GeneratorState, e: GeneratorEvent): GeneratorState {
    match e
    case Frame(holding, dt, m, s) => Update(cfg, g, holding, dt, m, s)
    case Enter(isPlayer) => OnTriggerEnter(g, isPlayer)
    case Exit(isPlayer) => OnTriggerExit(g, isPlayer)
  }

  function Run(cfg: GeneratorConfig, g: GeneratorState, events: seq<GeneratorEvent>): GeneratorState
    decreases |events|
  {
    if |events| == 0 then g else Run(cfg, Step(cfg, g, events[0]), events[1..])
  }

  /** Frame times are never negative. */
  predicate SaneEvent(e: GeneratorEvent) {
    e.Frame? ==> e.dt >= 0.0
  }

  /**
   * The generator invariant: the hold is never negative, an activated
   * generator holds nothing, the game manager hears of at most the one
   * activation, and never of a tutorial generator.
   */
  ghost predicate Consistent(cfg: GeneratorConfig, g: GeneratorState) {
    && g.currentHoldTime >= 0.0
    && (g.isActivated ==> g.currentHoldTime == 0.0)
    && g.notices <= (if g.isActivated then 1 else 0)
    && (cfg.isTutorialGenerator ==> g.notices == 0)
  }

  /** Any sequence of frames and trigger events keeps the invariant, and activation is permanent. */
  lemma {:induction false} RunKeepsConsistent(cfg: GeneratorConfig, g: GeneratorState, events: seq<GeneratorEvent>)
    requires Consistent(cfg, g) && forall k :: 0 <= k < |events| ==> SaneEvent(events[k])
    ensures Consistent(cfg, Run(cfg, g, events))
    ensures g.isActivated ==> Run(cfg, g, events).isActivated && Run(cfg, g, events).notices == g.notices
    decreases |events|
  {
    if |events| > 0 {
      assert SaneEvent(events[0]);
      var next := Step(cfg, g, events[0]);
      assert Consistent(cfg, next);
      RunKeepsConsistent(cfg, next, events[1..]);
    }
  }
}

/** The `Generator` MonoBehaviour. */
module GeneratorComponent {
  import opened Generators

  class Generator {
    const config: GeneratorConfig
    var isActivated: bool
    var playerInRange: bool
    var currentHoldTime: real
    var effectOn: bool
    var notices: nat

    function Snapshot(): GeneratorState
      reads this
    {
      GeneratorState(isActivated, playerInRange, currentHoldTime, effectOn, notices)
    }

    constructor (config: GeneratorConfig)
      ensures this.config == config && Snapshot() == GeneratorState(false, false, 0.0, false, 0)
    {
      this.config := config;
      isActivated := false;
      playerInRange := false;
      currentHoldTime := 0.0;
      effectOn := false;
      notices := 0;
    }

    method Activate(managerPresent: bool)
      modifies this
      ensures Snapshot() == Generators.Activate(config, old(Snapshot()), managerPresent)
    {
      if isActivated {
        return;
      }
      isActivated := true;
      currentHoldTime := 0.0;
      effectOn := true;
      if !config.isTutorialGenerator && managerPresent {
        notices := notices + 1;
      }
    }

    method Update(holding: bool, dt: real, managerPresent: bool, soundPresent: bool)
      modifies this
      ensures Snapshot() == Generators.Update(config, old(Snapshot()), holding, dt, managerPresent, soundPresent)
    {
      if isActivated {
        return;
      }
      if playerInRange {
        if holding {
          currentHoldTime := currentHoldTime + dt;
          if currentHoldTime >= config.holdDuration {
            if !soundPresent {
              // The activation sound is played without a null check: the frame ends here.
              return;
            }
            Activate(managerPresent);
          }
        } else if currentHoldTime > 0.0 {
          currentHoldTime := 0.0;
        }
      }
    }

    method OnTriggerEnter(isPlayer: bool)
      modifies this
      ensures Snapshot() == Generators.OnTriggerEnter(old(Snapshot()), isPlayer)
    {
      if isPlayer && !isActivated {
        playerInRange := true;
      }
    }

    method OnTriggerExit(isPlayer: bool)
      modifies this
      ensures Snapshot() == Generators.OnTriggerExit(old(Snapshot()), isPlayer)
    {
      if isPlayer {
        playerInRange := false;
        currentHoldTime := 0.0;
      }
    }
  }
}
