/**
 * The dynamic zombie spawner: every `checkInterval` seconds it counts the
 * live zombies and, below the target, makes up to two spawn calls; each call
 * tries up to ten random points around the player, keeping the first one that
 * lies on the navmesh, out of the camera's view and free of obstacles, and
 * picks a normal or special zombie tag by floor.
 *
 * Engine queries are inputs: each placement attempt carries the radius drawn
 * by `Random.Range(minDistance, maxDistance)` and the outcome of
 * `NavMesh.SamplePosition` (the distance of the sampled point from the player,
 * its viewport coordinates and the `Physics.CheckSphere` result); each tag
 * choice carries `Random.value` and the two `Random.Range` picks.
 */
module ZombieSpawning {
  import opened Wrappers
  import ZombieBehaviour

  /** At most this many spawn calls per cycle. */
  const MAX_SPAWNS_PER_CYCLE: nat := 2
  /** Placement attempts per spawn call. */
  const MAX_PLACEMENT_ATTEMPTS: nat := 10
  /** How far `NavMesh.SamplePosition` may move a candidate point. */
  const NAV_SAMPLE_RADIUS: real := 2.0
  /** Floor assumed when no game manager exists. */
  const DEFAULT_FLOOR: int := -9
  /** Lowest floor on which special zombies can appear. */
  const SPECIAL_MIN_FLOOR: int := -6
  /** Upper clamp of the special-zombie chance. */
  const SPECIAL_CHANCE_CAP: real := 0.5

  /** Inspector settings of the spawner. */
  datatype SpawnerConfig = SpawnerConfig(
    normalZombieTags: seq<string>,
    specialZombieTags: seq<string>,
    targetZombieCount: int,
    checkInterval: real,
    minDistance: real,
    maxDistance: real,
    zombieRadius: real,
    startChance: real,
    increaseRate: real)

  /** `Camera.WorldToViewportPoint` of a candidate point. */
  datatype Viewport = Viewport(x: real, y: real, z: real)

  /** A successful navmesh sample: distance of the sampled point from the player, where the camera sees it, and whether an obstacle overlaps it. */
  datatype NavHit = NavHit(distance: real, view: Viewport, obstructed: bool)

  /** One placement attempt: the drawn radius and the navmesh sample (`None` when it failed). */
  datatype Attempt = Attempt(radius: real, hit: Option<NavHit>)

  /** The random draws of one tag choice: `Random.value` and the two index picks. */
  datatype TagDraw = TagDraw(chanceSample: real, specialPick: int, normalPick: int)

  /** One call to the pool: the tag, the attempt that placed it, and its distance from the player. */
  datatype SpawnRequest = SpawnRequest(tag: string, attempt: nat, distance: real)

  // ---------------------------------------------------------------------
  // Visibility and placement filters
  // ---------------------------------------------------------------------

  /** `IsVisibleToCamera`: without a camera nothing is visible; otherwise inside a 0.2 margin around the viewport and in front. */
  function IsVisibleToCamera(hasCamera: bool, v: Viewport): bool {
    hasCamera && -0.2 < v.x < 1.2 && -0.2 < v.y < 1.2 && v.z > 0.0
  }

  /** What the camera test means: on-screen points in front are visible, points behind the camera or beyond the margin are not. */
  lemma VisibilityBounds(hasCamera: bool, v: Viewport)
    ensures !hasCamera ==> !IsVisibleToCamera(hasCamera, v)
    ensures hasCamera && 0.0 <= v.x <= 1.0 && 0.0 <= v.y <= 1.0 && v.z > 0.0 ==> IsVisibleToCamera(hasCamera, v)
    ensures v.z <= 0.0 ==> !IsVisibleToCamera(hasCamera, v)
    ensures v.x <= -0.2 || v.x >= 1.2 || v.y <= -0.2 || v.y >= 1.2 ==> !IsVisibleToCamera(hasCamera, v)
  {
  }

  /** What the engine guarantees of an attempt: the radius lies in the band and sampling moves the point by at most 2.0. */
  predicate WellFormedAttempt(cfg: SpawnerConfig, a: Attempt) {
    && cfg.minDistance <= a.radius <= cfg.maxDistance
    && (a.hit.Some? ==> a.radius - NAV_SAMPLE_RADIUS <= a.hit.value.distance <= a.radius + NAV_SAMPLE_RADIUS)
  }

  /** A point is kept iff the navmesh sample succeeded, the camera cannot see it and no obstacle overlaps it. */
  predicate Accepted(hasCamera: bool, a: Attempt) {
    a.hit.Some? && !IsVisibleToCamera(hasCamera, a.hit.value.view) && !a.hit.value.obstructed
  }

  /** Index of the first accepted attempt. */
  function FirstAccepted(hasCamera: bool, attempts: seq<Attempt>): (k: Option<nat>)
    ensures k.Some? ==> k.value < |attempts| && Accepted(hasCamera, attempts[k.value])
    ensures k.Some? ==> forall j :: 0 <= j < k.value ==> !Accepted(hasCamera, attempts[j])
    ensures k.None? ==> forall j :: 0 <= j < |attempts| ==> !Accepted(hasCamera, attempts[j])
    decreases |attempts|
  {
    if |attempts| == 0 then None
    else if Accepted(hasCamera, attempts[0]) then Some(0)
    else
      match FirstAccepted(hasCamera, attempts[1..])
      case None => None
      case Some(j) => Some(j + 1)
  }

  // ---------------------------------------------------------------------
  // Tag choice by floor
  // ---------------------------------------------------------------------

  function Clamp(x: real, lo: real, hi: real): (r: real)
    requires lo <= hi
    ensures lo <= r <= hi
    ensures lo <= x <= hi ==> r == x
  {
    if x < lo then lo else if x > hi then hi else x
  }

  /** The floor the chance is computed for: the game manager's, or -9 without one. */
  function CurrentFloor(floor: Option<int>): int {
    floor.GetOr(DEFAULT_FLOOR)
  }

  /** Whether the floor qualifies for special zombies at all. */
  predicate SpecialEligible(cfg: SpawnerConfig, floor: int) {
    |cfg.specialZombieTags| > 0 && floor >= SPECIAL_MIN_FLOOR
  }

  /** The special-zombie chance: zero when not eligible, else the linear ramp clamped to [0, 0.5]. */
  function SpecialChance(cfg: SpawnerConfig, floor: int): (p: real)
    ensures 0.0 <= p <= SPECIAL_CHANCE_CAP
    ensures !SpecialEligible(cfg, floor) ==> p == 0.0
  {
    if SpecialEligible(cfg, floor) then
      Clamp(cfg.startChance + (floor - SPECIAL_MIN_FLOOR) as real * cfg.increaseRate, 0.0, SPECIAL_CHANCE_CAP)
    else 0.0
  }

  /** `spawnSpecial` of `GetZombieTagByFloor`. */
  predicate SpawnsSpecial(cfg: SpawnerConfig, floor: int, sample: real) {
    SpecialEligible(cfg, floor) && sample < SpecialChance(cfg, floor)
  }

  /** Random.Range picks lie inside the lists they index (a list that is empty is never indexed). */
  predicate WellFormedDraw(cfg: SpawnerConfig, d: TagDraw) {
    && (|cfg.normalZombieTags| > 0 ==> 0 <= d.normalPick < |cfg.normalZombieTags|)
    && (|cfg.specialZombieTags| > 0 ==> 0 <= d.specialPick < |cfg.specialZombieTags|)
  }

  /** `GetZombieTagByFloor`: a special tag iff the special draw succeeds, otherwise a normal one. */
  function ChooseZombieTag(cfg: SpawnerConfig, floor: Option<int>, d: TagDraw): (tag: string)
    requires |cfg.normalZombieTags| > 0 && WellFormedDraw(cfg, d)
    ensures SpawnsSpecial(cfg, CurrentFloor(floor), d.chanceSample) ==> tag in cfg.specialZombieTags
    ensures !SpawnsSpecial(cfg, CurrentFloor(floor), d.chanceSample) ==> tag in cfg.normalZombieTags
  {
    if SpawnsSpecial(cfg, CurrentFloor(floor), d.chanceSample) then cfg.specialZombieTags[d.specialPick]
    else cfg.normalZombieTags[d.normalPick]
  }

  /** With `Random.value` in [0, 1], a special zombie is chosen iff the sample is below the chance, and never below floor -6 or without special tags. */
  lemma SpecialIffBelowChance(cfg: SpawnerConfig, floor: int, sample: real)
    requires 0.0 <= sample
    ensures SpawnsSpecial(cfg, floor, sample) <==> sample < SpecialChance(cfg, floor)
    ensures floor < SPECIAL_MIN_FLOOR || |cfg.specialZombieTags| == 0 ==> !SpawnsSpecial(cfg, floor, sample)
  {
  }

  /** The chance is exactly the clamped ramp on eligible floors; without a game manager (floor -9) it is zero. */
  lemma SpecialChanceValue(cfg: SpawnerConfig, floor: int)
    ensures SpecialEligible(cfg, floor) ==>
      SpecialChance(cfg, floor) == Clamp(cfg.startChance + (floor + 6) as real * cfg.increaseRate, 0.0, 0.5)
    ensures SpecialChance(cfg, CurrentFloor(None)) == 0.0
  {
  }

  /** With a non-negative increase rate, deeper-numbered (higher) floors never lower the chance. */
  lemma SpecialChanceMonotone(cfg: SpawnerConfig, lower: int, higher: int)
    requires cfg.increaseRate >= 0.0 && lower <= higher
    ensures SpecialChance(cfg, lower) <= SpecialChance(cfg, higher)
  {
    if SpecialEligible(cfg, lower) {
      assert (lower - SPECIAL_MIN_FLOOR) as real * cfg.increaseRate <= (higher - SPECIAL_MIN_FLOOR) as real * cfg.increaseRate;
    }
  }

  // ---------------------------------------------------------------------
  // One spawn call
  // ---------------------------------------------------------------------

  /** `TrySpawnZombie`: nothing without a player or normal tags; otherwise a spawn at the first accepted attempt, if any. */
  function TrySpawn(cfg: SpawnerConfig, playerPresent: bool, hasCamera: bool, floor: Option<int>,
                    attempts: seq<Attempt>, d: TagDraw): (r: Option<SpawnRequest>)
    requires |attempts| == MAX_PLACEMENT_ATTEMPTS && WellFormedDraw(cfg, d)
    ensures !playerPresent || |cfg.normalZombieTags| == 0 ==> r.None?
    ensures r.Some? ==> r.value.attempt < MAX_PLACEMENT_ATTEMPTS && Accepted(hasCamera, attempts[r.value.attempt])
    ensures r.Some? ==> r.value.distance == attempts[r.value.attempt].hit.value.distance
    ensures r.Some? ==> forall j :: 0 <= j < r.value.attempt ==> !Accepted(hasCamera, attempts[j])
    ensures r.Some? ==> r.value.tag in cfg.normalZombieTags || r.value.tag in cfg.specialZombieTags
    ensures playerPresent && |cfg.normalZombieTags| > 0 ==>
      (r.None? <==> forall j :: 0 <= j < |attempts| ==> !Accepted(hasCamera, attempts[j]))
  {
    if !playerPresent || |cfg.normalZombieTags| == 0 then None
    else
      match FirstAccepted(hasCamera, attempts)
      case None => None
      case Some(k) => Some(SpawnRequest(ChooseZombieTag(cfg, floor, d), k, attempts[k].hit.value.distance))
  }

  /** Every zombie spawned lies within the distance band widened by the navmesh sampling radius. */
  lemma SpawnDistanceInBand(cfg: SpawnerConfig, playerPresent: bool, hasCamera: bool, floor: Option<int>,
                            attempts: seq<Attempt>, d: TagDraw)
    requires |attempts| == MAX_PLACEMENT_ATTEMPTS && WellFormedDraw(cfg, d)
    requires forall j :: 0 <= j < |attempts| ==> WellFormedAttempt(cfg, attempts[j])
    ensures var r := TrySpawn(cfg, playerPresent, hasCamera, floor, attempts, d);
      r.Some? ==> cfg.minDistance - NAV_SAMPLE_RADIUS <= r.value.distance <= cfg.maxDistance + NAV_SAMPLE_RADIUS
  {
    var r := TrySpawn(cfg, playerPresent, hasCamera, floor, attempts, d);
    if r.Some? {
      assert WellFormedAttempt(cfg, attempts[r.value.attempt]);
    }
  }

  // ---------------------------------------------------------------------
  // Population count and cycle size
  // ---------------------------------------------------------------------

  /** A zombie counts towards the population when it is not Dead and its object is active. */
  predicate Live(z: ZombieBehaviour.Zombie) {
    !ZombieBehaviour.IsDead(z) && z.active
  }

  function LiveCount(zombies: seq<ZombieBehaviour.Zombie>): (n: nat)
    ensures n <= |zombies|
  {
    if |zombies| == 0 then 0
    else LiveCount(zombies[..|zombies| - 1]) + (if Live(zombies[|zombies| - 1]) then 1 else 0)
  }

  /** The population count of one cycle, by a loop over the scene's zombies. */
  method CountLive(zombies: seq<ZombieBehaviour.Zombie>) returns (count: nat)
    ensures count == LiveCount(zombies)
  {
    count := 0;
    var i := 0;
    while i < |zombies|
      invariant 0 <= i <= |zombies|
      invariant count == LiveCount(zombies[..i])
    {
      assert zombies[..i + 1][..i] == zombies[..i];
      if Live(zombies[i]) {
        count := count + 1;
      }
      i := i + 1;
    }
    assert zombies[..i] == zombies;
  }

  /** Spawn calls a cycle plans: none at or above target, else min(2, target - live). */
  function SpawnAmount(target: int, live: nat): (n: nat)
    ensures n <= MAX_SPAWNS_PER_CYCLE
    ensures live >= target ==> n == 0
    ensures live < target ==> n == if target - live < 2 then target - live else 2
    ensures live < target ==> n > 0 && live + n <= target
  {
    if live < target then (if target - live < 2 then target - live else 2) else 0
  }

  /** Number of spawn calls made before the player disappears (each call is preceded by a player check). */
  function CallsBeforeLoss(present: seq<bool>, amount: nat): (k: nat)
    requires amount <= |present|
    ensures k <= amount
    ensures forall j :: 0 <= j < k ==> present[j]
    ensures k < amount ==> !present[k]
    decreases amount
  {
    if amount == 0 then 0
    else
      var k := CallsBeforeLoss(present, amount - 1);
      if k < amount - 1 then k
      else if present[amount - 1] then amount
      else amount - 1
  }

  /** Results of the first `n` spawn calls of a cycle (the player is present at each). */
  function Requests(cfg: SpawnerConfig, hasCamera: bool, floor: Option<int>,
                    attempts: seq<seq<Attempt>>, draws: seq<TagDraw>, n: nat): (rs: seq<Option<SpawnRequest>>)
    requires n <= |attempts| && n <= |draws|
    requires forall j :: 0 <= j < n ==> |attempts[j]| == MAX_PLACEMENT_ATTEMPTS && WellFormedDraw(cfg, draws[j])
    ensures |rs| == n
    decreases n
  {
    if n == 0 then []
    else Requests(cfg, hasCamera, floor, attempts, draws, n - 1)
         + [TrySpawn(cfg, true, hasCamera, floor, attempts[n - 1], draws[n - 1])]
  }

  // ---------------------------------------------------------------------
  // The spawner's state and one wake-up of the spawn routine
  // ---------------------------------------------------------------------

  /**
   * `isSpawning`, the number of running spawn routines, whether `Camera.main`
   * was found, whether `playerTransform` is set, and every spawn call made.
   */
  datatype Spawner = Spawner(
    isSpawning: bool,
    routines: nat,
    hasCamera: bool,
    playerTracked: bool,
    calls: seq<Option<SpawnRequest>>)

  /** What one wake-up of a routine did. */
  datatype CycleOutcome =
    | Ended                          // no player and no game manager: the routine stops
    | Skipped                        // no player found: wait for the next interval
    | Checked(live: nat, made: nat)  // counted `live` zombies and made `made` spawn calls

  /** Routines only run while spawning is on. */
  predicate Valid(s: Spawner) {
    s.routines > 0 ==> s.isSpawning
  }

  function StartSpawning(s: Spawner, hasCamera: bool): (r: Spawner)
    ensures Valid(r) && r.isSpawning && r.routines == s.routines + 1 && r.hasCamera == hasCamera
  {
    s.(isSpawning := true, hasCamera := hasCamera, routines := s.routines + 1)
  }

  function StopSpawning(s: Spawner): (r: Spawner)
    ensures Valid(r) && !r.isSpawning && r.routines == 0 && r.calls == s.calls
  {
    s.(isSpawning := false, routines := 0)
  }

  /**
   * The inputs of one wake-up: whether the tracked player object still exists,
   * whether `FindGameObjectWithTag` finds one, whether a game manager exists,
   * the scene's zombies, the floor, whether the player exists before each
   * spawn call, and each call's attempts and tag draw.
   */
  datatype CycleInput = CycleInput(
    trackedAlive: bool,
    playerFound: bool,
    managerPresent: bool,
    zombies: seq<ZombieBehaviour.Zombie>,
    floor: Option<int>,
    presentBeforeCall: seq<bool>,
    attempts: seq<seq<Attempt>>,
    draws: seq<TagDraw>)

  predicate WellFormedInput(cfg: SpawnerConfig, inp: CycleInput) {
    && |inp.presentBeforeCall| == MAX_SPAWNS_PER_CYCLE
    && |inp.attempts| == MAX_SPAWNS_PER_CYCLE
    && |inp.draws| == MAX_SPAWNS_PER_CYCLE
    && (forall j :: 0 <= j < MAX_SPAWNS_PER_CYCLE ==> |inp.attempts[j]| == MAX_PLACEMENT_ATTEMPTS)
    && (forall j :: 0 <= j < MAX_SPAWNS_PER_CYCLE ==> WellFormedDraw(cfg, inp.draws[j]))
  }

  /** The body of `SpawnRoutine` after its wait: the new spawner state and what happened. */
  function Cycle(cfg: SpawnerConfig, s: Spawner, inp: CycleInput): (Spawner, CycleOutcome)
    requires WellFormedInput(cfg, inp) && s.routines > 0
  {
    var tracked := s.playerTracked && inp.trackedAlive;
    if !tracked && !inp.playerFound then
      if inp.managerPresent then (s.(playerTracked := false), Skipped)
      else (s.(playerTracked := false, routines := s.routines - 1), Ended)
    else
      var live := LiveCount(inp.zombies);
      var amount := SpawnAmount(cfg.targetZombieCount, live);
      var made := CallsBeforeLoss(inp.presentBeforeCall, amount);
      var rs := Requests(cfg, s.hasCamera, inp.floor, inp.attempts, inp.draws, made);
      (s.(playerTracked := made == amount, calls := s.calls + rs), Checked(live, made))
  }

  /** No player: the cycle makes no call; the routine ends iff the game manager is gone too. */
  lemma NoPlayerSkipsCycle(cfg: SpawnerConfig, s: Spawner, inp: CycleInput)
    requires WellFormedInput(cfg, inp) && s.routines > 0
    requires !(s.playerTracked && inp.trackedAlive) && !inp.playerFound
    ensures var (r, out) := Cycle(cfg, s, inp);
      r.calls == s.calls && !out.Checked? && (out == Ended <==> !inp.managerPresent)
      && (out == Ended ==> r.routines == s.routines - 1)
      && (out == Skipped ==> r.routines == s.routines)
  {
  }

  /** A checked cycle: nothing at or above target; otherwise min(2, target - live) calls, fewer only when the player disappears. */
  lemma {:induction false} CycleTopsUp(cfg: SpawnerConfig, s: Spawner, inp: CycleInput)
    requires WellFormedInput(cfg, inp) && s.routines > 0
    ensures var (r, out) := Cycle(cfg, s, inp);
      && (Valid(s) ==> Valid(r))
      && (out.Checked? ==>
           && out.live == LiveCount(inp.zombies)
           && out.made <= MAX_SPAWNS_PER_CYCLE
           && |r.calls| == |s.calls| + out.made
           && r.calls[..|s.calls|] == s.calls
           && (out.live >= cfg.targetZombieCount ==> out.made == 0)
           && ((forall j :: 0 <= j < MAX_SPAWNS_PER_CYCLE ==> inp.presentBeforeCall[j]) ==>
                 out.made == SpawnAmount(cfg.targetZombieCount, out.live))
           && (out.made < SpawnAmount(cfg.targetZombieCount, out.live) ==> !inp.presentBeforeCall[out.made]))
  {
    var (r, out) := Cycle(cfg, s, inp);
    if out.Checked? {
      var amount := SpawnAmount(cfg.targetZombieCount, out.live);
      var rs := Requests(cfg, s.hasCamera, inp.floor, inp.attempts, inp.draws, out.made);
      assert r.calls == s.calls + rs;
      assert r.calls[..|s.calls|] == s.calls;
    }
  }

  /** The live count can only grow by what a cycle adds: a cycle never pushes the planned population past the target. */
  lemma CyclePlansWithinTarget(cfg: SpawnerConfig, s: Spawner, inp: CycleInput)
    requires WellFormedInput(cfg, inp) && s.routines > 0
    ensures var (_, out) := Cycle(cfg, s, inp);
      out.Checked? && out.live < cfg.targetZombieCount ==> out.live + out.made <= cfg.targetZombieCount
  {
  }

  /** Each call of a checked cycle is a `TrySpawnZombie` with the player present; every spawn lies in the widened band. */
  lemma {:induction false} CycleSpawnsInBand(cfg: SpawnerConfig, s: Spawner, inp: CycleInput, n: nat)
    requires WellFormedInput(cfg, inp) && n <= MAX_SPAWNS_PER_CYCLE
    requires forall j, k :: 0 <= j < MAX_SPAWNS_PER_CYCLE && 0 <= k < MAX_PLACEMENT_ATTEMPTS ==>
      WellFormedAttempt(cfg, inp.attempts[j][k])
    ensures forall q :: 0 <= q < n ==>
      var rq := Requests(cfg, s.hasCamera, inp.floor, inp.attempts, inp.draws, n)[q];
      rq.Some? ==> cfg.minDistance - NAV_SAMPLE_RADIUS <= rq.value.distance <= cfg.maxDistance + NAV_SAMPLE_RADIUS
    decreases n
  {
    if n > 0 {
      CycleSpawnsInBand(cfg, s, inp, n - 1);
      var rs := Requests(cfg, s.hasCamera, inp.floor, inp.attempts, inp.draws, n);
      assert rs[..n - 1] == Requests(cfg, s.hasCamera, inp.floor, inp.attempts, inp.draws, n - 1);
      SpawnDistanceInBand(cfg, true, s.hasCamera, inp.floor, inp.attempts[n - 1], inp.draws[n - 1]);
    }
  }
}

/** The `DynamicZombieSpawner` MonoBehaviour. */
module ZombieSpawnerComponent {
  import opened Wrappers
  import ZombieBehaviour
  import opened ZombieSpawning

  class DynamicZombieSpawner {
    const config: SpawnerConfig
    var isSpawning: bool
    var routines: nat
    var hasCamera: bool
    var playerTracked: bool
    var calls: seq<Option<SpawnRequest>>

    function Snapshot(): Spawner
      reads this
    {
      Spawner(isSpawning, routines, hasCamera, playerTracked, calls)
    }

    constructor (config: SpawnerConfig)
      ensures this.config == config && Snapshot() == Spawner(false, 0, false, false, [])
    {
      this.config := config;
      isSpawning := false;
      routines := 0;
      hasCamera := false;
      playerTracked := false;
      calls := [];
    }

    method StartSpawning(cameraFound: bool)
      modifies this
      ensures Snapshot() == ZombieSpawning.StartSpawning(old(Snapshot()), cameraFound)
    {
      isSpawning := true;
      hasCamera := cameraFound;
      routines := routines + 1;
    }

    method StopSpawning()
      modifies this
      ensures Snapshot() == ZombieSpawning.StopSpawning(old(Snapshot()))
    {
      isSpawning := false;
      routines := 0;
    }

    /** `TrySpawnZombie` with the player present or not: the attempt loop, returning the pool call it makes. */
    method TrySpawnZombie(playerPresent: bool, floor: Option<int>, attempts: seq<Attempt>, d: TagDraw)
      returns (request: Option<SpawnRequest>)
      requires |attempts| == MAX_PLACEMENT_ATTEMPTS && WellFormedDraw(config, d)
      ensures request == TrySpawn(config, playerPresent, hasCamera, floor, attempts, d)
    {
      if !playerPresent || |config.normalZombieTags| == 0 {
        return None;
      }
      var i := 0;
      while i < MAX_PLACEMENT_ATTEMPTS
        invariant 0 <= i <= MAX_PLACEMENT_ATTEMPTS
        invariant forall j :: 0 <= j < i ==> !Accepted(hasCamera, attempts[j])
      {
        var a := attempts[i];
        if a.hit.Some? {
          var hit := a.hit.value;
          if !IsVisibleToCamera(hasCamera, hit.view) {
            if !hit.obstructed {
              var tag := ChooseZombieTag(config, floor, d);
              return Some(SpawnRequest(tag, i, hit.distance));
            }
          }
        }
        i := i + 1;
      }
      return None;
    }

    /** One wake-up of `SpawnRoutine` after `checkInterval`. */
    method RunCycle(inp: CycleInput) returns (outcome: CycleOutcome)
      requires WellFormedInput(config, inp) && routines > 0
      modifies this
      ensures (Snapshot(), outcome) == Cycle(config, old(Snapshot()), inp)
    {
      if !(playerTracked && inp.trackedAlive) {
        if inp.playerFound {
          playerTracked := true;
        } else {
          playerTracked := false;
          if !inp.managerPresent {
            routines := routines - 1;
            return Ended;
          }
          return Skipped;
        }
      }
      var live := CountLive(inp.zombies);
      var amount := SpawnAmount(config.targetZombieCount, live);
      var made, batch := SpawnBatch(inp, amount);
      calls := calls + batch;
      playerTracked := made == amount;
      return Checked(live, made);
    }

    /** The spawn loop of a checked cycle: up to `amount` calls, each after a player check; the calls stop when the player is gone. */
    method SpawnBatch(inp: CycleInput, amount: nat) returns (made: nat, batch: seq<Option<SpawnRequest>>)
      requires WellFormedInput(config, inp) && amount <= MAX_SPAWNS_PER_CYCLE
      ensures made == CallsBeforeLoss(inp.presentBeforeCall, amount)
      ensures batch == Requests(config, hasCamera, inp.floor, inp.attempts, inp.draws, made)
    {
      batch := [];
      made := 0;
      while made < amount && inp.presentBeforeCall[made]
        invariant 0 <= made <= amount
        invariant forall j :: 0 <= j < made ==> inp.presentBeforeCall[j]
        invariant batch == Requests(config, hasCamera, inp.floor, inp.attempts, inp.draws, made)
      {
        var r := TrySpawnZombie(true, inp.floor, inp.attempts[made], inp.draws[made]);
        batch := batch + [r];
        made := made + 1;
      }
      assert made == CallsBeforeLoss(inp.presentBeforeCall, amount);
    }
  }
}
