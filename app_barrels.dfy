/** Fuel barrels of the single-player game (app.js `canPlaceBarrelAt`, `spawnBarrel`,
    `updateBarrelSpawning`). */
module AppBarrels {
  import opened JsMath
  import opened AppRules

  const MaxBarrels: nat := 5
  const RespawnMin: real := 6.0
  const RespawnMax: real := 12.0
  /** The respawn range after a spawn that found no free spot. */
  const RetryMin: real := 1.25
  const RetryMax: real := 2.75
  const BarrelHalfWidth: real := 18.0
  const BarrelHalfHeight: real := 22.0
  const TankAvoidRadius: real := 140.0
  const BarrelAvoidRadius: real := 100.0
  const SpawnAttempts: nat := 25

  /** `Math.max(BARREL_HALF_WIDTH + 25, halfChassisWidth + 25)` and the same for the height. */
  const SpawnMarginX: real := 65.0
  const SpawnMarginY: real := 73.0
  /** The candidate range `[margin, Math.max(margin, size - margin)]` on each axis. */
  const SpawnMinX: real := SpawnMarginX
  const SpawnMaxX: real := Max(SpawnMarginX, WorldWidth - SpawnMarginX)
  const SpawnMinY: real := SpawnMarginY
  const SpawnMaxY: real := Max(SpawnMarginY, WorldHeight - SpawnMarginY)

  predicate WithinField(x: real, y: real) {
    x >= BarrelHalfWidth && y >= BarrelHalfHeight &&
    x <= WorldWidth - BarrelHalfWidth && y <= WorldHeight - BarrelHalfHeight
  }

  predicate ClearOfBarrels(m: MathLib, barrels: seq<Barrel>, x: real, y: real) {
    forall i :: 0 <= i < |barrels| ==> !(m.Hypot(barrels[i].x - x, barrels[i].y - y) < BarrelAvoidRadius)
  }

  predicate ClearOfTanks(m: MathLib, tanks: seq<Tank>, x: real, y: real) {
    forall i :: 0 <= i < |tanks| ==> !(m.Hypot(tanks[i].x - x, tanks[i].y - y) < TankAvoidRadius)
  }

  /** `canPlaceBarrelAt(x, y)`. */
  predicate CanPlace(m: MathLib, barrels: seq<Barrel>, tanks: seq<Tank>, x: real, y: real) {
    WithinField(x, y) && ClearOfBarrels(m, barrels, x, y) && ClearOfTanks(m, tanks, x, y)
  }

  /** `clampBarrelPosition`. */
  function ClampBarrel(b: Barrel): (r: Barrel)
    ensures WithinField(r.x, r.y)
    ensures WithinField(b.x, b.y) ==> r == b
  {
    Barrel(Clamp(b.x, BarrelHalfWidth, Max(BarrelHalfWidth, WorldWidth - BarrelHalfWidth)),
           Clamp(b.y, BarrelHalfHeight, Max(BarrelHalfHeight, WorldHeight - BarrelHalfHeight)))
  }

  /** One attempt of `spawnBarrel`: a candidate x, then a candidate y, and the barrel goes
      there when `canPlaceBarrelAt` accepts the spot. */
  function Attempt(w: World, env: Env): (r: (World, bool))
    ensures r.0.draws == w.draws + 2
  {
    var cx := RandomInRange(env, w.draws, SpawnMinX, SpawnMaxX);
    var cy := RandomInRange(env, w.draws + 1, SpawnMinY, SpawnMaxY);
    var w' := w.(draws := w.draws + 2);
    if CanPlace(env.m, w.barrels, w.tanks, cx, cy) then (w'.(barrels := w'.barrels + [ClampBarrel(Barrel(cx, cy))]), true)
    else (w', false)
  }

  /** The attempts of `spawnBarrel` from `attempt` on, up to the first that places a barrel. */
  function SpawnFrom(w: World, env: Env, attempt: nat): (r: (World, bool))
    requires attempt <= SpawnAttempts
    decreases SpawnAttempts - attempt
  {
    if attempt == SpawnAttempts then (w, false)
    else
      var a := Attempt(w, env);
      if a.1 then a else SpawnFrom(a.0, env, attempt + 1)
  }

  /** `spawnBarrel`: nothing when the field is full, otherwise up to 25 attempts. (Its check
      for a world too small to hold a barrel can never fire with the fixed world size.) */
  function SpawnBarrel(w: World, env: Env): (r: (World, bool))
  {
    if |w.barrels| >= MaxBarrels then (w, false) else SpawnFrom(w, env, 0)
  }

  /** An attempt run either adds one barrel or uses up its draws, and changes nothing
      else. */
  lemma {:induction false} SpawnFromFrame(w: World, env: Env, attempt: nat)
    requires attempt <= SpawnAttempts
    ensures var r := SpawnFrom(w, env, attempt);
            r.0 == w.(barrels := r.0.barrels, draws := r.0.draws) && w.draws <= r.0.draws <= w.draws + 2 * (SpawnAttempts - attempt)
    ensures var r := SpawnFrom(w, env, attempt);
            !r.1 ==> r.0 == w.(draws := w.draws + 2 * (SpawnAttempts - attempt))
    ensures var r := SpawnFrom(w, env, attempt);
            r.1 ==> |r.0.barrels| == |w.barrels| + 1 && r.0.barrels[..|w.barrels|] == w.barrels
    decreases SpawnAttempts - attempt
  {
    if attempt < SpawnAttempts {
      var cx := RandomInRange(env, w.draws, SpawnMinX, SpawnMaxX);
      var cy := RandomInRange(env, w.draws + 1, SpawnMinY, SpawnMaxY);
      var w' := w.(draws := w.draws + 2);
      if CanPlace(env.m, w.barrels, w.tanks, cx, cy) {
        var b := ClampBarrel(Barrel(cx, cy));
        assert (w'.barrels + [b])[..|w.barrels|] == w.barrels;
      } else {
        SpawnFromFrame(w', env, attempt + 1);
      }
    }
  }

  /** A barrel that is added stands at a free spot inside the field, exactly where it was
      drawn. */
  lemma {:induction false} SpawnFromPlacement(w: World, env: Env, attempt: nat)
    requires env.RandomValid() && attempt <= SpawnAttempts
    ensures var r := SpawnFrom(w, env, attempt);
            r.1 ==> |r.0.barrels| == |w.barrels| + 1 &&
                    var b := r.0.barrels[|w.barrels|];
                    CanPlace(env.m, w.barrels, w.tanks, b.x, b.y) &&
                    SpawnMinX <= b.x < SpawnMaxX && SpawnMinY <= b.y < SpawnMaxY
    decreases SpawnAttempts - attempt
  {
    if attempt < SpawnAttempts {
      var cx := RandomInRange(env, w.draws, SpawnMinX, SpawnMaxX);
      var cy := RandomInRange(env, w.draws + 1, SpawnMinY, SpawnMaxY);
      var w' := w.(draws := w.draws + 2);
      if CanPlace(env.m, w.barrels, w.tanks, cx, cy) {
        RandomInRangeBounds(env, w.draws, SpawnMinX, SpawnMaxX);
        RandomInRangeBounds(env, w.draws + 1, SpawnMinY, SpawnMaxY);
        assert ClampBarrel(Barrel(cx, cy)) == Barrel(cx, cy);
      } else {
        SpawnFromPlacement(w', env, attempt + 1);
        SpawnFromFrame(w', env, attempt + 1);
      }
    }
  }

  /** The wait drawn after a spawn: 6 to 12 seconds when it placed a barrel, 1.25 to 2.75
      when it did not. */
  function NextWait(env: Env, k: nat, spawned: bool): real {
    if spawned then RandomInRange(env, k, RespawnMin, RespawnMax) else RandomInRange(env, k, RetryMin, RetryMax)
  }

  /** `updateBarrelSpawning(delta)`. */
  function UpdateSpawning(w: World, env: Env, delta: real): World {
    if |w.barrels| >= MaxBarrels then
      w.(barrelSpawnTimer := RandomInRange(env, w.draws, RespawnMin, RespawnMax), draws := w.draws + 1)
    else AfterCountdown(w.(barrelSpawnTimer := w.barrelSpawnTimer - delta), env)
  }

  /** The rest of `updateBarrelSpawning` once the timer has been counted down: nothing more
      while it still runs, otherwise a spawn and the next wait. */
  function AfterCountdown(w: World, env: Env): World {
    if w.barrelSpawnTimer > 0.0 then w else Rearm(SpawnBarrel(w, env), env)
  }

  /** The world after a spawn, with the next wait drawn. */
  function Rearm(spawn: (World, bool), env: Env): (r: World)
    ensures r == spawn.0.(barrelSpawnTimer := r.barrelSpawnTimer, draws := spawn.0.draws + 1)
  {
    spawn.0.(barrelSpawnTimer := NextWait(env, spawn.0.draws, spawn.1), draws := spawn.0.draws + 1)
  }

  /** After the countdown only the barrels, the timer and the draws can change; a barrel
      can only appear once the timer has run out, and one at most; and a barrel that
      appears stands at a spot `canPlaceBarrelAt` accepts. */
  lemma AfterCountdownEffect(w: World, env: Env)
    requires |w.barrels| < MaxBarrels
    ensures var r := AfterCountdown(w, env);
            r == w.(barrels := r.barrels, barrelSpawnTimer := r.barrelSpawnTimer, draws := r.draws) && r.draws >= w.draws
    ensures var r := AfterCountdown(w, env);
            r.barrels == w.barrels ||
            (w.barrelSpawnTimer <= 0.0 && |r.barrels| == |w.barrels| + 1 && r.barrels[..|w.barrels|] == w.barrels)
    ensures var r := AfterCountdown(w, env);
            env.RandomValid() && |r.barrels| > |w.barrels| ==>
              CanPlace(env.m, w.barrels, w.tanks, r.barrels[|w.barrels|].x, r.barrels[|w.barrels|].y)
  {
    if w.barrelSpawnTimer <= 0.0 {
      CountdownIsSpawn(w, env);
      SpawnFromFrame(w, env, 0);
      if env.RandomValid() {
        SpawnFromFree(w, env);
      }
    }
  }

  /** Spawning touches nothing but the barrels, the timer and the draws. */
  lemma UpdateSpawningFrame(w: World, env: Env, delta: real)
    ensures var r := UpdateSpawning(w, env, delta);
            r == w.(barrels := r.barrels, barrelSpawnTimer := r.barrelSpawnTimer, draws := r.draws) && r.draws >= w.draws
  {
    if |w.barrels| < MaxBarrels {
      AfterCountdownEffect(w.(barrelSpawnTimer := w.barrelSpawnTimer - delta), env);
    }
  }

  /** A full field gets no barrel and a new wait in [6, 12] seconds. */
  lemma FullFieldWaits(w: World, env: Env, delta: real)
    requires env.RandomValid() && |w.barrels| >= MaxBarrels
    ensures UpdateSpawning(w, env, delta).barrels == w.barrels
    ensures RespawnMin <= UpdateSpawning(w, env, delta).barrelSpawnTimer <= RespawnMax
  {
    RandomInRangeBounds(env, w.draws, RespawnMin, RespawnMax);
  }

  /** A barrel can only appear once the timer runs out, and one at most, so the field
      never holds more than five. */
  lemma UpdateSpawningCount(w: World, env: Env, delta: real)
    ensures var r := UpdateSpawning(w, env, delta);
            r.barrels == w.barrels ||
            (|w.barrels| < MaxBarrels && w.barrelSpawnTimer - delta <= 0.0 &&
             |r.barrels| == |w.barrels| + 1 && r.barrels[..|w.barrels|] == w.barrels)
    ensures |w.barrels| <= MaxBarrels ==> |UpdateSpawning(w, env, delta).barrels| <= MaxBarrels
  {
    if |w.barrels| < MaxBarrels {
      AfterCountdownEffect(w.(barrelSpawnTimer := w.barrelSpawnTimer - delta), env);
    }
  }

  /** A barrel that appears stands at a spot `canPlaceBarrelAt` accepts. */
  lemma SpawnedBarrelIsFree(w: World, env: Env, delta: real)
    requires env.RandomValid()
    ensures var r := UpdateSpawning(w, env, delta);
            |r.barrels| > |w.barrels| ==>
              CanPlace(env.m, w.barrels, w.tanks, r.barrels[|w.barrels|].x, r.barrels[|w.barrels|].y)
  {
    if |w.barrels| < MaxBarrels {
      AfterCountdownEffect(w.(barrelSpawnTimer := w.barrelSpawnTimer - delta), env);
    }
  }

  /** Once the timer has run out on a field with room, the result is that of the attempts. */
  lemma CountdownIsSpawn(w: World, env: Env)
    requires |w.barrels| < MaxBarrels && w.barrelSpawnTimer <= 0.0
    ensures AfterCountdown(w, env) == Rearm(SpawnFrom(w, env, 0), env)
  {
  }

  lemma SpawnFromFree(w: World, env: Env)
    requires env.RandomValid()
    ensures var r := SpawnFrom(w, env, 0).0;
            |r.barrels| > |w.barrels| ==>
              CanPlace(env.m, w.barrels, w.tanks, r.barrels[|w.barrels|].x, r.barrels[|w.barrels|].y)
  {
    if SpawnFrom(w, env, 0).1 {
      SpawnFromPlacement(w, env, 0);
    } else {
      SpawnFromFrame(w, env, 0);
    }
  }
}
