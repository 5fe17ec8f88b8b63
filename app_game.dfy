/** One frame of the single-player game loop (app.js `step`) as a function of the world,
    and the invariant that every frame keeps. */
module AppGame {
  import opened JsMath
  import opened AppRules
  import opened AppBullets
  import opened AppBarrels
  import opened AppAi
  import Input
  import Core
  import AppSettings

  /** The longest frame the loop simulates, in seconds. */
  const MaxFrameSeconds: real := 0.05

  /** `Math.min(0.05, (timestamp - previousTimestamp) / 1000)`: milliseconds to seconds,
      capped at a twentieth of a second. */
  function FrameDelta(timestamp: real, previous: real): (d: real)
    ensures d <= MaxFrameSeconds
    ensures timestamp >= previous ==> d >= 0.0
    ensures timestamp - previous <= 50.0 ==> d * 1000.0 == timestamp - previous
    ensures timestamp - previous >= 50.0 ==> d == MaxFrameSeconds
  {
    Min(MaxFrameSeconds, (timestamp - previous) / 1000.0)
  }

  /** `(pos ? 1 : 0) - (neg ? 1 : 0)`. */
  function Axis(pos: bool, neg: bool): (r: int)
    ensures -1 <= r <= 1
    ensures r == 0 <==> pos == neg
    ensures r == 1 <==> pos && !neg
  {
    (if pos then 1 else 0) - (if neg then 1 else 0)
  }

  /** The hull turn at `TURN_SPEED` for a turn input of -1, 0 or 1. */
  function Steer(t: Tank, turn: int, delta: real): (r: Tank)
    ensures r == t.(hullAngle := r.hullAngle)
    ensures turn == 0 ==> r == t
  {
    if turn != 0 then t.(hullAngle := WrapDeg(t.hullAngle + turn as real * TurnSpeed * delta)) else t
  }

  /** A turn input turns the hull by exactly `TURN_SPEED * delta` degrees per unit (clockwise
      for a positive input) and keeps it in [0, 360). */
  lemma SteerTurns(t: Tank, turn: int, delta: real)
    requires -1 <= turn <= 1 && 0.0 <= t.hullAngle < 360.0 && 0.0 <= delta <= MaxFrameSeconds
    ensures 0.0 <= Steer(t, turn, delta).hullAngle < 360.0
    ensures ShortestArc(Steer(t, turn, delta).hullAngle, t.hullAngle) == turn as real * TurnSpeed * delta
  {
    if turn != 0 {
      TurnLands(t.hullAngle, turn as real * TurnSpeed * delta);
    } else {
      ModOfShift(180.0, 1);
      assert ShortestArc(t.hullAngle, t.hullAngle) == 0.0;
    }
  }

  /** The player's driving at the start of `step`: a hull turn when a turn key is held,
      then a clamped move along the new hull when a drive key is held; a destroyed tank
      does neither. */
  function DrivePlayer(m: MathLib, t: Tank, keys: Input.KeyState, delta: real, moveSpeed: real): (r: Tank)
    ensures r == t.(x := r.x, y := r.y, hullAngle := r.hullAngle)
    ensures t.isDestroyed ==> r == t
    ensures !t.isDestroyed ==> r.hullAngle == Steer(t, Axis(keys.turnRight, keys.turnLeft), delta).hullAngle
    ensures Axis(keys.forward, keys.backward) == 0 ==> r.x == t.x && r.y == t.y
    ensures !t.isDestroyed && Axis(keys.forward, keys.backward) != 0 ==>
              Point(r.x, r.y) == Driven(m, t.x, t.y, r.hullAngle, Travel(Axis(keys.forward, keys.backward), moveSpeed, delta))
    ensures InField(t) ==> InField(r)
  {
    if t.isDestroyed then t
    else
      var turned := Steer(t, Axis(keys.turnRight, keys.turnLeft), delta);
      var move := Axis(keys.forward, keys.backward);
      if move != 0 then MoveTank(m, turned, Travel(move, moveSpeed, delta)) else turned
  }

  /** One tank's reload countdown: a running timer drops by `delta`, floored at 0. */
  function Reload(t: Tank, delta: real): (r: Tank)
    ensures r == t.(reloadTimer := r.reloadTimer)
    ensures delta >= 0.0 && t.reloadTimer >= 0.0 ==> 0.0 <= r.reloadTimer <= t.reloadTimer
    ensures delta >= 0.0 && t.reloadTimer > 0.0 ==> r.reloadTimer == t.reloadTimer - delta || r.reloadTimer == 0.0
    ensures t.reloadTimer <= delta ==> r.reloadTimer <= 0.0
  {
    if t.reloadTimer > 0.0 then t.(reloadTimer := Max(0.0, t.reloadTimer - delta)) else t
  }

  /** The `allTanks.forEach` reload pass. */
  function Reloaded(tanks: seq<Tank>, delta: real): (r: seq<Tank>)
    ensures |r| == |tanks| && forall i :: 0 <= i < |tanks| ==> r[i] == Reload(tanks[i], delta)
  {
    seq(|tanks|, i requires 0 <= i < |tanks| => Reload(tanks[i], delta))
  }

  /** The player's share of `step`: drive, reload every tank, fire when the fire key is
      held and the gun is ready, then swing the turret towards the cursor. */
  function PlayerPhase(env: Env, w: World, delta: real, keys: Input.KeyState, pointer: Point,
                       s: Core.TankSettings): (r: World)
    requires TwoTanks(w)
    ensures r == w.(tanks := r.tanks, bullets := r.bullets) && TwoTanks(r)
    ensures |r.bullets| >= |w.bullets| && r.bullets[..|w.bullets|] == w.bullets
  {
    var p := DrivePlayer(env.m, w.tanks[PlayerIndex], keys, delta, s.moveSpeed);
    var w1 := w.(tanks := Reloaded(w.tanks[PlayerIndex := p], delta));
    var ready := w1.tanks[PlayerIndex];
    var w2 := if keys.firing && ready.reloadTimer <= 0.0 && !ready.isDestroyed then Fire(w1, PlayerIndex, env.m, s.fireCooldown) else w1;
    w2.(tanks := w2.tanks[PlayerIndex := AimTurret(env.m, w2.tanks[PlayerIndex], pointer.x, pointer.y, delta, AimTurnRate)])
  }

  /** `step(timestamp)`: the player's phase, `updateEnemyBehavior`, `updateBarrelSpawning`
      and `updateBullets`, in that order, over one frame. */
  function StepSpec(env: Env, w: World, timestamp: real, keys: Input.KeyState, pointer: Point,
                    s: Core.TankSettings): (r: World)
    requires TwoTanks(w)
    ensures r.previousTimestamp == timestamp && TwoTanks(r)
  {
    var delta := FrameDelta(timestamp, w.previousTimestamp);
    var w1 := PlayerPhase(env, w.(previousTimestamp := timestamp), delta, keys, pointer, s);
    var w2 := EnemyBehavior(w1, env, delta, s.moveSpeed, s.fireCooldown);
    EnemyBehaviorFrame(w1, env, delta, s.moveSpeed, s.fireCooldown);
    var w3 := UpdateSpawning(w2, env, delta);
    UpdateSpawningFrame(w2, env, delta);
    ProcessKeepsTanksAndAi(w3, |w3.bullets|, delta, env, s.damagePerHit);
    ProcessBullets(w3, |w3.bullets|, delta, env, s.damagePerHit)
  }

  /** The tanks are sound, inside the field, and have non-negative reload timers. */
  predicate TanksSound(w: World) {
    && CombatSound(w)
    && InField(w.tanks[PlayerIndex]) && InField(w.tanks[EnemyIndex])
    && w.tanks[PlayerIndex].reloadTimer >= 0.0 && w.tanks[EnemyIndex].reloadTimer >= 0.0
  }

  /** What holds between frames: sound tanks, a consistent AI state, at most five barrels
      and only bullets still in play. */
  predicate Sound(w: World) {
    && TanksSound(w)
    && AiInvariant(w.ai)
    && |w.barrels| <= MaxBarrels
    && InPlayFrom(w.bullets, 0)
  }

  /** The game's settings as they reach the loop: sanitized to their limits. */
  predicate Playable(s: Core.TankSettings) {
    AppSettings.WithinLimits(s)
  }

  /** The world as the setup code leaves it: the player at the centre, the enemy at
      (0.75, 0.35) of the field, the first spawn wait drawn, then the first search target,
      no bullets, no barrels and no outcome. */
  function InitialWorld(env: Env, now: real): (w: World)
    ensures TwoTanks(w) && w.draws == 3 && w.previousTimestamp == now
    ensures w.tanks[PlayerIndex] == NewTank(WorldWidth / 2.0, WorldHeight / 2.0, true)
    ensures w.tanks[EnemyIndex] == NewTank(WorldWidth * 0.75, WorldHeight * 0.35, false)
    ensures w.bullets == [] && w.barrels == [] && w.outcome == NoOutcome
  {
    World([NewTank(WorldWidth / 2.0, WorldHeight / 2.0, true), NewTank(WorldWidth * 0.75, WorldHeight * 0.35, false)],
          [], [], NoOutcome, RandomInRange(env, 0, 0.75, 2.25), InitialAi(PickTarget(env, 1)), 3, now)
  }

  /** The game starts sound, with the first spawn 0.75 to 2.25 seconds away. */
  lemma InitialWorldSound(env: Env, now: real)
    requires env.RandomValid()
    ensures Sound(InitialWorld(env, now))
    ensures 0.75 <= InitialWorld(env, now).barrelSpawnTimer <= 2.25
  {
    RandomInRangeBounds(env, 0, 0.75, 2.25);
  }

  /** The player's phase only moves, turns, reloads and fires; it keeps the tanks sound. */
  lemma PlayerPhaseSound(env: Env, w: World, delta: real, keys: Input.KeyState, pointer: Point, s: Core.TankSettings)
    requires TanksSound(w) && delta >= 0.0 && s.fireCooldown >= 0.0
    ensures TanksSound(PlayerPhase(env, w, delta, keys, pointer, s))
  {
    var p := DrivePlayer(env.m, w.tanks[PlayerIndex], keys, delta, s.moveSpeed);
    var tanks1 := Reloaded(w.tanks[PlayerIndex := p], delta);
    assert tanks1[PlayerIndex] == Reload(p, delta);
    assert tanks1[EnemyIndex] == Reload(w.tanks[EnemyIndex], delta);
    var w1 := w.(tanks := tanks1);
    assert TanksSound(w1);
    var ready := w1.tanks[PlayerIndex];
    var w2 := if keys.firing && ready.reloadTimer <= 0.0 && !ready.isDestroyed then Fire(w1, PlayerIndex, env.m, s.fireCooldown) else w1;
    assert TanksSound(w2);
    var aimed := AimTurret(env.m, w2.tanks[PlayerIndex], pointer.x, pointer.y, delta, AimTurnRate);
    assert PlayerPhase(env, w, delta, keys, pointer, s) == w2.(tanks := w2.tanks[PlayerIndex := aimed]);
  }

  /** The enemy's phase keeps the tanks sound. */
  lemma EnemyPhaseSound(w: World, env: Env, delta: real, moveSpeed: real, fireCooldown: real)
    requires TanksSound(w) && fireCooldown >= 0.0
    ensures TanksSound(EnemyBehavior(w, env, delta, moveSpeed, fireCooldown))
  {
    EnemyBehaviorFrame(w, env, delta, moveSpeed, fireCooldown);
    EnemyStaysInField(w, env, delta, moveSpeed, fireCooldown);
    if !w.tanks[PlayerIndex].isDestroyed && !w.tanks[EnemyIndex].isDestroyed {
      DecisionReachesWorld(w, env, delta, moveSpeed, fireCooldown);
      DecisionKeepsStatus(env, w.ai, w.tanks[PlayerIndex], w.tanks[EnemyIndex], delta, moveSpeed, w.draws);
    }
  }

  /** The bullet pass keeps the tanks sound: it only wears them. */
  lemma BulletPhaseSound(w: World, delta: real, env: Env, damage: real)
    requires TanksSound(w) && damage >= 0.0
    ensures TanksSound(ProcessBullets(w, |w.bullets|, delta, env, damage))
    ensures Worn(w.tanks, ProcessBullets(w, |w.bullets|, delta, env, damage).tanks)
  {
    ProcessBulletsSound(w, |w.bullets|, delta, env, damage);
    var r := ProcessBullets(w, |w.bullets|, delta, env, damage);
    assert r.tanks[PlayerIndex] == w.tanks[PlayerIndex].(health := r.tanks[PlayerIndex].health, isDestroyed := r.tanks[PlayerIndex].isDestroyed);
    assert r.tanks[EnemyIndex] == w.tanks[EnemyIndex].(health := r.tanks[EnemyIndex].health, isDestroyed := r.tanks[EnemyIndex].isDestroyed);
  }

  /** Every frame keeps the invariant, as long as time does not run backwards and the
      settings are within their limits. */
  lemma StepKeepsSound(env: Env, w: World, timestamp: real, keys: Input.KeyState, pointer: Point, s: Core.TankSettings)
    requires Sound(w) && env.RandomValid() && Playable(s) && timestamp >= w.previousTimestamp
    ensures Sound(StepSpec(env, w, timestamp, keys, pointer, s))
  {
    var delta := FrameDelta(timestamp, w.previousTimestamp);
    var w0 := w.(previousTimestamp := timestamp);
    var w1 := PlayerPhase(env, w0, delta, keys, pointer, s);
    PlayerPhaseSound(env, w0, delta, keys, pointer, s);
    var w2 := EnemyBehavior(w1, env, delta, s.moveSpeed, s.fireCooldown);
    EnemyPhaseSound(w1, env, delta, s.moveSpeed, s.fireCooldown);
    EnemyBehaviorFrame(w1, env, delta, s.moveSpeed, s.fireCooldown);
    EnemyBehaviorKeepsInvariant(w1, env, delta, s.moveSpeed, s.fireCooldown);
    var w3 := UpdateSpawning(w2, env, delta);
    UpdateSpawningFrame(w2, env, delta);
    UpdateSpawningCount(w2, env, delta);
    assert TanksSound(w3) && AiInvariant(w3.ai) && |w3.barrels| <= MaxBarrels;
    var r := ProcessBullets(w3, |w3.bullets|, delta, env, s.damagePerHit);
    assert StepSpec(env, w, timestamp, keys, pointer, s) == r;
    BulletPhaseSound(w3, delta, env, s.damagePerHit);
    ProcessKeepsTanksAndAi(w3, |w3.bullets|, delta, env, s.damagePerHit);
    ProcessNeverAddsBarrels(w3, |w3.bullets|, delta, env, s.damagePerHit);
    ProcessLeavesBulletsInPlay(w3, |w3.bullets|, delta, env, s.damagePerHit);
  }

  /** A mission outcome, once recorded, is the outcome of every later frame. */
  lemma StepKeepsOutcome(env: Env, w: World, timestamp: real, keys: Input.KeyState, pointer: Point, s: Core.TankSettings)
    requires TwoTanks(w) && w.outcome != NoOutcome
    ensures StepSpec(env, w, timestamp, keys, pointer, s).outcome == w.outcome
  {
    var delta := FrameDelta(timestamp, w.previousTimestamp);
    var w1 := PlayerPhase(env, w.(previousTimestamp := timestamp), delta, keys, pointer, s);
    var w2 := EnemyBehavior(w1, env, delta, s.moveSpeed, s.fireCooldown);
    EnemyBehaviorFrame(w1, env, delta, s.moveSpeed, s.fireCooldown);
    var w3 := UpdateSpawning(w2, env, delta);
    UpdateSpawningFrame(w2, env, delta);
    ProcessKeepsOutcome(w3, |w3.bullets|, delta, env, s.damagePerHit);
  }

  /** A destroyed tank stays where it is, keeps its angles and stays destroyed; only its
      reload timer runs on. The enemy's AI state no longer changes either. */
  lemma DestroyedTankStaysPut(env: Env, w: World, timestamp: real, keys: Input.KeyState, pointer: Point,
                              s: Core.TankSettings, j: nat)
    requires Sound(w) && Playable(s) && j < 2 && w.tanks[j].isDestroyed
    ensures var r := StepSpec(env, w, timestamp, keys, pointer, s);
            r.tanks[j] == w.tanks[j].(reloadTimer := r.tanks[j].reloadTimer) && r.ai == w.ai
  {
    var delta := FrameDelta(timestamp, w.previousTimestamp);
    var w0 := w.(previousTimestamp := timestamp);
    var w1 := PlayerPhase(env, w0, delta, keys, pointer, s);
    assert w1.tanks[j] == w.tanks[j].(reloadTimer := w1.tanks[j].reloadTimer) by {
      var p := DrivePlayer(env.m, w0.tanks[PlayerIndex], keys, delta, s.moveSpeed);
      var tanks1 := Reloaded(w0.tanks[PlayerIndex := p], delta);
      assert tanks1[j] == Reload(w0.tanks[j], delta);
    }
    var w2 := EnemyBehavior(w1, env, delta, s.moveSpeed, s.fireCooldown);
    assert w2 == w1;
    var w3 := UpdateSpawning(w2, env, delta);
    UpdateSpawningFrame(w2, env, delta);
    var r := ProcessBullets(w3, |w3.bullets|, delta, env, s.damagePerHit);
    assert StepSpec(env, w, timestamp, keys, pointer, s) == r;
    assert CombatSound(w3) by {
      assert HealthSound(w1.tanks[PlayerIndex]) && HealthSound(w1.tanks[EnemyIndex]);
    }
    ProcessBulletsSound(w3, |w3.bullets|, delta, env, s.damagePerHit);
    ProcessKeepsTanksAndAi(w3, |w3.bullets|, delta, env, s.damagePerHit);
    assert r.tanks[j] == w3.tanks[j].(health := r.tanks[j].health, isDestroyed := r.tanks[j].isDestroyed);
  }
}
