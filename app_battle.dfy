/** The game loop's closures over their mutable state (app.js): the battle object whose
    methods update the tanks, bullets, barrels, AI state and fog in place, each proved
    against the function on worlds that specifies it. */
module AppBattle {
  import opened Wrappers
  import opened JsMath
  import opened AppRules
  import opened AppBullets
  import opened AppBarrels
  import opened AppAi
  import opened AppGame
  import AppFog
  import Input
  import Core

  class Battle {
    var tanks: seq<Tank>
    var bullets: seq<Bullet>
    var barrels: seq<Barrel>
    var outcome: Outcome
    var barrelSpawnTimer: real
    var ai: AiState
    /** How many `Math.random` results have been used. */
    var draws: nat
    var previousTimestamp: real
    /** `MOVE_SPEED`, `FIRE_COOLDOWN` and `DAMAGE_PER_HIT` of the chosen loadout. */
    const settings: Core.TankSettings
    const fog: AppFog.FogField

    /** The closures' state as a value. */
    ghost function State(): World
      reads this
    {
      World(tanks, bullets, barrels, outcome, barrelSpawnTimer, ai, draws, previousTimestamp)
    }

    ghost predicate Valid()
      reads this, fog
    {
      TwoTanks(State()) && fog.Valid()
    }

    /** The setup code: two tanks, the first spawn wait, the first search target, an empty
        fog grid, and `previousTimestamp = performance.now()`. */
    constructor (env: Env, now: real, settings: Core.TankSettings, hasContext: bool)
      ensures Valid() && State() == InitialWorld(env, now)
      ensures this.settings == settings && fog.hasContext == hasContext && fog.alpha.Length == 0
    {
      tanks := [NewTank(WorldWidth / 2.0, WorldHeight / 2.0, true), NewTank(WorldWidth * 0.75, WorldHeight * 0.35, false)];
      bullets := [];
      barrels := [];
      outcome := NoOutcome;
      barrelSpawnTimer := RandomInRange(env, 0, 0.75, 2.25);
      ai := AiState(Search, false, 0.0, None, 0.0, None, false, 0.0, 0.0, false);
      draws := 1;
      previousTimestamp := now;
      this.settings := settings;
      fog := new AppFog.FogField(hasContext);
      new;
      ai := ai.(searchTarget := Some(PickTarget(env, draws)));
      draws := draws + 2;
    }

    /** `applyDamage(tank, amount)` with `handleMissionFailed`/`handleMissionCompleted`. */
    method ApplyDamageTo(j: nat, amount: real)
      requires j < |tanks|
      modifies this
      ensures State() == ApplyDamage(old(State()), j, amount)
    {
      var t := tanks[j];
      if t.isDestroyed {
        return;
      }
      var health := Max(0.0, t.health - amount);
      tanks := tanks[j := t.(health := health)];
      if health <= 0.0 {
        tanks := tanks[j := tanks[j].(isDestroyed := true)];
        if outcome == NoOutcome {
          outcome := if t.isPlayer then Failed else Completed;
        }
      }
    }

    /** `fireProjectile(tank)`. */
    method FireProjectile(m: MathLib, j: nat)
      requires j < |tanks|
      modifies this
      ensures State() == Fire(old(State()), j, m, settings.fireCooldown)
    {
      var t := tanks[j];
      if t.reloadTimer > 0.0 || t.isDestroyed {
        return;
      }
      var dir := Forward(m, t.turretAngle);
      bullets := bullets + [Bullet(t.x + dir.x * MuzzleDistance, t.y + dir.y * MuzzleDistance, dir.x, dir.y, 0.0, j)];
      tanks := tanks[j := t.(reloadTimer := settings.fireCooldown)];
    }

    /** `aimTurretTowards(tank, targetX, targetY, deltaSeconds, turnRate)`. */
    method AimTurretTowards(m: MathLib, j: nat, tx: real, ty: real, delta: real, turnRate: real)
      requires j < |tanks|
      modifies this
      ensures State() == old(State()).(tanks := old(tanks)[j := AimTurret(m, old(tanks)[j], tx, ty, delta, turnRate)])
    {
      var t := tanks[j];
      if t.isDestroyed {
        assert tanks[j := t] == tanks;
        return;
      }
      var dx := tx - t.x;
      var dy := ty - t.y;
      if Abs(dx) < AimEpsilon && Abs(dy) < AimEpsilon {
        assert tanks[j := t] == tanks;
        return;
      }
      var current := t.turretAngle;
      var applied := ClampTurn(ShortestArc(Heading(m, dx, dy), current), TurnBudget(turnRate, delta));
      var aimed := t.(turretAngle := WrapDeg(current + applied));
      tanks := tanks[j := aimed];
    }

    /** The `allTanks.forEach` reload countdown in `step`. */
    method ReloadAll(delta: real)
      modifies this
      ensures State() == old(State()).(tanks := Reloaded(old(tanks), delta))
    {
      for i := 0 to |tanks|
        invariant |tanks| == |old(tanks)|
        invariant State() == old(State()).(tanks := tanks)
        invariant forall k :: 0 <= k < i ==> tanks[k] == Reload(old(tanks)[k], delta)
        invariant forall k :: i <= k < |tanks| ==> tanks[k] == old(tanks)[k]
      {
        var t := tanks[i];
        if t.reloadTimer > 0.0 {
          tanks := tanks[i := t.(reloadTimer := Max(0.0, t.reloadTimer - delta))];
        }
      }
    }

    /** `updateEnemyBehavior(deltaSeconds)`. */
    method UpdateEnemyBehavior(env: Env, delta: real)
      requires TwoTanks(State())
      modifies this
      ensures State() == EnemyBehavior(old(State()), env, delta, settings.moveSpeed, settings.fireCooldown)
    {
      if tanks[EnemyIndex].isDestroyed || tanks[PlayerIndex].isDestroyed {
        return;
      }
      var d := Decide(env, ai, tanks[PlayerIndex], tanks[EnemyIndex], delta, settings.moveSpeed, draws);
      tanks := tanks[EnemyIndex := d.enemy];
      ai := d.ai;
      draws := d.draws;
      if d.fire {
        FireProjectile(env.m, EnemyIndex);
      }
    }

    /** `canPlaceBarrelAt(x, y)`. */
    method CanPlaceAt(m: MathLib, x: real, y: real) returns (ok: bool)
      ensures ok == CanPlace(m, barrels, tanks, x, y)
    {
      if !(x >= BarrelHalfWidth && y >= BarrelHalfHeight && x <= WorldWidth - BarrelHalfWidth && y <= WorldHeight - BarrelHalfHeight) {
        return false;
      }
      for i := 0 to |barrels|
        invariant forall k :: 0 <= k < i ==> !(m.Hypot(barrels[k].x - x, barrels[k].y - y) < BarrelAvoidRadius)
      {
        if m.Hypot(barrels[i].x - x, barrels[i].y - y) < BarrelAvoidRadius {
          return false;
        }
      }
      for i := 0 to |tanks|
        invariant forall k :: 0 <= k < i ==> !(m.Hypot(tanks[k].x - x, tanks[k].y - y) < TankAvoidRadius)
      {
        if m.Hypot(tanks[i].x - x, tanks[i].y - y) < TankAvoidRadius {
          return false;
        }
      }
      return true;
    }

    /** `spawnBarrel()`: up to 25 candidate spots, the first free one taken. */
    method SpawnBarrel(env: Env) returns (spawned: bool)
      modifies this
      ensures (State(), spawned) == AppBarrels.SpawnBarrel(old(State()), env)
    {
      if |barrels| >= MaxBarrels {
        return false;
      }
      ghost var goal := SpawnFrom(old(State()), env, 0);
      var attempt := 0;
      while attempt < SpawnAttempts
        invariant 0 <= attempt <= SpawnAttempts
        invariant SpawnFrom(State(), env, attempt) == goal
      {
        var placed := TryCandidate(env);
        if placed {
          return true;
        }
        attempt := attempt + 1;
      }
      return false;
    }

    /** One pass of the `spawnBarrel` loop: draw a spot and place the barrel there if free. */
    method TryCandidate(env: Env) returns (placed: bool)
      modifies this
      ensures (State(), placed) == Attempt(old(State()), env)
    {
      var candidateX := RandomInRange(env, draws, SpawnMinX, SpawnMaxX);
      var candidateY := RandomInRange(env, draws + 1, SpawnMinY, SpawnMaxY);
      draws := draws + 2;
      placed := CanPlaceAt(env.m, candidateX, candidateY);
      if placed {
        barrels := barrels + [ClampBarrel(Barrel(candidateX, candidateY))];
      }
    }

    /** `updateBarrelSpawning(deltaSeconds)`. */
    method UpdateBarrelSpawning(env: Env, delta: real)
      modifies this
      ensures State() == UpdateSpawning(old(State()), env, delta)
    {
      if |barrels| >= MaxBarrels {
        barrelSpawnTimer := RandomInRange(env, draws, RespawnMin, RespawnMax);
        draws := draws + 1;
        return;
      }
      barrelSpawnTimer := barrelSpawnTimer - delta;
      FinishCountdown(env);
    }

    /** The end of `updateBarrelSpawning` once the timer has been counted down: nothing more
        while it runs, otherwise a spawn and then the next wait. */
    method FinishCountdown(env: Env)
      modifies this
      ensures State() == AfterCountdown(old(State()), env)
    {
      if barrelSpawnTimer > 0.0 {
        return;
      }
      var spawned := SpawnBarrel(env);
      barrelSpawnTimer := RandomInRange(env, draws, if spawned then RespawnMin else RetryMin,
                                        if spawned then RespawnMax else RetryMax);
      draws := draws + 1;
    }

    /** `applyExplosionDamage(centerX, centerY)`. */
    method ApplyExplosionDamage(m: MathLib, cx: real, cy: real)
      modifies this
      ensures State() == ExplodeFrom(old(State()), m, cx, cy, 0)
    {
      for j := 0 to |tanks|
        invariant |tanks| == |old(tanks)|
        invariant ExplodeFrom(State(), m, cx, cy, j) == ExplodeFrom(old(State()), m, cx, cy, 0)
      {
        BlastTank(m, cx, cy, j);
      }
    }

    /** The `forEach` callback of `applyExplosionDamage` for tank `j`. */
    method BlastTank(m: MathLib, cx: real, cy: real, j: nat)
      requires j < |tanks|
      modifies this
      ensures State() == BlastAt(old(State()), m, cx, cy, j)
    {
      var t := tanks[j];
      var distance := m.Hypot(t.x - cx, t.y - cy);
      if !t.isDestroyed && distance <= ExplosionRadius {
        ApplyDamageTo(j, BlastDamage(distance));
      }
    }

    /** `triggerBarrelExplosion(barrel, index)`. */
    method TriggerBarrelExplosion(env: Env, n: nat)
      requires n < |barrels|
      modifies this
      ensures State() == TriggerExplosion(old(State()), n, env)
    {
      var barrel := barrels[n];
      barrels := Remove(barrels, n);
      ApplyExplosionDamage(env.m, barrel.x, barrel.y);
      barrelSpawnTimer := RandomInRange(env, draws, BarrelRespawnMin * 0.4, BarrelRespawnMin);
      draws := draws + 1;
    }

    /** The `updateBullets` scan of `allTanks` for the first tank the bullet at `b` hits. */
    method FindTankHit(b: Bullet) returns (r: Option<nat>)
      ensures r == FirstTankHit(b, tanks, 0)
    {
      var target := 0;
      while target < |tanks|
        invariant 0 <= target <= |tanks|
        invariant FirstTankHit(b, tanks, target) == FirstTankHit(b, tanks, 0)
      {
        var t := tanks[target];
        if target != b.owner && !t.isDestroyed && Abs(b.x - t.x) <= HalfChassisWidth && Abs(b.y - t.y) <= HalfChassisHeight {
          return Some(target);
        }
        target := target + 1;
      }
      return None;
    }

    /** The `updateBullets` scan of `barrels`, from the last, for one the bullet at `b`
        hits. */
    method FindBarrelHit(m: MathLib, b: Bullet) returns (r: Option<nat>)
      ensures r == LastBarrelHit(m, b, barrels, |barrels|)
    {
      var n := |barrels|;
      while n > 0
        invariant 0 <= n <= |barrels|
        invariant LastBarrelHit(m, b, barrels, n) == LastBarrelHit(m, b, barrels, |barrels|)
      {
        var barrel := barrels[n - 1];
        if m.Hypot(b.x - barrel.x, b.y - barrel.y) <= BarrelHitRadius {
          return Some(n - 1);
        }
        n := n - 1;
      }
      return None;
    }

    /** The body of the `updateBullets` loop for the bullet at index `k`. */
    method UpdateBullet(env: Env, k: nat, delta: real)
      requires k < |bullets|
      modifies this
      ensures State() == BulletStep(old(State()), k, delta, env, settings.damagePerHit)
    {
      ghost var w := State();
      var b := Advance(bullets[k], delta);
      var rest := Remove(bullets, k);
      if Gone(b) {
        bullets := rest;
        return;
      }
      var tankHit := FindTankHit(b);
      if tankHit.Some? {
        ApplyDamageTo(tankHit.value, settings.damagePerHit);
        assert State() == ApplyDamage(w, tankHit.value, settings.damagePerHit);
        bullets := rest;
        assert State() == ApplyDamage(w.(bullets := rest), tankHit.value, settings.damagePerHit);
        return;
      }
      var barrelHit := FindBarrelHit(env.m, b);
      if barrelHit.Some? {
        bullets := rest;
        TriggerBarrelExplosion(env, barrelHit.value);
        return;
      }
      bullets := bullets[k := b];
    }

    /** `updateBullets(deltaSeconds)`: every bullet, from the last one down. */
    method UpdateBullets(env: Env, delta: real)
      modifies this
      ensures State() == ProcessBullets(old(State()), |old(bullets)|, delta, env, settings.damagePerHit)
    {
      var index: nat := |bullets|;
      while index > 0
        invariant index <= |bullets|
        invariant ProcessBullets(State(), index, delta, env, settings.damagePerHit) ==
                  ProcessBullets(old(State()), |old(bullets)|, delta, env, settings.damagePerHit)
      {
        UpdateBullet(env, index - 1, delta);
        index := index - 1;
      }
    }

    /** The player's part of `step`: driving, the reload countdown, firing and aiming. */
    method PlayerControls(env: Env, delta: real, keys: Input.KeyState, pointer: Point)
      requires TwoTanks(State())
      modifies this
      ensures State() == PlayerPhase(env, old(State()), delta, keys, pointer, settings)
    {
      ghost var w0 := State();
      var player := DrivePlayer(env.m, tanks[PlayerIndex], keys, delta, settings.moveSpeed);
      ghost var driven := player;
      tanks := tanks[PlayerIndex := player];

      ReloadAll(delta);
      ghost var w1 := State();
      assert w1 == w0.(tanks := Reloaded(w0.tanks[PlayerIndex := driven], delta));
      if keys.firing && tanks[PlayerIndex].reloadTimer <= 0.0 && !tanks[PlayerIndex].isDestroyed {
        FireProjectile(env.m, PlayerIndex);
      }
      ghost var w2 := State();
      assert w2 == if keys.firing && w1.tanks[PlayerIndex].reloadTimer <= 0.0 && !w1.tanks[PlayerIndex].isDestroyed
                   then Fire(w1, PlayerIndex, env.m, settings.fireCooldown) else w1;
      AimTurretTowards(env.m, PlayerIndex, pointer.x, pointer.y, delta, AimTurnRate);
    }

    /** `step(timestamp)`: one frame of the game, followed by `renderFog`. */
    method Step(env: Env, timestamp: real, keys: Input.KeyState, pointer: Point)
      requires Valid()
      modifies this, fog, fog.alpha
      ensures Valid()
      ensures State() == StepSpec(env, old(State()), timestamp, keys, pointer, settings)
      ensures var delta := FrameDelta(timestamp, old(previousTimestamp));
              && (!fog.hasContext || outcome.Completed? ==> fog.alpha[..] == old(fog.alpha[..]))
              && (fog.hasContext && outcome.Failed? ==> fog.alpha[..] == AppFog.Grid(old(fog.alpha[..])))
              && (fog.hasContext && outcome.NoOutcome? ==>
                    fog.alpha[..] == AppFog.FieldAfter(env.m, old(fog.alpha[..]), delta, tanks[PlayerIndex],
                                                       tanks[EnemyIndex], ai.visibleToPlayer))
    {
      ghost var w := State();
      var delta := Min(0.05, (timestamp - previousTimestamp) / 1000.0);
      previousTimestamp := timestamp;
      PlayerControls(env, delta, keys, pointer);
      ghost var w1 := State();
      assert w1 == PlayerPhase(env, w.(previousTimestamp := timestamp), FrameDelta(timestamp, w.previousTimestamp), keys, pointer, settings);
      UpdateEnemyBehavior(env, delta);
      EnemyBehaviorFrame(w1, env, delta, settings.moveSpeed, settings.fireCooldown);
      UpdateBarrelSpawning(env, delta);
      UpdateBullets(env, delta);
      assert State() == StepSpec(env, w, timestamp, keys, pointer, settings);
      fog.Render(env.m, delta, outcome, tanks[PlayerIndex], tanks[EnemyIndex], ai.visibleToPlayer);
    }
  }
}
