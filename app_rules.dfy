/** The state of a single-player battle (app.js) and the rules for one tank: turret
    aiming, damage with the mission-outcome latch, firing and clamped movement. */
module AppRules {
  import opened Wrappers
  import opened JsMath
  import Core

  /** `Math.round(BASE_VIEWPORT_WIDTH * MAP_SCALE)` and the same for the height: the same
      world as the multiplayer version. */
  const WorldWidth: real := Core.WorldWidth
  const WorldHeight: real := Core.WorldHeight

  const TurnSpeed: real := 140.0
  const BulletSpeed: real := 580.0
  const BulletLifetime: real := 2.2
  const HalfChassisWidth: real := 40.0
  const HalfChassisHeight: real := 48.0
  const MuzzleDistance: real := 60.0
  /** The default `turnRate` of `aimTurretTowards`. */
  const AimTurnRate: real := 160.0
  /** Below this offset on both axes the turret does not move. */
  const AimEpsilon: real := 0.0001

  /** `tank.state`. */
  datatype Tank = Tank(
    x: real, y: real, hullAngle: real, turretAngle: real,
    reloadTimer: real, health: real, isPlayer: bool, isDestroyed: bool)

  /** A bullet; `owner` is the index of the firing tank in `allTanks`. */
  datatype Bullet = Bullet(x: real, y: real, dirX: real, dirY: real, liveTime: real, owner: nat)

  datatype Barrel = Barrel(x: real, y: real)

  /** `MissionOutcome`. */
  datatype Outcome = NoOutcome | Failed | Completed

  datatype Point = Point(x: real, y: real)

  datatype Mode = Search | Alert | Engage

  /** `enemyAiState`. */
  datatype AiState = AiState(
    mode: Mode,
    playerVisible: bool,
    reactionTimer: real,
    searchTarget: Option<Point>,
    searchIdleTime: real,
    lastSeenPosition: Option<Point>,
    pendingInvestigate: bool,
    playerVisibilityTimer: real,
    seenByPlayerTimer: real,
    visibleToPlayer: bool)

  /** Everything the game loop's closures update: `allTanks` (the player at index 0, the
      enemy at index 1), `bullets`, `barrels`, `missionOutcome`, `barrelSpawnTimer`,
      `enemyAiState`, the number of `Math.random` draws taken so far, and
      `previousTimestamp`. */
  datatype World = World(
    tanks: seq<Tank>,
    bullets: seq<Bullet>,
    barrels: seq<Barrel>,
    outcome: Outcome,
    barrelSpawnTimer: real,
    ai: AiState,
    draws: nat,
    previousTimestamp: real)

  const PlayerIndex: nat := 0
  const EnemyIndex: nat := 1

  /** The two tanks are in place. */
  predicate TwoTanks(w: World) {
    |w.tanks| == 2 && w.tanks[PlayerIndex].isPlayer && !w.tanks[EnemyIndex].isPlayer
  }

  /** The library functions, and `Math.random` as the stream of its successive results. */
  datatype Env = Env(m: MathLib, random: nat -> real)
  {
    ghost predicate Valid() {
      m.Valid() && RandomValid()
    }

    /** Every draw of `Math.random` lies in [0, 1). */
    ghost predicate RandomValid() {
      forall k: nat :: 0.0 <= random(k) < 1.0
    }
  }

  /** `clamp(value, min, max)`. */
  function Clamp(v: real, lo: real, hi: real): (r: real)
    ensures lo <= hi ==> lo <= r <= hi
    ensures lo <= v <= hi ==> r == v
  {
    Min(hi, Max(lo, v))
  }

  /** `randomInRange(min, max)` with the `k`-th draw of `Math.random`. */
  function RandomInRange(env: Env, k: nat, lo: real, hi: real): real {
    env.random(k) * (hi - lo) + lo
  }

  lemma RandomInRangeBounds(env: Env, k: nat, lo: real, hi: real)
    requires env.RandomValid() && lo <= hi
    ensures lo <= RandomInRange(env, k, lo, hi) <= hi
    ensures lo < hi ==> RandomInRange(env, k, lo, hi) < hi
  {
    var u := env.random(k);
    var d := hi - lo;
    assert RandomInRange(env, k, lo, hi) == u * d + lo;
    NonNegMul(u, d);
    NonNegMul(1.0 - u, d);
    assert (1.0 - u) * d == d - u * d;
    if lo < hi {
      PosMul(1.0 - u, d);
      assert u * d < d;
    }
  }

  /** `forwardComponents(angleDeg)`: the unit heading of an angle measured clockwise from
      up. */
  function Forward(m: MathLib, angle: real): (p: Point)
    ensures m.Valid() ==> -1.0 <= p.x <= 1.0 && -1.0 <= p.y <= 1.0
  {
    Point(m.sinDeg(angle), -m.cosDeg(angle))
  }

  /** `Math.atan2(dx, -dy)` in degrees, moved into [0, 360). */
  function Heading(m: MathLib, dx: real, dy: real): (a: real)
    ensures m.Valid() ==> 0.0 <= a < 360.0
  {
    var d := m.atan2Deg(dx, -dy);
    if d < 0.0 then d + 360.0 else d
  }

  /** The turn `Math.abs(diff) > max ? Math.sign(diff) * max : diff` after the shortest arc
      from `current` to `desired`. */
  function Turn(desired: real, current: real, maxTurn: real): real {
    ClampTurn(ShortestArc(desired, current), maxTurn)
  }

  /** How far a turret may turn in one frame: its turn rate times the frame time. */
  function TurnBudget(turnRate: real, delta: real): real {
    turnRate * delta
  }

  /** `aimTurretTowards(tank, targetX, targetY, delta, turnRate)`. */
  function AimTurret(m: MathLib, t: Tank, tx: real, ty: real, delta: real, turnRate: real): (r: Tank)
    ensures r == t.(turretAngle := r.turretAngle)
    ensures t.isDestroyed ==> r == t
    ensures Abs(tx - t.x) < AimEpsilon && Abs(ty - t.y) < AimEpsilon ==> r == t
  {
    if t.isDestroyed then t
    else
      var dx := tx - t.x;
      var dy := ty - t.y;
      if Abs(dx) < AimEpsilon && Abs(dy) < AimEpsilon then t
      else t.(turretAngle := WrapDeg(t.turretAngle + Turn(Heading(m, dx, dy), t.turretAngle, TurnBudget(turnRate, delta))))
  }

  /** A turn of less than half a circle from an angle in [0, 360) lands in [0, 360), and
      the shortest arc back from where it lands is that turn. */
  lemma TurnLands(current: real, a: real)
    requires 0.0 <= current < 360.0 && -180.0 <= a < 180.0
    ensures 0.0 <= WrapDeg(current + a) < 360.0
    ensures ShortestArc(WrapDeg(current + a), current) == a
  {
    var r := WrapDeg(current + a);
    var q := Trunc((current + a + 360.0) / 360.0);
    assert r == current + a + 360.0 - 360.0 * (q as real);
    ModOfShift(a + 180.0, 2 - q);
    assert r - current + 540.0 == (a + 180.0) + 360.0 * ((2 - q) as real);
  }

  /** `x % 360` of a non-negative number that is `h` plus whole turns is `h`. */
  lemma ModOfShift(h: real, k: int)
    requires 0.0 <= h < 360.0 && h + 360.0 * (k as real) >= 0.0
    ensures JsMod360(h + 360.0 * (k as real)) == h
  {
    var x := h + 360.0 * (k as real);
    assert x / 360.0 == h / 360.0 + k as real;
    assert k as real <= x / 360.0 < (k + 1) as real;
    assert Trunc(x / 360.0) == k;
  }

  /** One bounded turn from an angle in [0, 360) towards a heading in [0, 360) lands in
      [0, 360), moves by at most the budget along the shortest arc, and reaches the heading
      when it is within the budget. */
  lemma TurnStep(current: real, h: real, maxTurn: real)
    requires 0.0 <= current < 360.0 && 0.0 <= h < 360.0 && maxTurn >= 0.0
    ensures var r := WrapDeg(current + Turn(h, current, maxTurn));
            0.0 <= r < 360.0 && Abs(ShortestArc(r, current)) <= maxTurn &&
            (Abs(ShortestArc(h, current)) <= maxTurn ==> r == h)
  {
    TurnLands(current, Turn(h, current, maxTurn));
    if Abs(ShortestArc(h, current)) <= maxTurn {
      ArcReaches(h, current);
    }
  }

  /** The turret turns by at most `turnRate * delta` along the shortest arc and stays in
      [0, 360); when the target's heading is within reach the turret points straight at
      it. */
  lemma AimTurretBounded(m: MathLib, t: Tank, tx: real, ty: real, delta: real, turnRate: real)
    requires m.Valid() && 0.0 <= t.turretAngle < 360.0 && TurnBudget(turnRate, delta) >= 0.0
    ensures 0.0 <= AimTurret(m, t, tx, ty, delta, turnRate).turretAngle < 360.0
    ensures Abs(ShortestArc(AimTurret(m, t, tx, ty, delta, turnRate).turretAngle, t.turretAngle)) <= TurnBudget(turnRate, delta)
    ensures !t.isDestroyed && !(Abs(tx - t.x) < AimEpsilon && Abs(ty - t.y) < AimEpsilon) &&
            Abs(ShortestArc(Heading(m, tx - t.x, ty - t.y), t.turretAngle)) <= TurnBudget(turnRate, delta) ==>
              AimTurret(m, t, tx, ty, delta, turnRate).turretAngle == Heading(m, tx - t.x, ty - t.y)
  {
    if t.isDestroyed || (Abs(tx - t.x) < AimEpsilon && Abs(ty - t.y) < AimEpsilon) {
      ArcToSelf(t.turretAngle);
    } else {
      var h := Heading(m, tx - t.x, ty - t.y);
      AimTurns(m, t, tx, ty, delta, turnRate);
      TurnStep(t.turretAngle, h, TurnBudget(turnRate, delta));
    }
  }

  /** A live tank aiming at a target that is not under it turns by the bounded shortest arc
      towards the target's heading. */
  lemma AimTurns(m: MathLib, t: Tank, tx: real, ty: real, delta: real, turnRate: real)
    requires !t.isDestroyed && !(Abs(tx - t.x) < AimEpsilon && Abs(ty - t.y) < AimEpsilon)
    ensures AimTurret(m, t, tx, ty, delta, turnRate).turretAngle ==
              WrapDeg(t.turretAngle + Turn(Heading(m, tx - t.x, ty - t.y), t.turretAngle, TurnBudget(turnRate, delta)))
  {
  }

  /** The shortest arc from an angle to itself is no turn at all. */
  lemma ArcToSelf(c: real)
    ensures ShortestArc(c, c) == 0.0
  {
    ModOfShift(180.0, 1);
  }

  /** Turning by the whole shortest arc lands exactly on the target angle. */
  lemma ArcReaches(h: real, c: real)
    requires 0.0 <= h < 360.0 && 0.0 <= c < 360.0
    ensures WrapDeg(c + ShortestArc(h, c)) == h
  {
    var x := h - c + 540.0;
    var q := Trunc(x / 360.0);
    assert ShortestArc(h, c) == x - 360.0 * (q as real) - 180.0;
    assert c + ShortestArc(h, c) + 360.0 == h + 360.0 * ((2 - q) as real);
    ModOfShift(h, 2 - q);
  }

  /** The tank after `applyDamage(tank, amount)`: a destroyed tank is left alone; otherwise
      health drops, is floored at 0, and the tank is destroyed when it reaches 0. */
  function Damage(t: Tank, amount: real): (r: Tank)
    ensures t.isDestroyed ==> r == t
    ensures !t.isDestroyed ==> r == t.(health := r.health, isDestroyed := r.isDestroyed)
    ensures !t.isDestroyed ==> r.health == Max(0.0, t.health - amount) && r.health >= 0.0
    ensures !t.isDestroyed ==> (r.isDestroyed <==> t.health - amount <= 0.0)
    ensures amount >= 0.0 && !t.isDestroyed ==> r.health <= Max(0.0, t.health)
  {
    if t.isDestroyed then t
    else
      var h := Max(0.0, t.health - amount);
      t.(health := h, isDestroyed := h <= 0.0)
  }

  /** `handleMissionFailed`/`handleMissionCompleted`: an outcome is recorded only while
      none is. */
  function Latch(current: Outcome, next: Outcome): (r: Outcome)
    ensures current != NoOutcome ==> r == current
    ensures current == NoOutcome ==> r == next
  {
    if current == NoOutcome then next else current
  }

  /** The outcome a tank's destruction reports. */
  function OutcomeOf(t: Tank): Outcome {
    if t.isPlayer then Failed else Completed
  }

  /** `applyDamage` on the tank at index `j`. */
  function ApplyDamage(w: World, j: nat, amount: real): (r: World)
    requires j < |w.tanks|
    ensures r == w.(tanks := r.tanks, outcome := r.outcome)
    ensures |r.tanks| == |w.tanks| && r.tanks[j] == Damage(w.tanks[j], amount)
    ensures forall i :: 0 <= i < |w.tanks| && i != j ==> r.tanks[i] == w.tanks[i]
    ensures w.outcome != NoOutcome ==> r.outcome == w.outcome
    ensures r.outcome != w.outcome <==>
              w.outcome == NoOutcome && !w.tanks[j].isDestroyed && r.tanks[j].isDestroyed
    ensures r.outcome != w.outcome ==> r.outcome == OutcomeOf(w.tanks[j])
  {
    var t := w.tanks[j];
    if t.isDestroyed then w
    else
      var t' := Damage(t, amount);
      w.(tanks := w.tanks[j := t'],
         outcome := if t'.isDestroyed then Latch(w.outcome, OutcomeOf(t)) else w.outcome)
  }

  /** Once there is an outcome, no damage changes it; the first destruction decides. */
  lemma {:induction false} FirstOutcomeWins(w: World, j1: nat, a1: real, j2: nat, a2: real)
    requires j1 < |w.tanks| && j2 < |w.tanks|
    requires ApplyDamage(w, j1, a1).outcome != NoOutcome
    ensures ApplyDamage(ApplyDamage(w, j1, a1), j2, a2).outcome == ApplyDamage(w, j1, a1).outcome
  {
  }

  /** Destroying both tanks in that order reports the player's loss, even though the enemy
      goes down too. */
  lemma PlayerFirstMeansFailed(w: World)
    requires TwoTanks(w) && w.outcome == NoOutcome
    requires !w.tanks[0].isDestroyed && !w.tanks[1].isDestroyed
    requires w.tanks[0].health <= 1.0 && w.tanks[1].health <= 1.0
    ensures var r := ApplyDamage(ApplyDamage(w, 0, 1.0), 1, 1.0);
            r.tanks[0].isDestroyed && r.tanks[1].isDestroyed && r.outcome == Failed
  {
  }

  /** Health lies in [0, 1] and the tank is destroyed exactly when none is left. */
  predicate HealthSound(t: Tank) {
    0.0 <= t.health <= 1.0 && (t.isDestroyed <==> t.health == 0.0)
  }

  /** Both tanks are sound, and the outcome agrees with them: none while both stand, a
      failure only once the player is down, a completion only once the enemy is. */
  predicate CombatSound(w: World) {
    && TwoTanks(w) && HealthSound(w.tanks[PlayerIndex]) && HealthSound(w.tanks[EnemyIndex])
    && (w.outcome == NoOutcome ==> !w.tanks[PlayerIndex].isDestroyed && !w.tanks[EnemyIndex].isDestroyed)
    && (w.outcome == Failed ==> w.tanks[PlayerIndex].isDestroyed)
    && (w.outcome == Completed ==> w.tanks[EnemyIndex].isDestroyed)
  }

  /** `after` is `before` with health lost and destruction gained, and nothing else. */
  predicate Worn(before: seq<Tank>, after: seq<Tank>) {
    |before| == |after| &&
    forall i :: 0 <= i < |before| ==>
      && after[i] == before[i].(health := after[i].health, isDestroyed := after[i].isDestroyed)
      && after[i].health <= before[i].health
      && (before[i].isDestroyed ==> after[i].isDestroyed)
  }

  lemma WornTransitive(a: seq<Tank>, b: seq<Tank>, c: seq<Tank>)
    requires Worn(a, b) && Worn(b, c)
    ensures Worn(a, c)
  {
    assert forall i :: 0 <= i < |a| ==> c[i] == a[i].(health := c[i].health, isDestroyed := c[i].isDestroyed) by {
      forall i | 0 <= i < |a| ensures c[i] == a[i].(health := c[i].health, isDestroyed := c[i].isDestroyed) {
        assert b[i] == a[i].(health := b[i].health, isDestroyed := b[i].isDestroyed);
        assert c[i] == b[i].(health := c[i].health, isDestroyed := c[i].isDestroyed);
      }
    }
  }

  /** Non-negative damage keeps a sound tank sound and only wears it. */
  lemma ApplyDamageSound(w: World, j: nat, amount: real)
    requires CombatSound(w) && j < |w.tanks| && amount >= 0.0
    ensures CombatSound(ApplyDamage(w, j, amount))
    ensures Worn(w.tanks, ApplyDamage(w, j, amount).tanks)
  {
    var r := ApplyDamage(w, j, amount);
    assert j == PlayerIndex || j == EnemyIndex;
    assert HealthSound(r.tanks[j]);
    assert r.tanks[1 - j] == w.tanks[1 - j];
  }

  /** `fireProjectile` for the tank at index `j`: nothing while reloading or destroyed;
      otherwise one bullet leaves the muzzle along the turret and the reload restarts. */
  function Fire(w: World, j: nat, m: MathLib, fireCooldown: real): (r: World)
    requires j < |w.tanks|
    ensures r == w.(tanks := r.tanks, bullets := r.bullets)
    ensures |r.tanks| == |w.tanks| && forall i :: 0 <= i < |w.tanks| && i != j ==> r.tanks[i] == w.tanks[i]
    ensures w.tanks[j].reloadTimer > 0.0 || w.tanks[j].isDestroyed ==> r == w
    ensures !(w.tanks[j].reloadTimer > 0.0 || w.tanks[j].isDestroyed) ==>
              && r.tanks[j] == w.tanks[j].(reloadTimer := fireCooldown)
              && |r.bullets| == |w.bullets| + 1 && r.bullets[..|w.bullets|] == w.bullets
              && var b := r.bullets[|w.bullets|];
                 b.owner == j && b.liveTime == 0.0 &&
                 b.x == w.tanks[j].x + b.dirX * MuzzleDistance && b.y == w.tanks[j].y + b.dirY * MuzzleDistance &&
                 Point(b.dirX, b.dirY) == Forward(m, w.tanks[j].turretAngle)
  {
    var t := w.tanks[j];
    if t.reloadTimer > 0.0 || t.isDestroyed then w
    else
      var dir := Forward(m, t.turretAngle);
      var b := Bullet(t.x + dir.x * MuzzleDistance, t.y + dir.y * MuzzleDistance, dir.x, dir.y, 0.0, j);
      w.(bullets := w.bullets + [b], tanks := w.tanks[j := t.(reloadTimer := fireCooldown)])
  }

  /** Both axes of the field a tank's centre may occupy. */
  predicate InField(t: Tank) {
    HalfChassisWidth <= t.x <= WorldWidth - HalfChassisWidth &&
    HalfChassisHeight <= t.y <= WorldHeight - HalfChassisHeight
  }

  /** Where a move of `amount` along `heading` from `(x, y)` would end without the field's
      walls. */
  function Ahead(m: MathLib, x: real, y: real, heading: real, amount: real): Point {
    var dir := Forward(m, heading);
    Point(x + dir.x * amount, y + dir.y * amount)
  }

  /** Where a move of `amount` along `heading` from `(x, y)` ends, clamped to the field as
      in the player and enemy movement code. */
  function Driven(m: MathLib, x: real, y: real, heading: real, amount: real): (p: Point)
    ensures HalfChassisWidth <= p.x <= WorldWidth - HalfChassisWidth
    ensures HalfChassisHeight <= p.y <= WorldHeight - HalfChassisHeight
  {
    var a := Ahead(m, x, y, heading, amount);
    Point(Clamp(a.x, HalfChassisWidth, Max(HalfChassisWidth, WorldWidth - HalfChassisWidth)),
          Clamp(a.y, HalfChassisHeight, Max(HalfChassisHeight, WorldHeight - HalfChassisHeight)))
  }

  /** How far a tank moves in one frame: its move input (-1, 0 or 1) times its speed times
      the frame time. */
  function Travel(input: int, speed: real, delta: real): real {
    input as real * speed * delta
  }

  /** A tank driven by `amount` along its hull. */
  function MoveTank(m: MathLib, t: Tank, amount: real): (r: Tank)
    ensures r == t.(x := r.x, y := r.y)
    ensures InField(r)
    ensures Point(r.x, r.y) == Driven(m, t.x, t.y, t.hullAngle, amount)
  {
    var p := Driven(m, t.x, t.y, t.hullAngle, amount);
    t.(x := p.x, y := p.y)
  }

  /** A move that stays inside the field is not clamped. */
  lemma MoveInsideIsExact(m: MathLib, t: Tank, amount: real)
    requires var a := Ahead(m, t.x, t.y, t.hullAngle, amount); InField(t.(x := a.x, y := a.y))
    ensures Point(MoveTank(m, t, amount).x, MoveTank(m, t, amount).y) == Ahead(m, t.x, t.y, t.hullAngle, amount)
  {
    var a := Ahead(m, t.x, t.y, t.hullAngle, amount);
    assert Driven(m, t.x, t.y, t.hullAngle, amount) == a;
  }

  /** A hull turn towards `desired` of at most `maxTurn`. */
  function TurnHull(t: Tank, desired: real, maxTurn: real): (r: Tank)
    ensures r == t.(hullAngle := r.hullAngle)
  {
    t.(hullAngle := WrapDeg(t.hullAngle + Turn(desired, t.hullAngle, maxTurn)))
  }

  /** The hull turns by at most `maxTurn` along the shortest arc and stays in [0, 360). */
  lemma TurnHullBounded(t: Tank, desired: real, maxTurn: real)
    requires 0.0 <= t.hullAngle < 360.0 && maxTurn >= 0.0 && 0.0 <= desired < 360.0
    ensures 0.0 <= TurnHull(t, desired, maxTurn).hullAngle < 360.0
    ensures Abs(ShortestArc(TurnHull(t, desired, maxTurn).hullAngle, t.hullAngle)) <= maxTurn
  {
    TurnLands(t.hullAngle, Turn(desired, t.hullAngle, maxTurn));
  }

  /** `clampTankPosition`. */
  function ClampPosition(t: Tank): (r: Tank)
    ensures r == t.(x := r.x, y := r.y)
    ensures InField(r)
    ensures InField(t) ==> r == t
  {
    t.(x := Clamp(t.x, HalfChassisWidth, WorldWidth - HalfChassisWidth),
       y := Clamp(t.y, HalfChassisHeight, WorldHeight - HalfChassisHeight))
  }

  /** A tank as `createTank` makes it. */
  function NewTank(x: real, y: real, isPlayer: bool): (t: Tank)
    ensures t.health == 1.0 && !t.isDestroyed && t.reloadTimer == 0.0
    ensures t.hullAngle == 0.0 && t.turretAngle == 0.0 && t.isPlayer == isPlayer
  {
    Tank(x, y, 0.0, 0.0, 0.0, 1.0, isPlayer, false)
  }
}
