/** The bullet pass of the single-player game (app.js `updateBullets`) and the barrel
    explosions it sets off. */
module AppBullets {
  import opened Wrappers
  import opened JsMath
  import opened AppRules

  /** How far outside the world a bullet may fly before it is dropped. */
  const BulletMargin: real := 20.0
  /** `Math.max(BARREL_HALF_WIDTH, BARREL_HALF_HEIGHT) + 6`. */
  const BarrelHitRadius: real := 28.0
  const ExplosionRadius: real := 150.0
  const ExplosionDamage: real := 0.55
  const BarrelRespawnMin: real := 6.0

  /** A bullet after `delta` seconds of flight. */
  function Advance(b: Bullet, delta: real): Bullet {
    b.(x := b.x + b.dirX * BulletSpeed * delta, y := b.y + b.dirY * BulletSpeed * delta,
       liveTime := b.liveTime + delta)
  }

  /** Expired, or too far outside the world. */
  predicate Gone(b: Bullet) {
    b.liveTime > BulletLifetime ||
    b.x < -BulletMargin || b.x > WorldWidth + BulletMargin ||
    b.y < -BulletMargin || b.y > WorldHeight + BulletMargin
  }

  /** The box test against the tank at index `j`, which must be neither the bullet's owner
      nor destroyed. */
  predicate HitsTank(b: Bullet, t: Tank, j: nat) {
    j != b.owner && !t.isDestroyed &&
    Abs(b.x - t.x) <= HalfChassisWidth && Abs(b.y - t.y) <= HalfChassisHeight
  }

  /** The first tank, from index `from` on, that the bullet hits. */
  function FirstTankHit(b: Bullet, tanks: seq<Tank>, from: nat): (r: Option<nat>)
    requires from <= |tanks|
    ensures r.Some? ==> from <= r.value < |tanks| && HitsTank(b, tanks[r.value], r.value)
    ensures r.Some? ==> forall j :: from <= j < r.value ==> !HitsTank(b, tanks[j], j)
    ensures r.None? <==> forall j :: from <= j < |tanks| ==> !HitsTank(b, tanks[j], j)
    decreases |tanks| - from
  {
    if from == |tanks| then None
    else if HitsTank(b, tanks[from], from) then Some(from)
    else FirstTankHit(b, tanks, from + 1)
  }

  predicate HitsBarrel(m: MathLib, b: Bullet, barrel: Barrel) {
    m.Hypot(b.x - barrel.x, b.y - barrel.y) <= BarrelHitRadius
  }

  /** The highest index below `upto` of a barrel the bullet hits (barrels are scanned from
      the end). */
  function LastBarrelHit(m: MathLib, b: Bullet, barrels: seq<Barrel>, upto: nat): (r: Option<nat>)
    requires upto <= |barrels|
    ensures r.Some? ==> r.value < upto && HitsBarrel(m, b, barrels[r.value])
    ensures r.Some? ==> forall n :: r.value < n < upto ==> !HitsBarrel(m, b, barrels[n])
    ensures r.None? <==> forall n :: 0 <= n < upto ==> !HitsBarrel(m, b, barrels[n])
    decreases upto
  {
    if upto == 0 then None
    else if HitsBarrel(m, b, barrels[upto - 1]) then Some(upto - 1)
    else LastBarrelHit(m, b, barrels, upto - 1)
  }

  /** `array.splice(i, 1)`. */
  function Remove<T>(s: seq<T>, i: nat): (r: seq<T>)
    requires i < |s|
    ensures |r| == |s| - 1 && r[..i] == s[..i] && r[i..] == s[i + 1..]
  {
    s[..i] + s[i + 1..]
  }

  /** The damage of an explosion at distance `d`: full at the centre, 40% at the edge. */
  function BlastDamage(d: real): real {
    ExplosionDamage * (0.4 + (1.0 - d / ExplosionRadius) * 0.6)
  }

  lemma BlastDamageRange(d: real)
    requires 0.0 <= d <= ExplosionRadius
    ensures 0.22 <= BlastDamage(d) <= ExplosionDamage
  {
  }

  /** What an explosion at (cx, cy) does to one tank. */
  function Blast(m: MathLib, t: Tank, cx: real, cy: real): (r: Tank)
    ensures r == t.(health := r.health, isDestroyed := r.isDestroyed)
    ensures t.isDestroyed ==> r == t
  {
    var d := m.Hypot(t.x - cx, t.y - cy);
    if t.isDestroyed || d > ExplosionRadius then t else Damage(t, BlastDamage(d))
  }

  /** `applyExplosionDamage`: the `forEach` over the tanks, from index `j` on. */
  function ExplodeFrom(w: World, m: MathLib, cx: real, cy: real, j: nat): (r: World)
    requires j <= |w.tanks|
    ensures r == w.(tanks := r.tanks, outcome := r.outcome) && |r.tanks| == |w.tanks|
    decreases |w.tanks| - j
  {
    if j == |w.tanks| then w
    else
      ExplodeFrom(BlastAt(w, m, cx, cy, j), m, cx, cy, j + 1)
  }

  /** The `forEach` callback for tank `j`: a live tank within the blast radius takes the
      blast damage for its distance. */
  function BlastAt(w: World, m: MathLib, cx: real, cy: real, j: nat): (r: World)
    requires j < |w.tanks|
    ensures r == w.(tanks := r.tanks, outcome := r.outcome) && |r.tanks| == |w.tanks|
  {
    var t := w.tanks[j];
    var d := m.Hypot(t.x - cx, t.y - cy);
    if t.isDestroyed || d > ExplosionRadius then w else ApplyDamage(w, j, BlastDamage(d))
  }

  /** Each tank from `j` on takes exactly its own blast, the rest are untouched, and an
      outcome already recorded stays. */
  lemma {:induction false} ExplodeFromEffect(w: World, m: MathLib, cx: real, cy: real, j: nat)
    requires j <= |w.tanks|
    ensures forall i :: 0 <= i < j ==> ExplodeFrom(w, m, cx, cy, j).tanks[i] == w.tanks[i]
    ensures forall i :: j <= i < |w.tanks| ==> ExplodeFrom(w, m, cx, cy, j).tanks[i] == Blast(m, w.tanks[i], cx, cy)
    ensures w.outcome != NoOutcome ==> ExplodeFrom(w, m, cx, cy, j).outcome == w.outcome
    decreases |w.tanks| - j
  {
    if j < |w.tanks| {
      var w' := BlastAt(w, m, cx, cy, j);
      ExplodeFromEffect(w', m, cx, cy, j + 1);
      assert ExplodeFrom(w, m, cx, cy, j) == ExplodeFrom(w', m, cx, cy, j + 1);
    }
  }

  /** `triggerBarrelExplosion`: the barrel goes, the tanks take the blast, and the spawn
      timer restarts with a draw in [2.4, 6). */
  function TriggerExplosion(w: World, n: nat, env: Env): (r: World)
    requires n < |w.barrels|
    ensures r.bullets == w.bullets && r.ai == w.ai && r.previousTimestamp == w.previousTimestamp
    ensures r.barrels == Remove(w.barrels, n) && r.draws == w.draws + 1
    ensures r.barrelSpawnTimer == RandomInRange(env, w.draws, BarrelRespawnMin * 0.4, BarrelRespawnMin)
    ensures |r.tanks| == |w.tanks| &&
            forall i :: 0 <= i < |w.tanks| ==> r.tanks[i] == Blast(env.m, w.tanks[i], w.barrels[n].x, w.barrels[n].y)
    ensures w.outcome != NoOutcome ==> r.outcome == w.outcome
  {
    var barrel := w.barrels[n];
    var w0 := w.(barrels := Remove(w.barrels, n));
    var w1 := ExplodeFrom(w0, env.m, barrel.x, barrel.y, 0);
    ExplodeFromEffect(w0, env.m, barrel.x, barrel.y, 0);
    w1.(barrelSpawnTimer := RandomInRange(env, w1.draws, BarrelRespawnMin * 0.4, BarrelRespawnMin),
        draws := w1.draws + 1)
  }

  /** One iteration of `updateBullets` on the bullet at index `k`. The bullet moves; then it
      is dropped when gone, else the first tank it hits takes the damage, else the last
      barrel it hits explodes, and in the last two cases it is dropped too. */
  function BulletStep(w: World, k: nat, delta: real, env: Env, damage: real): (r: World)
    requires k < |w.bullets|
    ensures |r.bullets| >= k && r.bullets[..k] == w.bullets[..k]
    ensures r.ai == w.ai && r.previousTimestamp == w.previousTimestamp
    ensures |r.tanks| == |w.tanks| && forall i :: 0 <= i < |w.tanks| ==> r.tanks[i].isPlayer == w.tanks[i].isPlayer
    ensures Gone(Advance(w.bullets[k], delta)) ==> r == w.(bullets := Remove(w.bullets, k))
    ensures !Gone(Advance(w.bullets[k], delta)) && FirstTankHit(Advance(w.bullets[k], delta), w.tanks, 0).Some? ==>
              && r.bullets == Remove(w.bullets, k)
              && r.barrels == w.barrels
              && var j := FirstTankHit(Advance(w.bullets[k], delta), w.tanks, 0).value;
                 r.tanks[j] == Damage(w.tanks[j], damage) &&
                 forall i :: 0 <= i < |w.tanks| && i != j ==> r.tanks[i] == w.tanks[i]
    ensures !Gone(Advance(w.bullets[k], delta)) && FirstTankHit(Advance(w.bullets[k], delta), w.tanks, 0).None? ==>
              if LastBarrelHit(env.m, Advance(w.bullets[k], delta), w.barrels, |w.barrels|).Some?
              then var n := LastBarrelHit(env.m, Advance(w.bullets[k], delta), w.barrels, |w.barrels|).value;
                   && r.bullets == Remove(w.bullets, k)
                   && r.barrels == Remove(w.barrels, n)
                   && (forall i :: 0 <= i < |w.tanks| ==>
                         r.tanks[i] == Blast(env.m, w.tanks[i], w.barrels[n].x, w.barrels[n].y))
                   && r.barrelSpawnTimer == RandomInRange(env, w.draws, BarrelRespawnMin * 0.4, BarrelRespawnMin)
                   && r.draws == w.draws + 1
              else r == w.(bullets := w.bullets[k := Advance(w.bullets[k], delta)])
    ensures w.outcome != NoOutcome ==> r.outcome == w.outcome
  {
    var b := Advance(w.bullets[k], delta);
    var rest := Remove(w.bullets, k);
    if Gone(b) then w.(bullets := rest)
    else
      match FirstTankHit(b, w.tanks, 0)
      case Some(j) => ApplyDamage(w.(bullets := rest), j, damage)
      case None =>
        match LastBarrelHit(env.m, b, w.barrels, |w.barrels|)
        case Some(n) => TriggerExplosion(w.(bullets := rest), n, env)
        case None => w.(bullets := w.bullets[k := b])
  }

  /** `updateBullets`: the loop from the last bullet down, over the `i` lowest bullets. */
  function ProcessBullets(w: World, i: nat, delta: real, env: Env, damage: real): World
    requires i <= |w.bullets|
    decreases i
  {
    if i == 0 then w
    else ProcessBullets(BulletStep(w, i - 1, delta, env, damage), i - 1, delta, env, damage)
  }

  /** All bullets from index `i` on are still in play. */
  predicate InPlayFrom(bullets: seq<Bullet>, i: nat) {
    forall idx :: i <= idx < |bullets| ==> !Gone(bullets[idx])
  }

  /** The pass never adds a bullet, and every bullet left after it is in play. */
  lemma {:induction false} ProcessLeavesBulletsInPlay(w: World, i: nat, delta: real, env: Env, damage: real)
    requires i <= |w.bullets| && InPlayFrom(w.bullets, i)
    ensures InPlayFrom(ProcessBullets(w, i, delta, env, damage).bullets, 0)
    ensures |ProcessBullets(w, i, delta, env, damage).bullets| <= |w.bullets|
    decreases i
  {
    if i > 0 {
      var w' := BulletStep(w, i - 1, delta, env, damage);
      assert |w'.bullets| <= |w.bullets|;
      assert InPlayFrom(w'.bullets, i - 1) by {
        var b := Advance(w.bullets[i - 1], delta);
        forall idx | i - 1 <= idx < |w'.bullets| ensures !Gone(w'.bullets[idx]) {
          if w'.bullets == Remove(w.bullets, i - 1) {
            assert w'.bullets[idx] == w.bullets[idx + 1];
          } else {
            assert w'.bullets == w.bullets[i - 1 := b];
          }
        }
      }
      ProcessLeavesBulletsInPlay(w', i - 1, delta, env, damage);
    }
  }

  /** Over a whole frame, a recorded outcome survives every hit and explosion. */
  lemma {:induction false} ProcessKeepsOutcome(w: World, i: nat, delta: real, env: Env, damage: real)
    requires i <= |w.bullets| && w.outcome != NoOutcome
    ensures ProcessBullets(w, i, delta, env, damage).outcome == w.outcome
    decreases i
  {
    if i > 0 {
      ProcessKeepsOutcome(BulletStep(w, i - 1, delta, env, damage), i - 1, delta, env, damage);
    }
  }

  /** The pass keeps the tank count, which tank is the player's, and the AI state. */
  lemma {:induction false} ProcessKeepsTanksAndAi(w: World, i: nat, delta: real, env: Env, damage: real)
    requires i <= |w.bullets|
    ensures |ProcessBullets(w, i, delta, env, damage).tanks| == |w.tanks|
    ensures forall j :: 0 <= j < |w.tanks| ==> ProcessBullets(w, i, delta, env, damage).tanks[j].isPlayer == w.tanks[j].isPlayer
    ensures ProcessBullets(w, i, delta, env, damage).ai == w.ai
    ensures ProcessBullets(w, i, delta, env, damage).previousTimestamp == w.previousTimestamp
    decreases i
  {
    if i > 0 {
      ProcessKeepsTanksAndAi(BulletStep(w, i - 1, delta, env, damage), i - 1, delta, env, damage);
    }
  }

  /** The pass never adds a barrel. */
  lemma {:induction false} ProcessNeverAddsBarrels(w: World, i: nat, delta: real, env: Env, damage: real)
    requires i <= |w.bullets|
    ensures |ProcessBullets(w, i, delta, env, damage).barrels| <= |w.barrels|
    decreases i
  {
    if i > 0 {
      var w' := BulletStep(w, i - 1, delta, env, damage);
      ProcessNeverAddsBarrels(w', i - 1, delta, env, damage);
    }
  }

  /** One tank's blast only wears the tanks and keeps the outcome in step with them. */
  lemma BlastAtSound(w: World, m: MathLib, cx: real, cy: real, j: nat)
    requires j < |w.tanks| && CombatSound(w)
    ensures CombatSound(BlastAt(w, m, cx, cy, j)) && Worn(w.tanks, BlastAt(w, m, cx, cy, j).tanks)
  {
    var t := w.tanks[j];
    var d := m.Hypot(t.x - cx, t.y - cy);
    if t.isDestroyed || d > ExplosionRadius {
      assert Worn(w.tanks, w.tanks);
    } else {
      ApplyDamageSound(w, j, BlastDamage(d));
    }
  }

  /** An explosion only wears the tanks and keeps the outcome in step with them. */
  lemma {:induction false} ExplodeFromSound(w: World, m: MathLib, cx: real, cy: real, j: nat)
    requires j <= |w.tanks| && CombatSound(w)
    ensures CombatSound(ExplodeFrom(w, m, cx, cy, j)) && Worn(w.tanks, ExplodeFrom(w, m, cx, cy, j).tanks)
    decreases |w.tanks| - j
  {
    if j == |w.tanks| {
      assert Worn(w.tanks, w.tanks);
    } else {
      var w' := BlastAt(w, m, cx, cy, j);
      BlastAtSound(w, m, cx, cy, j);
      ExplodeFromSound(w', m, cx, cy, j + 1);
      assert ExplodeFrom(w, m, cx, cy, j) == ExplodeFrom(w', m, cx, cy, j + 1);
      WornTransitive(w.tanks, w'.tanks, ExplodeFrom(w, m, cx, cy, j).tanks);
    }
  }

  /** One bullet step with non-negative damage only wears the tanks and keeps the outcome
      in step with them. */
  lemma BulletStepSound(w: World, k: nat, delta: real, env: Env, damage: real)
    requires k < |w.bullets| && CombatSound(w) && damage >= 0.0
    ensures CombatSound(BulletStep(w, k, delta, env, damage))
    ensures Worn(w.tanks, BulletStep(w, k, delta, env, damage).tanks)
  {
    var b := Advance(w.bullets[k], delta);
    var rest := Remove(w.bullets, k);
    if Gone(b) {
      assert Worn(w.tanks, w.tanks);
    } else {
      match FirstTankHit(b, w.tanks, 0)
      case Some(j) => ApplyDamageSound(w.(bullets := rest), j, damage);
      case None =>
        match LastBarrelHit(env.m, b, w.barrels, |w.barrels|)
        case Some(n) =>
          var w0 := w.(bullets := rest).(barrels := Remove(w.barrels, n));
          ExplodeFromSound(w0, env.m, w.barrels[n].x, w.barrels[n].y, 0);
          assert BulletStep(w, k, delta, env, damage).tanks == ExplodeFrom(w0, env.m, w.barrels[n].x, w.barrels[n].y, 0).tanks;
          assert BulletStep(w, k, delta, env, damage).outcome == ExplodeFrom(w0, env.m, w.barrels[n].x, w.barrels[n].y, 0).outcome;
        case None =>
          assert Worn(w.tanks, w.tanks);
    }
  }

  /** Over a whole frame the tanks only wear, their health stays in [0, 1] with
      destruction exactly at 0, and the outcome names the tank that went down. */
  lemma {:induction false} ProcessBulletsSound(w: World, i: nat, delta: real, env: Env, damage: real)
    requires i <= |w.bullets| && CombatSound(w) && damage >= 0.0
    ensures CombatSound(ProcessBullets(w, i, delta, env, damage))
    ensures Worn(w.tanks, ProcessBullets(w, i, delta, env, damage).tanks)
    decreases i
  {
    if i == 0 {
      assert Worn(w.tanks, w.tanks);
    } else {
      var w' := BulletStep(w, i - 1, delta, env, damage);
      BulletStepSound(w, i - 1, delta, env, damage);
      ProcessBulletsSound(w', i - 1, delta, env, damage);
      WornTransitive(w.tanks, w'.tanks, ProcessBullets(w, i, delta, env, damage).tanks);
    }
  }
}
