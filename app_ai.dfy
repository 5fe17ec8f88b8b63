/** The enemy of the single-player game (app.js `updateEnemyBehavior` and
    `pickEnemySearchTarget`): sight with a one-second memory, a search / alert / engage mode
    machine, a reaction delay, near and far movement bands and a gated firing rule. */
module AppAi {
  import opened Wrappers
  import opened JsMath
  import opened AppRules

  /** `VISION_RADIUS`, the outer fog radius. */
  const VisionRadius: real := 336.0
  const ReactionDelay: real := 0.5
  const VisibilityMemory: real := 1.0
  const SearchSpeedFactor: real := 0.65
  /** `TURN_SPEED * 0.75`, as `SearchTurnRateIsThreeQuarters` shows. */
  const SearchTurnRate: real := 105.0
  const SearchTargetRadius: real := 96.0
  const SearchIdleMin: real := 0.5
  const SearchIdleMax: real := 1.5
  /** Beyond this distance the enemy closes in; nearer than `RetreatDistance` it backs off. */
  const ChaseDistance: real := 320.0
  const RetreatDistance: real := 160.0
  /** The enemy fires only with its turret within 12 degrees of the player and at most 600
      units away. */
  const FireArc: real := 12.0
  const FireRange: real := 600.0
  /** How far ahead of the hull the turret looks while idling or sweeping. */
  const LookAhead: real := 180.0
  const IdleAimRate: real := 60.0
  const SweepAimRate: real := 90.0

  lemma SearchTurnRateIsThreeQuarters()
    ensures SearchTurnRate == TurnSpeed * 0.75
  {
  }

  /** What one call of `updateEnemyBehavior` decides for the enemy: its new tank state, its
      new AI state, the draws of `Math.random` taken so far, and whether it fires. */
  datatype Decision = Decision(enemy: Tank, ai: AiState, draws: nat, fire: bool)

  function Distance(m: MathLib, player: Tank, enemy: Tank): real {
    m.Hypot(player.x - enemy.x, player.y - enemy.y)
  }

  /** `hasDirectSight`. */
  predicate InSight(m: MathLib, player: Tank, enemy: Tank) {
    Distance(m, player, enemy) <= VisionRadius
  }

  /** A memory timer without direct sight: counted down by `delta`, floored at 0. */
  function Fade(timer: real, sight: bool, delta: real): real {
    if !sight && timer > 0.0 then Max(0.0, timer - delta) else timer
  }

  /** The perception part of `updateEnemyBehavior`: direct sight refreshes both one-second
      timers and the last seen position; without it the timers fade, and the player stays
      visible to the enemy (and the enemy to the player) while its timer is still running. */
  function Perceive(m: MathLib, ai: AiState, player: Tank, enemy: Tank, delta: real): (r: AiState)
    ensures r == ai.(playerVisibilityTimer := r.playerVisibilityTimer, lastSeenPosition := r.lastSeenPosition,
                     playerVisible := r.playerVisible, seenByPlayerTimer := r.seenByPlayerTimer,
                     visibleToPlayer := r.visibleToPlayer)
  {
    var sight := InSight(m, player, enemy);
    var seenTimer := if sight then VisibilityMemory else ai.playerVisibilityTimer;
    var shownTimer := if sight then VisibilityMemory else ai.seenByPlayerTimer;
    ai.(playerVisibilityTimer := Fade(seenTimer, sight, delta),
        lastSeenPosition := if sight then Some(Point(player.x, player.y)) else ai.lastSeenPosition,
        playerVisible := sight || seenTimer > 0.0,
        seenByPlayerTimer := Fade(shownTimer, sight, delta),
        visibleToPlayer := sight || shownTimer > 0.0)
  }

  /** With sight the player is visible and remembered where it stands, with both timers full;
      without it, visibility in each direction lasts exactly as long as its timer. */
  lemma PerceiveSight(m: MathLib, ai: AiState, player: Tank, enemy: Tank, delta: real)
    ensures var r := Perceive(m, ai, player, enemy, delta);
            InSight(m, player, enemy) ==>
              r.playerVisible && r.visibleToPlayer && r.lastSeenPosition == Some(Point(player.x, player.y)) &&
              r.playerVisibilityTimer == VisibilityMemory && r.seenByPlayerTimer == VisibilityMemory
    ensures var r := Perceive(m, ai, player, enemy, delta);
            !InSight(m, player, enemy) ==>
              (r.playerVisible <==> ai.playerVisibilityTimer > 0.0) &&
              (r.visibleToPlayer <==> ai.seenByPlayerTimer > 0.0) &&
              r.lastSeenPosition == ai.lastSeenPosition &&
              r.playerVisibilityTimer == Fade(ai.playerVisibilityTimer, false, delta) &&
              r.seenByPlayerTimer == Fade(ai.seenByPlayerTimer, false, delta)
  {
  }

  /** A timer after a run of frames without sight. */
  function FadeAll(timer: real, deltas: seq<real>): real
    decreases |deltas|
  {
    if deltas == [] then timer else FadeAll(Fade(timer, false, deltas[0]), deltas[1..])
  }

  /** The memory lasts one second of frames: a full timer is still running after frames
      totalling less than a second, and has run out after a second. */
  lemma {:induction false} FadeAllIsTimeLeft(timer: real, deltas: seq<real>)
    requires timer >= 0.0 && AllNonNegative(deltas)
    ensures FadeAll(timer, deltas) == Max(0.0, timer - Sum(deltas))
    decreases |deltas|
  {
    if deltas != [] {
      var rest := deltas[1..];
      assert AllNonNegative(rest) by {
        forall i | 0 <= i < |rest| ensures rest[i] >= 0.0 {
          assert rest[i] == deltas[i + 1];
        }
      }
      SumNonNegative(rest);
      FadeAllIsTimeLeft(Fade(timer, false, deltas[0]), rest);
    }
  }

  lemma {:induction false} SumNonNegative(ds: seq<real>)
    requires AllNonNegative(ds)
    ensures Sum(ds) >= 0.0
    decreases |ds|
  {
    if ds != [] {
      var rest := ds[1..];
      assert AllNonNegative(rest) by {
        forall i | 0 <= i < |rest| ensures rest[i] >= 0.0 {
          assert rest[i] == ds[i + 1];
        }
      }
      SumNonNegative(rest);
    }
  }

  /** So the player, seen once, stays visible to the enemy for less than a second of unseen
      frames and no longer. */
  lemma MemoryLastsOneSecond(deltas: seq<real>)
    requires AllNonNegative(deltas)
    ensures FadeAll(VisibilityMemory, deltas) > 0.0 <==> Sum(deltas) < VisibilityMemory
  {
    FadeAllIsTimeLeft(VisibilityMemory, deltas);
  }

  /** `reactionTimer` counted down by `delta` while it runs. */
  function Countdown(timer: real, delta: real): real {
    if timer > 0.0 then Max(0.0, timer - delta) else timer
  }

  /** The reaction timer left after this frame's countdown: a fresh sighting starts it at
      the reaction delay. */
  function ReactionLeft(ai: AiState, delta: real): real {
    Countdown(if ai.playerVisible then ai.reactionTimer else ReactionDelay, delta)
  }

  /** `moveInput` in the engage band rule. */
  function MoveInput(dist: real): (move: int)
    ensures move == 1 <==> dist > ChaseDistance
    ensures move == -1 <==> dist < RetreatDistance
    ensures move == 0 <==> RetreatDistance <= dist <= ChaseDistance
  {
    if dist > ChaseDistance then 1 else if dist < RetreatDistance then -1 else 0
  }

  /** The engage move, skipped when `moveInput` is 0. */
  function EngageMove(m: MathLib, t: Tank, move: int, moveSpeed: real, delta: real): (r: Tank)
    ensures move == 0 ==> r == t
    ensures r == t.(x := r.x, y := r.y)
    ensures move != 0 ==> Point(r.x, r.y) == Driven(m, t.x, t.y, t.hullAngle, Travel(move, moveSpeed, delta))
  {
    if move != 0 then MoveTank(m, t, Travel(move, moveSpeed, delta)) else t
  }

  /** The firing gate of the engage branch. */
  predicate ShouldFire(t: Tank, desired: real, dist: real) {
    t.reloadTimer <= 0.0 && Abs(ShortestArc(desired, t.turretAngle)) < FireArc && dist <= FireRange
  }

  /** The enemy with its hull turned towards the player by at most `140 * delta` and its
      turret then aimed at the player. */
  function Aimed(m: MathLib, player: Tank, enemy: Tank, delta: real): (r: Tank)
    ensures r == enemy.(hullAngle := r.hullAngle, turretAngle := r.turretAngle)
    ensures r.hullAngle == TurnHull(enemy, Heading(m, player.x - enemy.x, player.y - enemy.y), TurnSpeed * delta).hullAngle
  {
    var desired := Heading(m, player.x - enemy.x, player.y - enemy.y);
    AimTurret(m, TurnHull(enemy, desired, TurnSpeed * delta), player.x, player.y, delta, AimTurnRate)
  }

  /** The branch of `updateEnemyBehavior` taken while the player is visible: a rising edge
      raises the alert; the hull and turret turn towards the player; while the reaction timer
      still runs nothing else happens; afterwards the enemy engages, keeps its distance band
      and fires when aimed. */
  function Pursue(m: MathLib, ai: AiState, wasVisible: bool, player: Tank, enemy: Tank, delta: real,
                  moveSpeed: real, draws: nat): Decision
  {
    var dist := Distance(m, player, enemy);
    var alerted := if wasVisible then ai else ai.(reactionTimer := ReactionDelay, mode := Alert);
    var desired := Heading(m, player.x - enemy.x, player.y - enemy.y);
    var aimed := Aimed(m, player, enemy, delta);
    var timer := Countdown(alerted.reactionTimer, delta);
    if timer > 0.0 then Decision(aimed, alerted.(reactionTimer := timer), draws, false)
    else
      var moved := EngageMove(m, aimed, MoveInput(dist), moveSpeed, delta);
      Decision(moved, alerted.(reactionTimer := timer, mode := Engage), draws, ShouldFire(moved, desired, dist))
  }

  /** `pickEnemySearchTarget` with draws `k` and `k + 1`. */
  function PickTarget(env: Env, k: nat): Point {
    Point(RandomInRange(env, k, HalfChassisWidth, Max(HalfChassisWidth, WorldWidth - HalfChassisWidth)),
          RandomInRange(env, k + 1, HalfChassisHeight, Max(HalfChassisHeight, WorldHeight - HalfChassisHeight)))
  }

  /** A picked target lies in the field a tank may occupy. */
  lemma PickTargetInField(env: Env, k: nat)
    requires env.RandomValid()
    ensures HalfChassisWidth <= PickTarget(env, k).x <= WorldWidth - HalfChassisWidth
    ensures HalfChassisHeight <= PickTarget(env, k).y <= WorldHeight - HalfChassisHeight
  {
    RandomInRangeBounds(env, k, HalfChassisWidth, Max(HalfChassisWidth, WorldWidth - HalfChassisWidth));
    RandomInRangeBounds(env, k + 1, HalfChassisHeight, Max(HalfChassisHeight, WorldHeight - HalfChassisHeight));
  }

  /** The falling edge of visibility: search mode, investigating the last seen position when
      there is one, otherwise a fresh target after a pause. */
  function LoseSight(env: Env, ai: AiState, draws: nat): (AiState, nat) {
    if ai.lastSeenPosition.Some? then
      (ai.(mode := Search, pendingInvestigate := true, searchTarget := ai.lastSeenPosition, searchIdleTime := 0.0), draws)
    else
      (ai.(mode := Search, pendingInvestigate := false, searchTarget := Some(PickTarget(env, draws)),
           searchIdleTime := RandomInRange(env, draws + 2, SearchIdleMin, SearchIdleMax)), draws + 3)
  }

  /** The turret aimed at the point `LookAhead` units ahead of the hull. */
  function AimAhead(m: MathLib, t: Tank, delta: real, turnRate: real): (r: Tank)
    ensures r == t.(turretAngle := r.turretAngle)
  {
    var ahead := Forward(m, t.hullAngle);
    AimTurret(m, t, t.x + ahead.x * LookAhead, t.y + ahead.y * LookAhead, delta, turnRate)
  }

  /** The branch of `updateEnemyBehavior` taken while the player is not visible. */
  function SearchStep(m: MathLib, env: Env, ai: AiState, wasVisible: bool, enemy: Tank, delta: real,
                      moveSpeed: real, draws: nat): Decision
  {
    var lost := if wasVisible then LoseSight(env, ai, draws) else (ai, draws);
    var calm := lost.0.(reactionTimer := 0.0);
    var k := lost.1;
    if calm.searchIdleTime > 0.0 then
      Decision(AimAhead(m, enemy, delta, IdleAimRate),
               calm.(searchIdleTime := Max(0.0, calm.searchIdleTime - delta)), k, false)
    else
      var target := if calm.searchTarget.Some? then calm.searchTarget.value else PickTarget(env, k);
      var k' := if calm.searchTarget.Some? then k else k + 2;
      if m.Hypot(target.x - enemy.x, target.y - enemy.y) < SearchTargetRadius then
        var done := if calm.pendingInvestigate then calm.(pendingInvestigate := false, lastSeenPosition := None) else calm;
        Decision(enemy, done.(searchIdleTime := RandomInRange(env, k', SearchIdleMin, SearchIdleMax),
                              searchTarget := Some(PickTarget(env, k' + 1))), k' + 3, false)
      else
        var turned := TurnHull(enemy, Heading(m, target.x - enemy.x, target.y - enemy.y), SearchTurnRate * delta);
        var moved := MoveTank(m, turned, Travel(1, moveSpeed * SearchSpeedFactor, delta));
        Decision(AimAhead(m, moved, delta, SweepAimRate),
                 calm.(searchTarget := Some(target)), k', false)
  }

  /** The decision of `updateEnemyBehavior` for two live tanks. */
  function Decide(env: Env, ai: AiState, player: Tank, enemy: Tank, delta: real, moveSpeed: real, draws: nat): Decision {
    var seen := Perceive(env.m, ai, player, enemy, delta);
    if seen.playerVisible then Pursue(env.m, seen, ai.playerVisible, player, enemy, delta, moveSpeed, draws)
    else SearchStep(env.m, env, seen, ai.playerVisible, enemy, delta, moveSpeed, draws)
  }

  /** `updateEnemyBehavior(delta)`: nothing once either tank is destroyed; otherwise the
      decision is applied and, when it says so, `fireProjectile(enemyTank)` runs. */
  function EnemyBehavior(w: World, env: Env, delta: real, moveSpeed: real, fireCooldown: real): World
    requires TwoTanks(w)
  {
    var player := w.tanks[PlayerIndex];
    var enemy := w.tanks[EnemyIndex];
    if enemy.isDestroyed || player.isDestroyed then w
    else
      var d := Decide(env, w.ai, player, enemy, delta, moveSpeed, w.draws);
      var acted := w.(tanks := w.tanks[EnemyIndex := d.enemy], ai := d.ai, draws := d.draws);
      if d.fire then Fire(acted, EnemyIndex, env.m, fireCooldown) else acted
  }

  /** The relations between the AI fields that every frame keeps. */
  predicate AiInvariant(ai: AiState) {
    && (ai.mode == Search <==> !ai.playerVisible)
    && (ai.mode == Engage ==> ai.reactionTimer == 0.0)
    && (ai.mode == Alert ==> 0.0 < ai.reactionTimer <= ReactionDelay)
    && (!ai.playerVisible ==> ai.reactionTimer == 0.0)
    && 0.0 <= ai.playerVisibilityTimer <= VisibilityMemory
    && 0.0 <= ai.seenByPlayerTimer <= VisibilityMemory
    && ai.searchIdleTime >= 0.0
    && (ai.playerVisible || ai.playerVisibilityTimer > 0.0 || ai.pendingInvestigate ==> ai.lastSeenPosition.Some?)
  }

  /** The state `enemyAiState` starts in, with the first search target picked. */
  function InitialAi(target: Point): (ai: AiState)
    ensures AiInvariant(ai)
    ensures ai.mode == Search && ai.searchTarget == Some(target)
  {
    AiState(Search, false, 0.0, Some(target), 0.0, None, false, 0.0, 0.0, false)
  }

  lemma PerceiveKeepsTimers(m: MathLib, ai: AiState, player: Tank, enemy: Tank, delta: real)
    requires AiInvariant(ai) && delta >= 0.0
    ensures var r := Perceive(m, ai, player, enemy, delta);
            0.0 <= r.playerVisibilityTimer <= VisibilityMemory && 0.0 <= r.seenByPlayerTimer <= VisibilityMemory &&
            (r.playerVisible || r.playerVisibilityTimer > 0.0 || r.pendingInvestigate ==> r.lastSeenPosition.Some?) &&
            (!r.playerVisible ==> r.playerVisibilityTimer == 0.0)
  {
  }

  lemma PursueKeepsInvariant(m: MathLib, seen: AiState, wasVisible: bool, player: Tank, enemy: Tank, delta: real,
                             moveSpeed: real, draws: nat)
    requires seen.playerVisible && delta >= 0.0 && seen.searchIdleTime >= 0.0
    requires wasVisible ==> seen.mode != Search && (seen.mode == Engage ==> seen.reactionTimer == 0.0) &&
                            0.0 <= seen.reactionTimer <= ReactionDelay && (seen.mode == Alert ==> seen.reactionTimer > 0.0)
    requires 0.0 <= seen.playerVisibilityTimer <= VisibilityMemory && 0.0 <= seen.seenByPlayerTimer <= VisibilityMemory
    requires seen.lastSeenPosition.Some?
    ensures AiInvariant(Pursue(m, seen, wasVisible, player, enemy, delta, moveSpeed, draws).ai)
  {
  }

  lemma SearchKeepsInvariant(m: MathLib, env: Env, seen: AiState, wasVisible: bool, enemy: Tank, delta: real,
                             moveSpeed: real, draws: nat)
    requires env.RandomValid() && !seen.playerVisible && delta >= 0.0 && seen.searchIdleTime >= 0.0
    requires !wasVisible ==> seen.mode == Search
    requires 0.0 <= seen.playerVisibilityTimer <= VisibilityMemory && 0.0 <= seen.seenByPlayerTimer <= VisibilityMemory
    requires seen.playerVisibilityTimer == 0.0
    requires seen.pendingInvestigate ==> seen.lastSeenPosition.Some?
    ensures AiInvariant(SearchStep(m, env, seen, wasVisible, enemy, delta, moveSpeed, draws).ai)
  {
    RandomInRangeBounds(env, draws + 2, SearchIdleMin, SearchIdleMax);
    var lost := if wasVisible then LoseSight(env, seen, draws) else (seen, draws);
    var k := lost.1;
    var k' := if lost.0.searchTarget.Some? then k else k + 2;
    RandomInRangeBounds(env, k', SearchIdleMin, SearchIdleMax);
  }

  /** Every frame keeps the AI invariant. */
  lemma EnemyBehaviorKeepsInvariant(w: World, env: Env, delta: real, moveSpeed: real, fireCooldown: real)
    requires TwoTanks(w) && env.RandomValid() && delta >= 0.0 && AiInvariant(w.ai)
    ensures AiInvariant(EnemyBehavior(w, env, delta, moveSpeed, fireCooldown).ai)
  {
    var player := w.tanks[PlayerIndex];
    var enemy := w.tanks[EnemyIndex];
    if !enemy.isDestroyed && !player.isDestroyed {
      var seen := Perceive(env.m, w.ai, player, enemy, delta);
      PerceiveKeepsTimers(env.m, w.ai, player, enemy, delta);
      if seen.playerVisible {
        PursueKeepsInvariant(env.m, seen, w.ai.playerVisible, player, enemy, delta, moveSpeed, w.draws);
      } else {
        SearchKeepsInvariant(env.m, env, seen, w.ai.playerVisible, enemy, delta, moveSpeed, w.draws);
      }
      DecisionReachesWorld(w, env, delta, moveSpeed, fireCooldown);
    }
  }

  /** The world after the enemy's move: the decided enemy and AI state, and one enemy bullet
      exactly when the decision fires; the player, barrels and everything else are untouched. */
  lemma DecisionReachesWorld(w: World, env: Env, delta: real, moveSpeed: real, fireCooldown: real)
    requires TwoTanks(w) && !w.tanks[PlayerIndex].isDestroyed && !w.tanks[EnemyIndex].isDestroyed
    ensures var d := Decide(env, w.ai, w.tanks[PlayerIndex], w.tanks[EnemyIndex], delta, moveSpeed, w.draws);
            var r := EnemyBehavior(w, env, delta, moveSpeed, fireCooldown);
            && r.ai == d.ai && r.draws == d.draws
            && |r.tanks| == 2 && r.tanks[PlayerIndex] == w.tanks[PlayerIndex]
            && r.tanks[EnemyIndex] == (if d.fire then d.enemy.(reloadTimer := fireCooldown) else d.enemy)
            && (d.fire ==> |r.bullets| == |w.bullets| + 1 && r.bullets[..|w.bullets|] == w.bullets &&
                           r.bullets[|w.bullets|].owner == EnemyIndex)
            && (!d.fire ==> r.bullets == w.bullets)
  {
    var d := Decide(env, w.ai, w.tanks[PlayerIndex], w.tanks[EnemyIndex], delta, moveSpeed, w.draws);
    DecisionKeepsStatus(env, w.ai, w.tanks[PlayerIndex], w.tanks[EnemyIndex], delta, moveSpeed, w.draws);
    assert d.fire ==> d.enemy.reloadTimer <= 0.0;
  }

  /** A decision keeps the enemy's health, status and reload timer, and fires only when the
      reload timer has run out. */
  lemma DecisionKeepsStatus(env: Env, ai: AiState, player: Tank, enemy: Tank, delta: real, moveSpeed: real, draws: nat)
    ensures var d := Decide(env, ai, player, enemy, delta, moveSpeed, draws);
            d.enemy.isDestroyed == enemy.isDestroyed && d.enemy.health == enemy.health &&
            d.enemy.reloadTimer == enemy.reloadTimer && d.enemy.isPlayer == enemy.isPlayer &&
            (d.fire ==> d.enemy.reloadTimer <= 0.0) && d.draws >= draws
  {
  }

  /** Nothing but the enemy tank (and its bullets), the AI state and the draws changes. */
  lemma EnemyBehaviorFrame(w: World, env: Env, delta: real, moveSpeed: real, fireCooldown: real)
    requires TwoTanks(w)
    ensures var r := EnemyBehavior(w, env, delta, moveSpeed, fireCooldown);
            && TwoTanks(r) && r.tanks[PlayerIndex] == w.tanks[PlayerIndex]
            && r.barrels == w.barrels && r.outcome == w.outcome && r.barrelSpawnTimer == w.barrelSpawnTimer
            && r.previousTimestamp == w.previousTimestamp && r.draws >= w.draws
            && |r.bullets| <= |w.bullets| + 1 && r.bullets[..|w.bullets|] == w.bullets
            && r.tanks[EnemyIndex].isDestroyed == w.tanks[EnemyIndex].isDestroyed
            && r.tanks[EnemyIndex].health == w.tanks[EnemyIndex].health
  {
    if !w.tanks[PlayerIndex].isDestroyed && !w.tanks[EnemyIndex].isDestroyed {
      DecisionReachesWorld(w, env, delta, moveSpeed, fireCooldown);
      DecisionKeepsStatus(env, w.ai, w.tanks[PlayerIndex], w.tanks[EnemyIndex], delta, moveSpeed, w.draws);
    }
  }

  /** The enemy never leaves the field. */
  lemma EnemyStaysInField(w: World, env: Env, delta: real, moveSpeed: real, fireCooldown: real)
    requires TwoTanks(w) && InField(w.tanks[EnemyIndex])
    ensures InField(EnemyBehavior(w, env, delta, moveSpeed, fireCooldown).tanks[EnemyIndex])
  {
    if !w.tanks[PlayerIndex].isDestroyed && !w.tanks[EnemyIndex].isDestroyed {
      DecisionReachesWorld(w, env, delta, moveSpeed, fireCooldown);
    }
  }

  /** When the player comes into sight, the enemy goes on alert with the full reaction delay
      (less this frame) and neither moves nor fires. */
  lemma RisingEdgeAlerts(w: World, env: Env, delta: real, moveSpeed: real, fireCooldown: real)
    requires TwoTanks(w) && !w.tanks[PlayerIndex].isDestroyed && !w.tanks[EnemyIndex].isDestroyed
    requires !w.ai.playerVisible && InSight(env.m, w.tanks[PlayerIndex], w.tanks[EnemyIndex])
    requires 0.0 <= delta < ReactionDelay
    ensures var r := EnemyBehavior(w, env, delta, moveSpeed, fireCooldown);
            r.ai.mode == Alert && r.ai.playerVisible && r.ai.reactionTimer == ReactionDelay - delta &&
            r.tanks[EnemyIndex].x == w.tanks[EnemyIndex].x && r.tanks[EnemyIndex].y == w.tanks[EnemyIndex].y &&
            r.bullets == w.bullets
  {
    DecisionReachesWorld(w, env, delta, moveSpeed, fireCooldown);
  }

  /** An alerted enemy engages exactly when its reaction timer runs out this frame while the
      player is still visible. */
  lemma AlertTurnsToEngage(w: World, env: Env, delta: real, moveSpeed: real, fireCooldown: real)
    requires TwoTanks(w) && !w.tanks[PlayerIndex].isDestroyed && !w.tanks[EnemyIndex].isDestroyed
    requires AiInvariant(w.ai) && w.ai.mode == Alert
    ensures var r := EnemyBehavior(w, env, delta, moveSpeed, fireCooldown);
            var seen := Perceive(env.m, w.ai, w.tanks[PlayerIndex], w.tanks[EnemyIndex], delta);
            (r.ai.mode == Engage <==> seen.playerVisible && w.ai.reactionTimer - delta <= 0.0) &&
            (r.ai.mode == Alert <==> seen.playerVisible && w.ai.reactionTimer - delta > 0.0)
  {
    DecisionReachesWorld(w, env, delta, moveSpeed, fireCooldown);
  }

  /** When the player drops out of sight and memory, the enemy searches: it heads for the last
      seen position, or, when already there, gives that position up at once. */
  lemma FallingEdgeInvestigates(w: World, env: Env, delta: real, moveSpeed: real, fireCooldown: real, p: Point)
    requires TwoTanks(w) && !w.tanks[PlayerIndex].isDestroyed && !w.tanks[EnemyIndex].isDestroyed
    requires w.ai.playerVisible && !InSight(env.m, w.tanks[PlayerIndex], w.tanks[EnemyIndex])
    requires w.ai.playerVisibilityTimer <= 0.0 && w.ai.lastSeenPosition == Some(p)
    ensures var r := EnemyBehavior(w, env, delta, moveSpeed, fireCooldown);
            var e := w.tanks[EnemyIndex];
            r.ai.mode == Search && !r.ai.playerVisible && r.ai.reactionTimer == 0.0 &&
            (env.m.Hypot(p.x - e.x, p.y - e.y) >= SearchTargetRadius ==>
               r.ai.searchTarget == Some(p) && r.ai.pendingInvestigate && r.ai.lastSeenPosition == Some(p)) &&
            (env.m.Hypot(p.x - e.x, p.y - e.y) < SearchTargetRadius ==>
               !r.ai.pendingInvestigate && r.ai.lastSeenPosition.None?)
  {
    DecisionReachesWorld(w, env, delta, moveSpeed, fireCooldown);
  }

  /** Without a last seen position, losing sight picks a fresh target and pauses first. */
  lemma FallingEdgeWithoutTrace(w: World, env: Env, delta: real, moveSpeed: real, fireCooldown: real)
    requires TwoTanks(w) && !w.tanks[PlayerIndex].isDestroyed && !w.tanks[EnemyIndex].isDestroyed
    requires env.RandomValid()
    requires w.ai.playerVisible && !InSight(env.m, w.tanks[PlayerIndex], w.tanks[EnemyIndex])
    requires w.ai.playerVisibilityTimer <= 0.0 && w.ai.lastSeenPosition.None?
    ensures var r := EnemyBehavior(w, env, delta, moveSpeed, fireCooldown);
            r.ai.mode == Search && !r.ai.pendingInvestigate && r.ai.searchTarget == Some(PickTarget(env, w.draws)) &&
            r.tanks[EnemyIndex].x == w.tanks[EnemyIndex].x && r.tanks[EnemyIndex].y == w.tanks[EnemyIndex].y &&
            r.draws == w.draws + 3
  {
    RandomInRangeBounds(env, w.draws + 2, SearchIdleMin, SearchIdleMax);
    DecisionReachesWorld(w, env, delta, moveSpeed, fireCooldown);
  }

  /** The condition under which the visible branch gets past the reaction delay. */
  predicate Engaging(env: Env, w: World, delta: real)
    requires TwoTanks(w)
  {
    Perceive(env.m, w.ai, w.tanks[PlayerIndex], w.tanks[EnemyIndex], delta).playerVisible &&
    ReactionLeft(w.ai, delta) <= 0.0
  }

  /** An engaging enemy holds its position inside the 160 to 320 band, and otherwise drives
      along its new hull heading by `moveSpeed * delta`, forwards when too far and backwards
      when too near, clamped to the field; its hull turns at most `140 * delta`. */
  lemma EngageMovement(w: World, env: Env, delta: real, moveSpeed: real, fireCooldown: real)
    requires TwoTanks(w) && !w.tanks[PlayerIndex].isDestroyed && !w.tanks[EnemyIndex].isDestroyed
    requires env.m.Valid() && delta >= 0.0 && 0.0 <= w.tanks[EnemyIndex].hullAngle < 360.0
    requires Engaging(env, w, delta)
    ensures var r := EnemyBehavior(w, env, delta, moveSpeed, fireCooldown);
            var e := w.tanks[EnemyIndex];
            var e' := r.tanks[EnemyIndex];
            var dist := Distance(env.m, w.tanks[PlayerIndex], e);
            var driven := Driven(env.m, e.x, e.y, e'.hullAngle, Travel(MoveInput(dist), moveSpeed, delta));
            r.ai.mode == Engage &&
            Abs(ShortestArc(e'.hullAngle, e.hullAngle)) <= TurnSpeed * delta &&
            (RetreatDistance <= dist <= ChaseDistance ==> e'.x == e.x && e'.y == e.y) &&
            (dist > ChaseDistance || dist < RetreatDistance ==> e'.x == driven.x && e'.y == driven.y)
  {
    EngageDecision(env, w.ai, w.tanks[PlayerIndex], w.tanks[EnemyIndex], delta, moveSpeed, w.draws);
    DecisionReachesWorld(w, env, delta, moveSpeed, fireCooldown);
  }

  /** The decision of an engaging enemy: engage mode, the hull turned by at most
      `140 * delta`, and the band move along the new heading. */
  lemma EngageDecision(env: Env, ai: AiState, player: Tank, enemy: Tank, delta: real, moveSpeed: real, draws: nat)
    requires env.m.Valid() && delta >= 0.0 && 0.0 <= enemy.hullAngle < 360.0
    requires Perceive(env.m, ai, player, enemy, delta).playerVisible && ReactionLeft(ai, delta) <= 0.0
    ensures var d := Decide(env, ai, player, enemy, delta, moveSpeed, draws);
            var dist := Distance(env.m, player, enemy);
            var driven := Driven(env.m, enemy.x, enemy.y, d.enemy.hullAngle, Travel(MoveInput(dist), moveSpeed, delta));
            d.ai.mode == Engage &&
            Abs(ShortestArc(d.enemy.hullAngle, enemy.hullAngle)) <= TurnSpeed * delta &&
            (RetreatDistance <= dist <= ChaseDistance ==> d.enemy.x == enemy.x && d.enemy.y == enemy.y) &&
            (dist > ChaseDistance || dist < RetreatDistance ==> d.enemy.x == driven.x && d.enemy.y == driven.y)
  {
    var seen := Perceive(env.m, ai, player, enemy, delta);
    assert Decide(env, ai, player, enemy, delta, moveSpeed, draws) ==
           Pursue(env.m, seen, ai.playerVisible, player, enemy, delta, moveSpeed, draws);
    PursueEngaging(env.m, seen, ai.playerVisible, player, enemy, delta, moveSpeed, draws);
    TurnHullBounded(enemy, Heading(env.m, player.x - enemy.x, player.y - enemy.y), TurnSpeed * delta);
  }

  /** Past the reaction delay the visible branch engages, with the hull turned towards the
      player and the band move applied along it. */
  lemma PursueEngaging(m: MathLib, seen: AiState, wasVisible: bool, player: Tank, enemy: Tank, delta: real,
                       moveSpeed: real, draws: nat)
    requires Countdown(if wasVisible then seen.reactionTimer else ReactionDelay, delta) <= 0.0
    ensures var d := Pursue(m, seen, wasVisible, player, enemy, delta, moveSpeed, draws);
            var turned := TurnHull(enemy, Heading(m, player.x - enemy.x, player.y - enemy.y), TurnSpeed * delta);
            var driven := Driven(m, enemy.x, enemy.y, turned.hullAngle, Travel(MoveInput(Distance(m, player, enemy)), moveSpeed, delta));
            d.ai.mode == Engage && d.enemy.hullAngle == turned.hullAngle &&
            (MoveInput(Distance(m, player, enemy)) == 0 ==> d.enemy.x == enemy.x && d.enemy.y == enemy.y) &&
            (MoveInput(Distance(m, player, enemy)) != 0 ==> d.enemy.x == driven.x && d.enemy.y == driven.y)
  {
    var aimed := Aimed(m, player, enemy, delta);
    var move := MoveInput(Distance(m, player, enemy));
    var d := Pursue(m, seen, wasVisible, player, enemy, delta, moveSpeed, draws);
    assert d.enemy == EngageMove(m, aimed, move, moveSpeed, delta) && d.ai.mode == Engage;
  }

  /** The enemy fires exactly when it is engaging, its gun is loaded, its turret (after this
      frame's aim) is within 12 degrees of the player's bearing, and the player is within
      600 units. */
  lemma EnemyFireRule(w: World, env: Env, delta: real, moveSpeed: real, fireCooldown: real)
    requires TwoTanks(w) && !w.tanks[PlayerIndex].isDestroyed && !w.tanks[EnemyIndex].isDestroyed
    ensures var r := EnemyBehavior(w, env, delta, moveSpeed, fireCooldown);
            var e := w.tanks[EnemyIndex];
            var player := w.tanks[PlayerIndex];
            |r.bullets| > |w.bullets| <==>
              Engaging(env, w, delta) && e.reloadTimer <= 0.0 &&
              Abs(ShortestArc(Heading(env.m, player.x - e.x, player.y - e.y), r.tanks[EnemyIndex].turretAngle)) < FireArc &&
              Distance(env.m, player, e) <= FireRange
  {
    DecisionReachesWorld(w, env, delta, moveSpeed, fireCooldown);
    DecisionKeepsStatus(env, w.ai, w.tanks[PlayerIndex], w.tanks[EnemyIndex], delta, moveSpeed, w.draws);
  }

  /** While the search pause lasts the enemy stays where it is, facing the same way, and
      only sweeps its turret at most `60 * delta`. */
  lemma SearchPauseHolds(w: World, env: Env, delta: real, moveSpeed: real, fireCooldown: real)
    requires TwoTanks(w) && !w.tanks[PlayerIndex].isDestroyed && !w.tanks[EnemyIndex].isDestroyed
    requires env.m.Valid() && delta >= 0.0 && 0.0 <= w.tanks[EnemyIndex].turretAngle < 360.0
    requires !w.ai.playerVisible && !Perceive(env.m, w.ai, w.tanks[PlayerIndex], w.tanks[EnemyIndex], delta).playerVisible
    requires w.ai.searchIdleTime > 0.0
    ensures var r := EnemyBehavior(w, env, delta, moveSpeed, fireCooldown);
            var e := w.tanks[EnemyIndex];
            var e' := r.tanks[EnemyIndex];
            e'.x == e.x && e'.y == e.y && e'.hullAngle == e.hullAngle &&
            Abs(ShortestArc(e'.turretAngle, e.turretAngle)) <= IdleAimRate * delta &&
            r.ai.searchIdleTime == Max(0.0, w.ai.searchIdleTime - delta) && r.draws == w.draws
  {
    var e := w.tanks[EnemyIndex];
    var seen := Perceive(env.m, w.ai, w.tanks[PlayerIndex], e, delta);
    assert seen.searchIdleTime == w.ai.searchIdleTime;
    var d := Decide(env, w.ai, w.tanks[PlayerIndex], e, delta, moveSpeed, w.draws);
    assert d == SearchStep(env.m, env, seen, false, e, delta, moveSpeed, w.draws);
    SearchPausing(env.m, env, seen, e, delta, moveSpeed, w.draws);
    AimAheadBounded(env.m, e, delta, IdleAimRate);
    DecisionReachesWorld(w, env, delta, moveSpeed, fireCooldown);
  }

  /** During the pause the search branch only aims the turret ahead of the hull. */
  lemma SearchPausing(m: MathLib, env: Env, seen: AiState, enemy: Tank, delta: real, moveSpeed: real, draws: nat)
    requires seen.searchIdleTime > 0.0
    ensures var d := SearchStep(m, env, seen, false, enemy, delta, moveSpeed, draws);
            d.enemy == AimAhead(m, enemy, delta, IdleAimRate) &&
            d.ai.searchIdleTime == Max(0.0, seen.searchIdleTime - delta) && d.draws == draws
  {
  }

  /** Aiming ahead leaves the tank in place and turns the turret by at most the frame's
      budget (`60 * delta` for the idle aim). */
  lemma AimAheadBounded(m: MathLib, t: Tank, delta: real, turnRate: real)
    requires m.Valid() && TurnBudget(turnRate, delta) >= 0.0 && 0.0 <= t.turretAngle < 360.0
    ensures Abs(ShortestArc(AimAhead(m, t, delta, turnRate).turretAngle, t.turretAngle)) <= TurnBudget(turnRate, delta)
  {
    var ahead := Forward(m, t.hullAngle);
    AimTurretBounded(m, t, t.x + ahead.x * LookAhead, t.y + ahead.y * LookAhead, delta, turnRate);
  }

  /** On reaching its target the enemy stops, pauses 0.5 to 1.5 seconds, picks a new target
      inside the field, and gives up an investigation it was on. */
  lemma SearchTargetReached(w: World, env: Env, delta: real, moveSpeed: real, fireCooldown: real, target: Point)
    requires TwoTanks(w) && !w.tanks[PlayerIndex].isDestroyed && !w.tanks[EnemyIndex].isDestroyed
    requires env.RandomValid()
    requires !w.ai.playerVisible && !Perceive(env.m, w.ai, w.tanks[PlayerIndex], w.tanks[EnemyIndex], delta).playerVisible
    requires w.ai.searchIdleTime <= 0.0 && w.ai.searchTarget == Some(target)
    requires env.m.Hypot(target.x - w.tanks[EnemyIndex].x, target.y - w.tanks[EnemyIndex].y) < SearchTargetRadius
    ensures var r := EnemyBehavior(w, env, delta, moveSpeed, fireCooldown);
            r.tanks[EnemyIndex] == w.tanks[EnemyIndex] &&
            SearchIdleMin <= r.ai.searchIdleTime <= SearchIdleMax &&
            r.ai.searchTarget.Some? &&
            HalfChassisWidth <= r.ai.searchTarget.value.x <= WorldWidth - HalfChassisWidth &&
            HalfChassisHeight <= r.ai.searchTarget.value.y <= WorldHeight - HalfChassisHeight &&
            !r.ai.pendingInvestigate && (w.ai.pendingInvestigate ==> r.ai.lastSeenPosition.None?)
  {
    RandomInRangeBounds(env, w.draws, SearchIdleMin, SearchIdleMax);
    PickTargetInField(env, w.draws + 1);
    DecisionReachesWorld(w, env, delta, moveSpeed, fireCooldown);
  }
}
