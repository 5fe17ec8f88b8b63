/** The multiplayer game loop of js/game-manager.js: the deterministic player ids, the
    remote tank's shadow targets and their interpolation, turret aim and aim spread,
    firing, the bullet and collision loop, enemy visibility, the camera, the send throttle
    and the outcome latch. */
module GameManager {
  import opened Wrappers
  import opened JsMath
  import opened Core
  import Network
  import Input
  import Fog
  import AppRules

  /** `gameLoop` uses a fixed frame time instead of the timestamp it is given. */
  const FrameTime: real := 0.016
  const NetworkUpdateInterval: real := 0.1
  const ViewportWidth: real := 1024.0
  const ViewportHeight: real := 800.0
  /** An enemy closer than this is visible. */
  const SightRadius: real := 420.0
  const HitRadius: real := 30.0
  const HitDamage: real := 0.1
  const TurretTurnRate: real := 45.0
  const MaxAimSpread: real := 20.0
  /** The spread widens to its maximum in 0.2 s and closes in 1 s. */
  const SpreadGrowRate: real := 100.0
  const SpreadShrinkRate: real := 20.0
  /** The cone of a shot at maximum spread, in degrees. */
  const MaxSpreadDeg: real := 15.0
  const MuzzleDistance: real := 60.0
  const LerpSpeed: real := 8.0
  const AngleLerpSpeed: real := 10.0
  /** How long the mouse counts as moving after a `pointermove` event. */
  const MouseMoveHold: real := 0.1
  /** A turn above this many degrees counts as the turret moving. */
  const TurretMovingEpsilon: real := 0.01

  // ---------------------------------------------------------------- player ids

  datatype Ids = Ids(me: string, enemy: string)

  /** `if (roomId)`: a missing or empty room id means single-player. */
  predicate InRoom(roomId: Option<string>) {
    roomId.Some? && roomId.value != ""
  }

  /** The id choice of `init`: in a room the host is `player1` and the guest `player2`;
      alone, the player is `player1` against `ai_enemy`. */
  function AssignIds(roomId: Option<string>, isHost: bool): (r: Ids)
    ensures r.me != r.enemy
    ensures !InRoom(roomId) ==> r == Ids("player1", "ai_enemy")
    ensures InRoom(roomId) ==> (r.me == "player1" <==> isHost) && (r.enemy == "player1" <==> !isHost)
  {
    assert "player1"[6] != "player2"[6];
    if InRoom(roomId) then
      if isHost then Ids("player1", "player2") else Ids("player2", "player1")
    else Ids("player1", "ai_enemy")
  }

  /** The two ends of a room name each other: the host's enemy is the guest itself and the
      guest's enemy is the host, so each accepts the other's messages. */
  lemma HostAndGuestMirror(roomId: Option<string>)
    requires InRoom(roomId)
    ensures AssignIds(roomId, true).enemy == AssignIds(roomId, false).me
    ensures AssignIds(roomId, false).enemy == AssignIds(roomId, true).me
  {
  }

  // ------------------------------------------------------- remote player updates

  /** A remote tank: its `TankCore` fields and the shadow targets attached to it. */
  datatype Remote = Remote(tank: TankState, targets: Targets)

  /** The remote side as the manager holds it: `enemyName` and `enemyTank`. */
  datatype Contact = Contact(enemyName: string, enemy: Option<Remote>)

  /** `TANK_PRESETS[data.presetId].variantClass` exists. */
  predicate KnownPreset(p: Option<string>) {
    p.Some? && PresetDefaults(p.value).Some?
  }

  /** `data.name || 'Enemy'`. */
  function NameOr(name: Option<string>): string {
    if name.Some? && name.value != "" then name.value else "Enemy"
  }

  /** The argument of `new TankCore(...)` for the first accepted message. */
  function RemoteInit(enemyId: string, data: Network.PositionMsg): TankInit {
    TankInit(enemyId, data.x, data.y, None, None, None, Some(false), data.presetId, None)
  }

  /** `v !== undefined ? v : old`. */
  function Or<T>(v: Option<T>, previous: T): T {
    if v.Some? then v.value else previous
  }

  /** The writes every accepted message makes: present positions and angles go to the
      shadow targets, present `health` and `isDestroyed` to the live tank. */
  function WritePresent(r: Remote, data: Network.PositionMsg): (w: Remote)
    ensures w.tank == r.tank.(health := Or(data.health, r.tank.health),
                              isDestroyed := Or(data.isDestroyed, r.tank.isDestroyed))
    ensures data.x.Some? ==> w.targets.targetX == data.x
    ensures data.x.None? ==> w.targets.targetX == r.targets.targetX
    ensures data.y.Some? ==> w.targets.targetY == data.y
    ensures data.y.None? ==> w.targets.targetY == r.targets.targetY
    ensures data.hullAngle.Some? ==> w.targets.targetHullAngle == data.hullAngle
    ensures data.hullAngle.None? ==> w.targets.targetHullAngle == r.targets.targetHullAngle
    ensures data.turretAngle.Some? ==> w.targets.targetTurretAngle == data.turretAngle
    ensures data.turretAngle.None? ==> w.targets.targetTurretAngle == r.targets.targetTurretAngle
  {
    var t := r.targets;
    Remote(
      r.tank.(health := Or(data.health, r.tank.health), isDestroyed := Or(data.isDestroyed, r.tank.isDestroyed)),
      Targets(
        if data.x.Some? then data.x else t.targetX,
        if data.y.Some? then data.y else t.targetY,
        if data.hullAngle.Some? then data.hullAngle else t.targetHullAngle,
        if data.turretAngle.Some? then data.turretAngle else t.targetTurretAngle))
  }

  /** The message comes from the enemy: `!data.id || data.id !== enemyPlayerId` is false. */
  predicate FromEnemy(enemyId: string, data: Network.PositionMsg) {
    data.id.Some? && data.id.value != "" && data.id.value == enemyId
  }

  /** `handleRemotePlayerUpdate(data)`. The first accepted message names the enemy and
      builds its tank; an unknown preset id makes the `TankCore` constructor throw (the
      name is already set), and a missing or unknown one makes the registration with the
      renderer throw after the tank is stored, before its targets are set. */
  function Receive(enemyId: string, c: Contact, data: Network.PositionMsg): (r: Contact)
    ensures !FromEnemy(enemyId, data) ==> r == c
    ensures FromEnemy(enemyId, data) && c.enemy.Some? ==>
              r == c.(enemy := Some(WritePresent(c.enemy.value, data)))
  {
    if !FromEnemy(enemyId, data) then c
    else if c.enemy.Some? then c.(enemy := Some(WritePresent(c.enemy.value, data)))
    else
      var name := NameOr(data.name);
      if PresetDefaults(PresetIdOr(data.presetId)).None? then Contact(name, None)
      else
        var t := InitialTank(RemoteInit(enemyId, data));
        if !KnownPreset(data.presetId) then Contact(name, Some(Remote(t, Targets(None, None, None, None))))
        else
          var targets := Targets(data.x, data.y, Some(NumberOr(data.hullAngle, 0.0)), Some(NumberOr(data.turretAngle, 0.0)));
          Contact(name, Some(WritePresent(Remote(t, targets), data)))
  }

  /** A later message from the enemy never moves the live tank: its position, angles, reload
      timer and settings stay, the targets take the positions and angles present, and the
      live health and destroyed flag take the values present. */
  lemma LaterMessageWritesTargets(enemyId: string, c: Contact, data: Network.PositionMsg)
    requires FromEnemy(enemyId, data) && c.enemy.Some?
    ensures var e := Receive(enemyId, c, data).enemy.value.tank;
            var e0 := c.enemy.value.tank;
            e.x == e0.x && e.y == e0.y && e.hullAngle == e0.hullAngle && e.turretAngle == e0.turretAngle &&
            e.reloadTimer == e0.reloadTimer && e.settings == e0.settings && e.id == e0.id &&
            e.health == Or(data.health, e0.health) && e.isDestroyed == Or(data.isDestroyed, e0.isDestroyed)
    ensures Receive(enemyId, c, data).enemy.value.targets.targetX == (if data.x.Some? then data.x else c.enemy.value.targets.targetX)
    ensures Receive(enemyId, c, data).enemyName == c.enemyName
  {
  }

  /** The first message from the enemy with a known preset builds a tank at its position
      (`|| 0`), at full health unless the message says otherwise, with its targets on the
      received position and angles (angles defaulting to 0). */
  lemma FirstMessageCreatesEnemy(enemyId: string, c: Contact, data: Network.PositionMsg)
    requires FromEnemy(enemyId, data) && c.enemy.None? && KnownPreset(data.presetId)
    ensures var r := Receive(enemyId, c, data);
            && r.enemyName == NameOr(data.name)
            && r.enemy.Some?
            && r.enemy.value.tank.id == enemyId
            && r.enemy.value.tank.x == NumberOr(data.x, 0.0) && r.enemy.value.tank.y == NumberOr(data.y, 0.0)
            && r.enemy.value.tank.hullAngle == 0.0 && r.enemy.value.tank.turretAngle == 0.0
            && r.enemy.value.tank.health == Or(data.health, 1.0)
            && r.enemy.value.tank.isDestroyed == Or(data.isDestroyed, false)
            && !r.enemy.value.tank.isPlayer
            && r.enemy.value.tank.presetId == data.presetId.value
            && r.enemy.value.targets == Targets(data.x, data.y, Some(NumberOr(data.hullAngle, 0.0)),
                                                Some(NumberOr(data.turretAngle, 0.0)))
  {
    assert PresetIdOr(data.presetId) == data.presetId.value;
  }

  /** The first message from the enemy without a known preset: an unknown id leaves no
      tank, a missing one (built as a tiger) leaves a tank without targets. */
  lemma FirstMessageWithoutPreset(enemyId: string, c: Contact, data: Network.PositionMsg)
    requires FromEnemy(enemyId, data) && c.enemy.None? && !KnownPreset(data.presetId)
    ensures Receive(enemyId, c, data).enemyName == NameOr(data.name)
    ensures data.presetId.Some? && data.presetId.value != "" ==> Receive(enemyId, c, data).enemy.None?
    ensures (data.presetId.None? || data.presetId.value == "") ==>
              Receive(enemyId, c, data).enemy.Some? &&
              Receive(enemyId, c, data).enemy.value.targets == Targets(None, None, None, None) &&
              Receive(enemyId, c, data).enemy.value.tank.presetId == "tiger"
  {
  }

  /** What the receiver tracks of the sender: the four targets and the live health and flag. */
  datatype Tracked = Tracked(x: real, y: real, hullAngle: real, turretAngle: real, health: real, isDestroyed: bool)

  predicate HasTargets(r: Remote) {
    r.targets.targetX.Some? && r.targets.targetY.Some? &&
    r.targets.targetHullAngle.Some? && r.targets.targetTurretAngle.Some?
  }

  function TrackedOf(r: Remote): Tracked
    requires HasTargets(r)
  {
    Tracked(r.targets.targetX.value, r.targets.targetY.value, r.targets.targetHullAngle.value,
            r.targets.targetTurretAngle.value, r.tank.health, r.tank.isDestroyed)
  }

  function SnapshotTracked(s: Network.PlayerSnapshot): Tracked {
    Tracked(s.x, s.y, s.hullAngle, s.turretAngle, s.health, s.isDestroyed)
  }

  /** The receiving half of delta compression: a message applied to the remote tank moves
      what the receiver tracks exactly as the sender's `Apply` moves the snapshot, so the
      receiver's targets follow the messages the sender's log holds. */
  lemma ReceiverFollowsSender(r: Remote, s: Network.PlayerSnapshot, data: Network.PositionMsg)
    requires HasTargets(r) && TrackedOf(r) == SnapshotTracked(s)
    ensures HasTargets(WritePresent(r, data))
    ensures TrackedOf(WritePresent(r, data)) == SnapshotTracked(Network.Apply(s, data))
  {
  }

  /** The enemy's tank after a run of messages from the enemy. */
  function ReceiveAll(enemyId: string, c: Contact, msgs: seq<Network.PositionMsg>): Contact
    decreases |msgs|
  {
    if msgs == [] then c else ReceiveAll(enemyId, Receive(enemyId, c, msgs[0]), msgs[1..])
  }

  /** The sender's snapshot after the same run. */
  function ApplyMsgs(s: Network.PlayerSnapshot, msgs: seq<Network.PositionMsg>): Network.PlayerSnapshot
    decreases |msgs|
  {
    if msgs == [] then s else ApplyMsgs(Network.Apply(s, msgs[0]), msgs[1..])
  }

  /** Over a whole run of messages from the enemy, the receiver's tracked values stay equal
      to the snapshot that the same messages rebuild. */
  lemma {:induction false} ReceiverFollowsRun(enemyId: string, c: Contact, s: Network.PlayerSnapshot,
                                              msgs: seq<Network.PositionMsg>)
    requires c.enemy.Some? && HasTargets(c.enemy.value) && TrackedOf(c.enemy.value) == SnapshotTracked(s)
    requires forall i :: 0 <= i < |msgs| ==> FromEnemy(enemyId, msgs[i])
    ensures ReceiveAll(enemyId, c, msgs).enemy.Some?
    ensures HasTargets(ReceiveAll(enemyId, c, msgs).enemy.value)
    ensures TrackedOf(ReceiveAll(enemyId, c, msgs).enemy.value) == SnapshotTracked(ApplyMsgs(s, msgs))
    decreases |msgs|
  {
    if msgs != [] {
      var c1 := Receive(enemyId, c, msgs[0]);
      ReceiverFollowsSender(c.enemy.value, s, msgs[0]);
      assert forall i :: 0 <= i < |msgs[1..]| ==> FromEnemy(enemyId, msgs[1..][i]) by {
        forall i | 0 <= i < |msgs[1..]| ensures FromEnemy(enemyId, msgs[1..][i]) {
          assert msgs[1..][i] == msgs[i + 1];
        }
      }
      ReceiverFollowsRun(enemyId, c1, Network.Apply(s, msgs[0]), msgs[1..]);
    }
  }

  // ---------------------------------------------------------------- interpolation

  /** A rate times the frame time: `lerpSpeed * delta`. */
  function Rate(speed: real, delta: real): real {
    speed * delta
  }

  /** `x += (target - x) * lerpSpeed * delta`, with `k` the rate times the frame time. */
  function Approach(current: real, target: real, k: real): real {
    current + (target - current) * k
  }

  /** With `k` in [0, 1] a step lands between the live value and the target, and never
      farther from the target than before. */
  lemma ApproachBetween(current: real, target: real, k: real)
    requires 0.0 <= k <= 1.0
    ensures Min(current, target) <= Approach(current, target, k) <= Max(current, target)
    ensures Abs(target - Approach(current, target, k)) == (1.0 - k) * Abs(target - current)
  {
    var d := target - current;
    assert target - Approach(current, target, k) == d * (1.0 - k);
    if d >= 0.0 {
      NonNegMul(d, k);
      NonNegMul(d, 1.0 - k);
    } else {
      NonNegMul(-d, k);
      NonNegMul(-d, 1.0 - k);
    }
  }

  /** The part `diff * speed * delta` of an arc, with `k` the rate times the frame time. */
  function Portion(arc: real, k: real): real {
    arc * k
  }

  /** `interpolateAngle(current, target, speed)`: a portion `k` of the signed arc, wrapped. */
  function InterpolateAngle(current: real, target: real, k: real): (r: real)
    ensures -360.0 < r < 360.0
  {
    JsMod360(current + Portion(ShortestArc(target, current), k) + 360.0)
  }

  /** The arc `((t - c + 540) % 360) - 180` lies in [-180, 180) whenever `t - c + 540` is not
      negative, and in (-540, 180) for any angles, since the remainder takes the sign of a
      negative operand. */
  lemma ArcRange(target: real, current: real)
    ensures -540.0 < ShortestArc(target, current) < 180.0
    ensures target - current + 540.0 >= 0.0 ==> -180.0 <= ShortestArc(target, current) < 180.0
  {
  }

  /** With the game loop's fixed frame time the angle step is 0.16 of the arc, and an angle
      in [0, 360) stays there whatever the target, even an unwrapped one. */
  lemma FixedFrameAngleLands(current: real, target: real)
    requires 0.0 <= current < 360.0
    ensures Rate(AngleLerpSpeed, FrameTime) == 0.16
    ensures 0.0 <= InterpolateAngle(current, target, Rate(AngleLerpSpeed, FrameTime)) < 360.0
  {
    var d := ShortestArc(target, current);
    ArcRange(target, current);
    assert current + Portion(d, 0.16) + 360.0 > 0.0;
  }

  /** A portion `k` in [0, 1] of an arc in [-180, 180) is again in [-180, 180), and so is
      what remains of the arc, which is `1 - k` of it and never longer. */
  lemma PortionBounds(d: real, k: real)
    requires -180.0 <= d < 180.0 && 0.0 <= k <= 1.0
    ensures -180.0 <= Portion(d, k) < 180.0
    ensures -180.0 <= d - Portion(d, k) < 180.0
    ensures d - Portion(d, k) == (1.0 - k) * d
    ensures Abs(d - Portion(d, k)) <= Abs(d)
  {
    if d >= 0.0 {
      NonNegMul(d, k);
      NonNegMul(d, 1.0 - k);
    } else {
      NonNegMul(-d, k);
      NonNegMul(-d, 1.0 - k);
      assert (-d) * k == -Portion(d, k);
      assert (-d) * (1.0 - k) == Portion(d, k) - d;
      assert d <= d - Portion(d, k) <= 0.0;
    }
  }

  /** Towards a target in [0, 360), one step from an angle in [0, 360) with `k` in [0, 1]
      lands in [0, 360), and the arc that remains is the old arc less the step taken. */
  lemma AngleConverges(current: real, target: real, k: real)
    requires 0.0 <= current < 360.0 && 0.0 <= target < 360.0 && 0.0 <= k <= 1.0
    ensures 0.0 <= InterpolateAngle(current, target, k) < 360.0
    ensures ShortestArc(target, InterpolateAngle(current, target, k)) ==
              ShortestArc(target, current) - Portion(ShortestArc(target, current), k)
  {
    var d := ShortestArc(target, current);
    ShortestArcIsShortest(target, current, 0);
    var j := ((target - current - d) / 360.0).Floor;
    assert target - current - d == 360.0 * (j as real);
    var e := Portion(d, k);
    PortionBounds(d, k);
    var x := current + e + 360.0;
    var r := JsMod360(x);
    assert InterpolateAngle(current, target, k) == r;
    var i := Trunc(x / 360.0);
    assert x - r == 360.0 * (i as real);
    var h := d - e + 180.0;
    assert target - r + 540.0 == h + 360.0 * ((j + i) as real);
    AppRules.ModOfShift(h, j + i);
  }

  /** The hull target is never wrapped, so it can lie far below the live angle after the
      sender has turned left long enough. From then on the arc goes the long way: every
      frame turns the remote hull more than 28.8 degrees the negative way, and the next frame
      meets the same situation, so the hull spins instead of settling. A target of -1000,
      80 degrees ahead of 0 around the circle, gives an arc of -280 from 0. */
  lemma UnwrappedHullTargetSpins(current: real, target: real)
    requires 0.0 <= current < 360.0 && target <= -900.0
    ensures ShortestArc(target, current) <= -180.0
    ensures Portion(ShortestArc(target, current), Rate(AngleLerpSpeed, FrameTime)) <= -28.8
    ensures 0.0 <= InterpolateAngle(current, target, Rate(AngleLerpSpeed, FrameTime)) < 360.0
    ensures ShortestArc(-1000.0, 0.0) == -280.0
  {
    FixedFrameAngleLands(current, target);
    assert Trunc(-460.0 / 360.0) == -1;
  }

  // ------------------------------------------------------------------- turret aim

  /** `(Math.atan2(dx, -dy) * (180 / Math.PI) + 360) % 360`. */
  function AimHeading(m: MathLib, dx: real, dy: real): real {
    WrapDeg(m.atan2Deg(dx, -dy))
  }

  /** The wrap by `% 360` gives the same heading as the single-player version's `d < 0 ?
      d + 360 : d`. */
  lemma AimHeadingAgrees(m: MathLib, dx: real, dy: real)
    requires m.Valid()
    ensures AimHeading(m, dx, dy) == AppRules.Heading(m, dx, dy)
    ensures 0.0 <= AimHeading(m, dx, dy) < 360.0
  {
    var d := m.atan2Deg(dx, -dy);
    if d >= 0.0 {
      AppRules.ModOfShift(d, 1);
    } else {
      AppRules.ModOfShift(d + 360.0, 0);
    }
  }

  /** The turret angle after `aimTurretTowards` and the turn it applied. */
  datatype Aim = Aim(turretAngle: real, applied: real)

  /** `aimTurretTowards(tank, targetX, targetY, delta)` with its 45 degrees per second. */
  function AimStep(m: MathLib, t: TankState, tx: real, ty: real, delta: real): (a: Aim)
    ensures a.applied == AppRules.Turn(AimHeading(m, tx - t.x, ty - t.y), t.turretAngle,
                                       AppRules.TurnBudget(TurretTurnRate, delta))
  {
    var applied := ClampTurn(ShortestArc(AimHeading(m, tx - t.x, ty - t.y), t.turretAngle),
                             AppRules.TurnBudget(TurretTurnRate, delta));
    Aim(WrapDeg(t.turretAngle + applied), applied)
  }

  /** The turret stays in [0, 360), turns by at most `45 * delta` along the shortest arc,
      and points straight at the cursor once the cursor's heading is within reach. */
  lemma AimBounded(m: MathLib, t: TankState, tx: real, ty: real, delta: real)
    requires m.Valid() && 0.0 <= t.turretAngle < 360.0 && delta >= 0.0
    ensures 0.0 <= AimStep(m, t, tx, ty, delta).turretAngle < 360.0
    ensures Abs(AimStep(m, t, tx, ty, delta).applied) <= AppRules.TurnBudget(TurretTurnRate, delta)
    ensures Abs(ShortestArc(AimStep(m, t, tx, ty, delta).turretAngle, t.turretAngle)) <=
              AppRules.TurnBudget(TurretTurnRate, delta)
    ensures Abs(ShortestArc(AimHeading(m, tx - t.x, ty - t.y), t.turretAngle)) <= AppRules.TurnBudget(TurretTurnRate, delta) ==>
              AimStep(m, t, tx, ty, delta).turretAngle == AimHeading(m, tx - t.x, ty - t.y)
  {
    var h := AimHeading(m, tx - t.x, ty - t.y);
    var b := AppRules.TurnBudget(TurretTurnRate, delta);
    AimHeadingAgrees(m, tx - t.x, ty - t.y);
    assert b >= 0.0;
    AppRules.TurnStep(t.turretAngle, h, b);
    var a := AimStep(m, t, tx, ty, delta);
    assert a.turretAngle == WrapDeg(t.turretAngle + AppRules.Turn(h, t.turretAngle, b));
  }

  // -------------------------------------------------------------------- aim spread

  /** The `mouseMoveTimer` countdown and the `isMouseMoving` flag. */
  datatype Mouse = Mouse(timer: real, moving: bool)

  /** The mouse part of `updatePlayerLogic`: a positive timer counts down; once it is not
      positive the mouse stops counting as moving. */
  function MouseStep(ms: Mouse, delta: real): (r: Mouse)
    ensures r.moving <==> ms.moving && r.timer > 0.0
    ensures ms.timer > 0.0 ==> r.timer == ms.timer - delta
    ensures ms.timer <= 0.0 ==> r.timer == ms.timer
  {
    var timer := if ms.timer > 0.0 then ms.timer - delta else ms.timer;
    Mouse(timer, if timer <= 0.0 then false else ms.moving)
  }

  /** The spread update: while the turret or the mouse moves it widens by `20 / 0.2` per
      second up to 20, otherwise it narrows by `20 / 1.0` per second down to 0. */
  function SpreadStep(spread: real, moving: bool, delta: real): (r: real)
    ensures 0.0 <= spread <= MaxAimSpread && delta >= 0.0 ==> 0.0 <= r <= MaxAimSpread
    ensures moving && spread <= MaxAimSpread && delta >= 0.0 ==> spread <= r
    ensures !moving && spread >= 0.0 && delta >= 0.0 ==> r <= spread
    ensures moving && SpreadGrowRate * delta >= MaxAimSpread - spread ==> r == MaxAimSpread
    ensures !moving && SpreadShrinkRate * delta >= spread ==> r == 0.0
  {
    if moving then Min(MaxAimSpread, spread + SpreadGrowRate * delta)
    else Max(0.0, spread - SpreadShrinkRate * delta)
  }

  function SpreadAfter(spread: real, moving: bool, ds: seq<real>): real
    decreases |ds|
  {
    if ds == [] then spread else SpreadAfter(SpreadStep(spread, moving, ds[0]), moving, ds[1..])
  }

  /** Over a run of frames the spread moves by its rate times the total time, never past
      its bounds: it is fully open after 0.2 s of movement and closed after 1 s of rest. */
  lemma {:induction false} SpreadOverTime(spread: real, moving: bool, ds: seq<real>)
    requires 0.0 <= spread <= MaxAimSpread && AllNonNegative(ds)
    ensures moving ==> SpreadAfter(spread, moving, ds) == Min(MaxAimSpread, spread + SpreadGrowRate * Sum(ds))
    ensures !moving ==> SpreadAfter(spread, moving, ds) == Max(0.0, spread - SpreadShrinkRate * Sum(ds))
    ensures moving && Sum(ds) >= 0.2 ==> SpreadAfter(spread, moving, ds) == MaxAimSpread
    ensures !moving && Sum(ds) >= 1.0 ==> SpreadAfter(spread, moving, ds) == 0.0
    decreases |ds|
  {
    if ds != [] {
      assert AllNonNegative(ds[1..]) by {
        forall i | 0 <= i < |ds[1..]| ensures ds[1..][i] >= 0.0 {
          assert ds[1..][i] == ds[i + 1];
        }
      }
      var s1 := SpreadStep(spread, moving, ds[0]);
      SpreadOverTime(s1, moving, ds[1..]);
      SumNonNegative(ds[1..]);
      assert Sum(ds) == ds[0] + Sum(ds[1..]);
    }
  }

  // ----------------------------------------------------------------------- firing

  /** The deviation of one shot in degrees, `(aimSpread / 20) * 15 * (random - 0.5) * 2`,
      for the draw `u` of `Math.random`. */
  function SpreadDeg(aimSpread: real, u: real): real {
    (aimSpread / MaxAimSpread * MaxSpreadDeg) * ((u - 0.5) * 2.0)
  }

  /** A shot deviates from the turret by at most three quarters of the spread, so at most 15
      degrees, and not at all when the spread is closed. */
  lemma SpreadWithinCone(aimSpread: real, u: real)
    requires 0.0 <= aimSpread <= MaxAimSpread && 0.0 <= u < 1.0
    ensures Abs(SpreadDeg(aimSpread, u)) <= aimSpread * 0.75 <= MaxSpreadDeg
    ensures aimSpread == 0.0 ==> SpreadDeg(aimSpread, u) == 0.0
  {
    var c := aimSpread / MaxAimSpread * MaxSpreadDeg;
    var v := (u - 0.5) * 2.0;
    assert c == aimSpread * 0.75;
    assert -1.0 <= v < 1.0;
    if v >= 0.0 {
      NonNegMul(c, v);
      NonNegMul(c, 1.0 - v);
    } else {
      NonNegMul(c, -v);
      NonNegMul(c, 1.0 + v);
    }
  }

  /** The bullet `fireProjectile(tank)` creates, 60 units out along the shot direction. */
  function Shot(m: MathLib, t: TankState, aimSpread: real, u: real): (b: BulletState)
    ensures b.ownerId == t.id && b.liveTime == 0.0 && !b.isDestroyed
    ensures b.x == t.x + b.dirX * MuzzleDistance && b.y == t.y + b.dirY * MuzzleDistance
    ensures m.Valid() ==> -1.0 <= b.dirX <= 1.0 && -1.0 <= b.dirY <= 1.0
  {
    var a := t.turretAngle + SpreadDeg(aimSpread, u);
    BulletState(t.x + m.sinDeg(a) * MuzzleDistance, t.y - m.cosDeg(a) * MuzzleDistance,
                m.sinDeg(a), -m.cosDeg(a), t.id, 0.0, false)
  }

  /** The `sendFire` payload that follows a shot in multiplayer: it carries the turret's
      own direction, without the spread. */
  function FireMessage(m: MathLib, t: TankState): Network.FireMsg {
    Network.FireMsg(t.x + m.sinDeg(t.turretAngle) * MuzzleDistance, t.y - m.cosDeg(t.turretAngle) * MuzzleDistance,
                    m.sinDeg(t.turretAngle), -m.cosDeg(t.turretAngle), t.id)
  }

  /** The bullet `handleRemoteFire(data)` creates. */
  function RemoteShot(data: Network.FireMsg): (b: BulletState)
    ensures b.liveTime == 0.0 && !b.isDestroyed && b.ownerId == data.ownerId
  {
    BulletState(data.x, data.y, data.dirX, data.dirY, data.ownerId, 0.0, false)
  }

  /** The shot the other side builds from the fire message is the local shot only when the
      spread puts no deviation on it: the message never carries the spread. */
  lemma RemoteShotIgnoresSpread(m: MathLib, t: TankState, aimSpread: real, u: real)
    ensures SpreadDeg(aimSpread, u) == 0.0 ==> RemoteShot(FireMessage(m, t)) == Shot(m, t, aimSpread, u)
    ensures RemoteShot(FireMessage(m, t)) == Shot(m, t, 0.0, u)
  {
  }

  // ----------------------------------------------------------------- collisions

  /** The circle test of `checkCollision` for one tank. */
  predicate Hits(m: MathLib, b: BulletState, t: TankState) {
    b.ownerId != t.id && !t.isDestroyed && m.Hypot(b.x - t.x, b.y - t.y) < HitRadius
  }

  /** The hit test is a distance below 30, that is a squared offset below 900. */
  lemma HitsWithinRadius(m: MathLib, b: BulletState, t: TankState)
    requires m.Valid()
    ensures Hits(m, b, t) <==> b.ownerId != t.id && !t.isDestroyed &&
                               (b.x - t.x) * (b.x - t.x) + (b.y - t.y) * (b.y - t.y) < HitRadius * HitRadius
  {
    HypotCompare(m, b.x - t.x, b.y - t.y, HitRadius);
  }

  /** `playerTank` and `enemyTank`. */
  datatype Duel = Duel(player: TankState, enemy: Option<TankState>)

  datatype Impact = Impact(hit: bool, duel: Duel, bullet: BulletState)

  /** `checkCollision(bullet)`: the player is tested first, then the enemy, who takes
      damage only in single-player (in multiplayer its health comes from its own side). */
  function Collide(m: MathLib, d: Duel, b: BulletState, multiplayer: bool): (r: Impact)
    ensures r.hit <==> Hits(m, b, d.player) || (d.enemy.Some? && Hits(m, b, d.enemy.value))
    ensures r.hit ==> r.bullet == b.(isDestroyed := true)
    ensures !r.hit ==> r == Impact(false, d, b)
    ensures Hits(m, b, d.player) ==> r.duel == d.(player := Damaged(d.player, HitDamage))
    ensures !Hits(m, b, d.player) ==> r.duel.player == d.player
    ensures b.ownerId == d.player.id ==> r.duel.player == d.player
    ensures d.enemy.Some? && b.ownerId == d.enemy.value.id ==> r.duel.enemy == d.enemy
    ensures r.duel.player == d.player || r.duel.enemy == d.enemy
    ensures multiplayer ==> r.duel.enemy == d.enemy
    ensures r.duel.enemy.Some? <==> d.enemy.Some?
  {
    if Hits(m, b, d.player) then
      Impact(true, d.(player := Damaged(d.player, HitDamage)), b.(isDestroyed := true))
    else if d.enemy.Some? && Hits(m, b, d.enemy.value) then
      Impact(true, if multiplayer then d else d.(enemy := Some(Damaged(d.enemy.value, HitDamage))),
             b.(isDestroyed := true))
    else Impact(false, d, b)
  }

  /** The bullets, and the two tanks they can hit. */
  datatype Arena = Arena(duel: Duel, bullets: seq<BulletState>)

  /** One pass of the `updateBullets` loop at index `k`: the bullet advances, is tested for
      a hit, and is spliced out if it hit or has expired. */
  function BulletFrame(m: MathLib, a: Arena, k: nat, delta: real, multiplayer: bool): (r: Arena)
    requires k < |a.bullets|
    ensures |r.bullets| == |a.bullets| || |r.bullets| == |a.bullets| - 1
    ensures r.bullets[..k] == a.bullets[..k]
    ensures |r.bullets| == |a.bullets| ==> r.bullets[k+1..] == a.bullets[k+1..] && !r.bullets[k].isDestroyed
    ensures |r.bullets| < |a.bullets| ==> r.bullets[k..] == a.bullets[k+1..]
  {
    var imp := Collide(m, a.duel, BulletStep(a.bullets[k], delta), multiplayer);
    Arena(imp.duel, if imp.bullet.isDestroyed then a.bullets[..k] + a.bullets[k+1..] else a.bullets[k := imp.bullet])
  }

  /** `updateBullets(delta)`: the bullets below `index`, from the last one down. */
  function Sweep(m: MathLib, a: Arena, index: nat, delta: real, multiplayer: bool): Arena
    requires index <= |a.bullets|
    decreases index
  {
    if index == 0 then a
    else Sweep(m, BulletFrame(m, a, index - 1, delta, multiplayer), index - 1, delta, multiplayer)
  }

  /** After the sweep every remaining bullet the sweep reached is live, the bullets past
      `index` are untouched, none is added, and in multiplayer the enemy is never damaged
      locally. */
  lemma {:induction false} SweepSound(m: MathLib, a: Arena, index: nat, delta: real, multiplayer: bool)
    requires index <= |a.bullets|
    requires forall i :: index <= i < |a.bullets| ==> !a.bullets[i].isDestroyed
    ensures var r := Sweep(m, a, index, delta, multiplayer);
            && |r.bullets| <= |a.bullets|
            && (forall i :: 0 <= i < |r.bullets| ==> !r.bullets[i].isDestroyed)
            && (multiplayer ==> r.duel.enemy == a.duel.enemy)
            && (r.duel.enemy.Some? <==> a.duel.enemy.Some?)
            && r.duel.player.id == a.duel.player.id
    decreases index
  {
    if index > 0 {
      var a1 := BulletFrame(m, a, index - 1, delta, multiplayer);
      assert forall i :: index - 1 <= i < |a1.bullets| ==> !a1.bullets[i].isDestroyed by {
        forall i | index - 1 <= i < |a1.bullets| ensures !a1.bullets[i].isDestroyed {
          if |a1.bullets| == |a.bullets| {
            if i > index - 1 {
              assert a1.bullets[i] == a1.bullets[index..][i - index] == a.bullets[index..][i - index];
            }
          } else {
            assert a1.bullets[i] == a1.bullets[index - 1..][i - index + 1] == a.bullets[index..][i - index + 1];
          }
        }
      }
      SweepSound(m, a1, index - 1, delta, multiplayer);
    }
  }

  /** A bullet of the player's own never hurts the player: over a whole sweep in which
      every bullet is the player's, the player's tank is unchanged. */
  lemma {:induction false} OwnBulletsSparePlayer(m: MathLib, a: Arena, index: nat, delta: real, multiplayer: bool)
    requires index <= |a.bullets|
    requires forall i :: 0 <= i < |a.bullets| ==> a.bullets[i].ownerId == a.duel.player.id
    ensures Sweep(m, a, index, delta, multiplayer).duel.player == a.duel.player
    decreases index
  {
    if index > 0 {
      var a1 := BulletFrame(m, a, index - 1, delta, multiplayer);
      assert forall i :: 0 <= i < |a1.bullets| ==> a1.bullets[i].ownerId == a1.duel.player.id by {
        forall i | 0 <= i < |a1.bullets| ensures a1.bullets[i].ownerId == a1.duel.player.id {
          if i < index - 1 {
            assert a1.bullets[i] == a1.bullets[..index - 1][i] == a.bullets[..index - 1][i];
          } else if |a1.bullets| == |a.bullets| {
            if i > index - 1 {
              assert a1.bullets[i] == a1.bullets[index..][i - index] == a.bullets[index..][i - index];
            }
          } else {
            assert a1.bullets[i] == a1.bullets[index - 1..][i - index + 1] == a.bullets[index..][i - index + 1];
          }
        }
      }
      OwnBulletsSparePlayer(m, a1, index - 1, delta, multiplayer);
    }
  }

  // ------------------------------------------------- visibility, camera, throttle

  /** `updateEnemyVisibility()`: the enemy exists and is nearer than 420. */
  function EnemyVisible(m: MathLib, player: TankState, enemy: Option<TankState>): bool {
    enemy.Some? && m.Hypot(player.x - enemy.value.x, player.y - enemy.value.y) < SightRadius
  }

  lemma VisibleWithinRadius(m: MathLib, player: TankState, enemy: Option<TankState>)
    requires m.Valid()
    ensures EnemyVisible(m, player, enemy) <==>
              enemy.Some? && Square(player.x - enemy.value.x) + Square(player.y - enemy.value.y) < SightRadius * SightRadius
  {
    if enemy.Some? {
      HypotCompare(m, player.x - enemy.value.x, player.y - enemy.value.y, SightRadius);
    }
  }

  /** One axis of `updateCamera`: centred on the player, kept inside the world. */
  function CameraAxis(p: real, viewport: real, extent: real): (c: real)
    requires viewport <= extent
    ensures 0.0 <= c <= extent - viewport
    ensures 0.0 <= p - viewport / 2.0 <= extent - viewport ==> c == p - viewport / 2.0
  {
    Max(0.0, Min(extent - viewport, p - viewport / 2.0))
  }

  /** A player inside the world is always on screen. */
  lemma PlayerOnScreen(p: real, viewport: real, extent: real)
    requires 0.0 <= viewport <= extent && 0.0 <= p <= extent
    ensures CameraAxis(p, viewport, extent) <= p <= CameraAxis(p, viewport, extent) + viewport
  {
  }

  /** The throttle of `gameLoop`: the timer grows by the frame time and a send resets it. */
  datatype Throttle = Throttle(timer: real, send: bool)

  function ThrottleStep(timer: real, delta: real): (r: Throttle)
    ensures r.send <==> timer + delta >= NetworkUpdateInterval
    ensures r.send ==> r.timer == 0.0
    ensures !r.send ==> r.timer == timer + delta
    ensures 0.0 <= timer && 0.0 <= delta ==> 0.0 <= r.timer < NetworkUpdateInterval
  {
    var t := timer + delta;
    if t >= NetworkUpdateInterval then Throttle(0.0, true) else Throttle(t, false)
  }

  /** The timer and the number of sends after `n` fixed frames. */
  function Throttled(timer: real, n: nat): (real, nat)
    decreases n
  {
    if n == 0 then (timer, 0)
    else
      var s := ThrottleStep(timer, FrameTime);
      var rest := Throttled(s.timer, n - 1);
      (rest.0, rest.1 + if s.send then 1 else 0)
  }

  /** At the fixed frame time a send happens on every seventh frame (every 0.112 s, not
      every 0.1 s): six frames of 0.016 stay below the interval, the seventh reaches it. */
  lemma SeventhFrameSends()
    ensures Throttled(0.0, 6) == (6.0 * FrameTime, 0)
    ensures Throttled(0.0, 7) == (0.0, 1)
  {
    assert Throttled(0.096, 1) == (0.0, 1);
    assert Throttled(0.08, 1) == (0.096, 0);
    assert Throttled(0.064, 1) == (0.08, 0);
    assert Throttled(0.048, 1) == (0.064, 0);
    assert Throttled(0.032, 1) == (0.048, 0);
    assert Throttled(0.016, 1) == (0.032, 0);
    assert Throttled(0.0, 1) == (0.016, 0);
  }

  /** Frames compose: `a` frames then `b` frames are `a + b` frames. */
  lemma {:induction false} ThrottledSplit(timer: real, a: nat, b: nat)
    ensures Throttled(timer, a + b) ==
              (Throttled(Throttled(timer, a).0, b).0, Throttled(timer, a).1 + Throttled(Throttled(timer, a).0, b).1)
    decreases a
  {
    if a > 0 {
      var s := ThrottleStep(timer, FrameTime);
      ThrottledSplit(s.timer, a - 1, b);
      assert a + b - 1 == (a - 1) + b;
    }
  }

  /** From a reset timer, `7 * q` frames send exactly `q` times and end on a reset timer. */
  lemma {:induction false} SendRate(q: nat)
    ensures Throttled(0.0, 7 * q) == (0.0, q)
    decreases q
  {
    if q > 0 {
      SeventhFrameSends();
      ThrottledSplit(0.0, 7, 7 * (q - 1));
      assert 7 + 7 * (q - 1) == 7 * q;
      SendRate(q - 1);
    }
  }

  // ---------------------------------------------------------------------- outcome

  datatype Outcome = Victory | Defeat

  /** `checkGameOutcome()`: the outcome to show this frame, if any. */
  function OutcomeNow(shown: bool, player: TankState, enemy: Option<TankState>): (r: Option<Outcome>)
    ensures shown ==> r.None?
    ensures !shown && player.isDestroyed ==> r == Some(Defeat)
    ensures !shown && !player.isDestroyed ==> (r == Some(Victory) <==> enemy.Some? && enemy.value.isDestroyed)
    ensures r.Some? ==> player.isDestroyed || (enemy.Some? && enemy.value.isDestroyed)
  {
    if shown then None
    else if player.isDestroyed then Some(Defeat)
    else if enemy.Some? && enemy.value.isDestroyed then Some(Victory)
    else None
  }

  // --------------------------------------------------------------- player frame

  /** `moveDir * moveSpeed * delta`. */
  function Stride(dir: real, speed: real, delta: real): real {
    dir * speed * delta
  }

  /** The keyboard part of `updatePlayerLogic`: the hull turns by 45 degrees per second
      (and is never wrapped), and the tank drives along the turned hull. */
  function Steer(m: MathLib, t: TankState, keys: Input.KeyState, delta: real): (r: TankState)
    ensures r == t.(hullAngle := r.hullAngle, x := r.x, y := r.y)
    ensures keys.turnLeft == keys.turnRight ==> r.hullAngle == t.hullAngle
    ensures keys.turnLeft && !keys.turnRight ==> r.hullAngle == t.hullAngle - TurnSpeed * delta
    ensures keys.turnRight && !keys.turnLeft ==> r.hullAngle == t.hullAngle + TurnSpeed * delta
    ensures !keys.forward && !keys.backward ==> r.x == t.x && r.y == t.y
  {
    var h1 := if keys.turnLeft then t.hullAngle - TurnSpeed * delta else t.hullAngle;
    var h := if keys.turnRight then h1 + TurnSpeed * delta else h1;
    if keys.forward || keys.backward then
      var step := Stride(if keys.forward then 1.0 else -1.0, t.settings.moveSpeed, delta);
      t.(hullAngle := h, x := t.x + m.sinDeg(h) * step, y := t.y - m.cosDeg(h) * step)
    else t.(hullAngle := h)
  }

  /** The hull angle is not kept in [0, 360): turning left from 0 makes it negative. */
  lemma HullAngleIsNotWrapped(m: MathLib, t: TankState, keys: Input.KeyState, delta: real)
    requires keys.turnLeft && !keys.turnRight && t.hullAngle == 0.0 && delta > 0.0
    ensures Steer(m, t, keys, delta).hullAngle < 0.0
  {
  }

  /** The player's tank and the fields `updatePlayerLogic` updates around it. */
  datatype Pilot = Pilot(tank: TankState, aimSpread: real, isTurretMoving: bool, mouse: Mouse)

  /** A player frame: the new pilot, the bullet fired if any, and the fire message sent. */
  datatype PilotFrame = PilotFrame(pilot: Pilot, shot: Option<BulletState>, fire: Option<Network.FireMsg>)

  /** The steering, aiming and spread part of a live player frame, before the fire key is
      read. */
  function Maneuvered(m: MathLib, p: Pilot, keys: Input.KeyState, pointer: Input.PointerState,
                      cameraX: real, cameraY: real, delta: real): (q: Pilot)
    ensures q.tank == Steer(m, p.tank, keys, delta).(turretAngle := q.tank.turretAngle)
  {
    var t1 := Steer(m, p.tank, keys, delta);
    var aim := AimStep(m, t1, pointer.viewportX + cameraX, pointer.viewportY + cameraY, delta);
    var turretMoving := Abs(aim.applied) > TurretMovingEpsilon;
    var mouse := MouseStep(p.mouse, delta);
    Pilot(t1.(turretAngle := aim.turretAngle), SpreadStep(p.aimSpread, turretMoving || mouse.moving, delta),
          turretMoving, mouse)
  }

  /** `updatePlayerLogic(delta)` with pointer state, the camera and the draw `u` of
      `Math.random` for the spread. */
  function PilotStep(m: MathLib, p: Pilot, keys: Input.KeyState, pointer: Input.PointerState,
                     cameraX: real, cameraY: real, delta: real, u: real, multiplayer: bool): PilotFrame
  {
    if p.tank.isDestroyed then PilotFrame(p, None, None)
    else
      var q := Maneuvered(m, p, keys, pointer, cameraX, cameraY, delta);
      var t2 := q.tank;
      var fires := keys.firing && t2.reloadTimer <= 0.0;
      var t3 := if fires then t2.(reloadTimer := t2.settings.fireCooldown) else t2;
      PilotFrame(q.(tank := TankUpdate(t3, delta)),
                 if fires then Some(Shot(m, t2, q.aimSpread, u)) else None,
                 if fires && multiplayer then Some(FireMessage(m, t2)) else None)
  }

  /** The fields a pilot keeps in range: the spread in [0, 20] and the turret in [0, 360). */
  predicate PilotInRange(p: Pilot) {
    0.0 <= p.aimSpread <= MaxAimSpread && 0.0 <= p.tank.turretAngle < 360.0
  }

  /** A player frame keeps the spread in [0, 20] and the turret in [0, 360), turns the turret
      by at most `45 * delta`, leaves a destroyed tank and everything around it as it was,
      and fires exactly when the live tank's fire key is down and its reload timer has run
      out, restarting the timer from the cooldown. */
  lemma PilotStepSound(m: MathLib, p: Pilot, keys: Input.KeyState, pointer: Input.PointerState,
                       cameraX: real, cameraY: real, delta: real, u: real, multiplayer: bool)
    requires m.Valid() && PilotInRange(p) && delta >= 0.0
    ensures var f := PilotStep(m, p, keys, pointer, cameraX, cameraY, delta, u, multiplayer);
            && PilotInRange(f.pilot)
            && Abs(ShortestArc(f.pilot.tank.turretAngle, p.tank.turretAngle)) <= AppRules.TurnBudget(TurretTurnRate, delta)
            && (p.tank.isDestroyed ==> f == PilotFrame(p, None, None))
            && (f.shot.Some? <==> !p.tank.isDestroyed && keys.firing && p.tank.reloadTimer <= 0.0)
            && (f.fire.Some? <==> f.shot.Some? && multiplayer)
            && (f.shot.Some? ==> f.pilot.tank.reloadTimer == ReloadStep(p.tank.settings.fireCooldown, delta))
            && (!p.tank.isDestroyed ==> InWorld(f.pilot.tank))
  {
    if p.tank.isDestroyed {
      AppRules.ArcToSelf(p.tank.turretAngle);
    } else {
      ManeuveredInRange(m, p, keys, pointer, cameraX, cameraY, delta);
    }
  }

  /** Steering, aiming and the spread keep the pilot in range, turn the turret by at most
      `45 * delta` and leave the reload timer and the settings alone. */
  lemma ManeuveredInRange(m: MathLib, p: Pilot, keys: Input.KeyState, pointer: Input.PointerState,
                          cameraX: real, cameraY: real, delta: real)
    requires m.Valid() && PilotInRange(p) && delta >= 0.0
    ensures var q := Maneuvered(m, p, keys, pointer, cameraX, cameraY, delta);
            && PilotInRange(q)
            && Abs(ShortestArc(q.tank.turretAngle, p.tank.turretAngle)) <= AppRules.TurnBudget(TurretTurnRate, delta)
            && q.tank.reloadTimer == p.tank.reloadTimer && q.tank.settings == p.tank.settings
  {
    var t1 := Steer(m, p.tank, keys, delta);
    var tx, ty := pointer.viewportX + cameraX, pointer.viewportY + cameraY;
    AimBounded(m, t1, tx, ty, delta);
    var q := Maneuvered(m, p, keys, pointer, cameraX, cameraY, delta);
    assert q.tank.turretAngle == AimStep(m, t1, tx, ty, delta).turretAngle;
    assert t1.turretAngle == p.tank.turretAngle;
  }

  // ------------------------------------------------------- remote interpolation

  /** `interpolateEnemyTank(delta)`. Targets not yet set are taken from the live tank;
      otherwise position and angles approach their targets. */
  function Interpolate(r: Remote, delta: real): (w: Remote)
    ensures r.targets.targetX.None? ==>
              w == r.(targets := Targets(Some(r.tank.x), Some(r.tank.y), Some(r.tank.hullAngle), Some(r.tank.turretAngle)))
    ensures r.targets.targetX.Some? ==>
              w.targets == r.targets && w.tank == r.tank.(x := w.tank.x, y := w.tank.y, hullAngle := w.tank.hullAngle,
                                                        turretAngle := w.tank.turretAngle)
  {
    var t := r.targets;
    if t.targetX.None? then
      r.(targets := Targets(Some(r.tank.x), Some(r.tank.y), Some(r.tank.hullAngle), Some(r.tank.turretAngle)))
    else
      var k := Rate(LerpSpeed, delta);
      var ka := Rate(AngleLerpSpeed, delta);
      r.(tank := r.tank.(
        x := Approach(r.tank.x, t.targetX.value, k),
        y := if t.targetY.Some? then Approach(r.tank.y, t.targetY.value, k) else r.tank.y,
        hullAngle := if t.targetHullAngle.Some? then InterpolateAngle(r.tank.hullAngle, t.targetHullAngle.value, ka)
                     else r.tank.hullAngle,
        turretAngle := if t.targetTurretAngle.Some? then InterpolateAngle(r.tank.turretAngle, t.targetTurretAngle.value, ka)
                       else r.tank.turretAngle))
  }

  /** The remote tank's angles are in [0, 360). */
  predicate AnglesInRange(t: TankState) {
    0.0 <= t.hullAngle < 360.0 && 0.0 <= t.turretAngle < 360.0
  }

  /** At the game loop's frame time a remote tank's position moves a `0.128` part of the way
      to its target (so lands between the two) and its angles stay in [0, 360), whatever the
      targets. */
  lemma InterpolateAtFrameTime(r: Remote)
    requires AnglesInRange(r.tank)
    ensures AnglesInRange(Interpolate(r, FrameTime).tank)
    ensures r.targets.targetX.Some? ==>
              Interpolate(r, FrameTime).tank.x == Approach(r.tank.x, r.targets.targetX.value, 0.128) &&
              Min(r.tank.x, r.targets.targetX.value) <= Interpolate(r, FrameTime).tank.x <= Max(r.tank.x, r.targets.targetX.value)
    ensures r.targets.targetX.Some? && r.targets.targetY.Some? ==>
              Min(r.tank.y, r.targets.targetY.value) <= Interpolate(r, FrameTime).tank.y <= Max(r.tank.y, r.targets.targetY.value)
  {
    var t := r.targets;
    assert Rate(LerpSpeed, FrameTime) == 0.128;
    if t.targetX.Some? {
      ApproachBetween(r.tank.x, t.targetX.value, 0.128);
      if t.targetY.Some? {
        ApproachBetween(r.tank.y, t.targetY.value, 0.128);
      }
      if t.targetHullAngle.Some? {
        FixedFrameAngleLands(r.tank.hullAngle, t.targetHullAngle.value);
      }
      if t.targetTurretAngle.Some? {
        FixedFrameAngleLands(r.tank.turretAngle, t.targetTurretAngle.value);
      }
    }
  }

  // ------------------------------------------------------------------ the manager

  /** The body of `interpolateEnemyTank(delta)` for a tank that is there. */
  method Glide(e: TankCore, delta: real)
    modifies e
    ensures Remote(e.State(), e.Shadow()) == Interpolate(old(Remote(e.State(), e.Shadow())), delta)
    ensures e.id == old(e.id)
  {
    if e.targetX.None? {
      e.targetX := Some(e.x);
      e.targetY := Some(e.y);
      e.targetHullAngle := Some(e.hullAngle);
      e.targetTurretAngle := Some(e.turretAngle);
      return;
    }
    var k := Rate(LerpSpeed, delta);
    var ka := Rate(AngleLerpSpeed, delta);
    e.x := Approach(e.x, e.targetX.value, k);
    if e.targetY.Some? {
      e.y := Approach(e.y, e.targetY.value, k);
    }
    if e.targetHullAngle.Some? {
      e.hullAngle := InterpolateAngle(e.hullAngle, e.targetHullAngle.value, ka);
    }
    if e.targetTurretAngle.Some? {
      e.turretAngle := InterpolateAngle(e.turretAngle, e.targetTurretAngle.value, ka);
    }
  }

  /** The first accepted message of `handleRemotePlayerUpdate`: the enemy tank it builds,
      or `null` when the `TankCore` constructor throws. */
  method Meet(enemyId: string, data: Network.PositionMsg) returns (t: TankCore?)
    requires FromEnemy(enemyId, data)
    ensures t != null ==> fresh(t) && t.id == enemyId && AnglesInRange(t.State())
    ensures Contact(NameOr(data.name), if t == null then None else Some(Remote(t.State(), t.Shadow())))
            == Receive(enemyId, Contact("", None), data)
  {
    if PresetDefaults(PresetIdOr(data.presetId)).None? {
      return null;
    }
    t := new TankCore(RemoteInit(enemyId, data));
    if !KnownPreset(data.presetId) {
      return;
    }
    t.targetX := data.x;
    t.targetY := data.y;
    t.targetHullAngle := Some(NumberOr(data.hullAngle, 0.0));
    t.targetTurretAngle := Some(NumberOr(data.turretAngle, 0.0));
    WriteMessage(t, data);
  }

  /** The tail of `handleRemotePlayerUpdate`: the fields present in the message are written
      to the enemy tank. */
  method WriteMessage(e: TankCore, data: Network.PositionMsg)
    modifies e
    ensures Remote(e.State(), e.Shadow()) == WritePresent(old(Remote(e.State(), e.Shadow())), data)
    ensures e.id == old(e.id)
  {
    if data.x.Some? { e.targetX := data.x; }
    if data.y.Some? { e.targetY := data.y; }
    if data.hullAngle.Some? { e.targetHullAngle := data.hullAngle; }
    if data.turretAngle.Some? { e.targetTurretAngle := data.turretAngle; }
    if data.health.Some? { e.health := data.health.value; }
    if data.isDestroyed.Some? { e.isDestroyed := data.isDestroyed.value; }
  }

  /** The turning part of `aimTurretTowards`: the turret turns along the shortest arc
      towards the target, by at most the turn budget, and the turn applied is returned. */
  method TurnTurret(m: MathLib, tank: TankCore, targetX: real, targetY: real, delta: real) returns (appliedTurn: real)
    modifies tank
    ensures var a := AimStep(m, old(tank.State()), targetX, targetY, delta);
            tank.State() == old(tank.State()).(turretAngle := a.turretAngle) && appliedTurn == a.applied
    ensures tank.Shadow() == old(tank.Shadow())
    ensures m.Valid() && 0.0 <= old(tank.turretAngle) < 360.0 && delta >= 0.0 ==> 0.0 <= tank.turretAngle < 360.0
  {
    if m.Valid() && 0.0 <= tank.turretAngle < 360.0 && delta >= 0.0 {
      AimBounded(m, tank.State(), targetX, targetY, delta);
    }
    var dx := targetX - tank.x;
    var dy := targetY - tank.y;
    var targetAngle := WrapDeg(m.atan2Deg(dx, -dy));
    var angleDiff := ShortestArc(targetAngle, tank.turretAngle);
    var maxTurn := AppRules.TurnBudget(TurretTurnRate, delta);
    appliedTurn := ClampTurn(angleDiff, maxTurn);
    tank.turretAngle := WrapDeg(tank.turretAngle + appliedTurn);
  }

  /** The keyboard block of `updatePlayerLogic` on the player's tank: the hull turns, then
      the tank drives along it. */
  method Drive(m: MathLib, t: TankCore, keys: Input.KeyState, delta: real)
    modifies t
    ensures t.State() == Steer(m, old(t.State()), keys, delta)
    ensures t.Shadow() == old(t.Shadow())
  {
    if keys.turnLeft {
      t.hullAngle := t.hullAngle - TurnSpeed * delta;
    }
    if keys.turnRight {
      t.hullAngle := t.hullAngle + TurnSpeed * delta;
    }
    if keys.forward || keys.backward {
      var moveDir := if keys.forward then 1.0 else -1.0;
      var step := Stride(moveDir, t.settings.moveSpeed, delta);
      t.x := t.x + m.sinDeg(t.hullAngle) * step;
      t.y := t.y - m.cosDeg(t.hullAngle) * step;
    }
  }

  /** The mouse timer and spread block of `updatePlayerLogic`, on the manager's
      `mouseMoveTimer`, `isMouseMoving` and `aimSpread`. */
  method Spreading(mouseMoveTimer: real, isMouseMoving: bool, aimSpread: real, isTurretMoving: bool, delta: real)
    returns (timer: real, moving: bool, spread: real)
    ensures Mouse(timer, moving) == MouseStep(Mouse(mouseMoveTimer, isMouseMoving), delta)
    ensures spread == SpreadStep(aimSpread, isTurretMoving || moving, delta)
  {
    timer, moving, spread := mouseMoveTimer, isMouseMoving, aimSpread;
    if timer > 0.0 {
      timer := timer - delta;
    }
    if timer <= 0.0 {
      moving := false;
    }
    if isTurretMoving || moving {
      spread := Min(MaxAimSpread, spread + SpreadGrowRate * delta);
    } else {
      spread := Max(0.0, spread - SpreadShrinkRate * delta);
    }
  }

  /** The snapshot `gameLoop` hands to `sendPositionDelta`. */
  function SnapshotOf(id: string, name: string, t: TankState): Network.PlayerSnapshot {
    Network.PlayerSnapshot(id, name, t.x, t.y, t.hullAngle, t.turretAngle, t.health, t.isDestroyed, t.presetId)
  }

  /** The manager's own fields that change while the game runs. */
  datatype Fields = Fields(
    enemyTank: TankCore?, enemyName: string, bullets: seq<BulletState>,
    cameraX: real, cameraY: real, outcomeShown: bool, shown: seq<Outcome>, isEnemyVisible: bool,
    aimSpread: real, isTurretMoving: bool, isMouseMoving: bool, mouseMoveTimer: real, networkUpdateTimer: real)

  class GameManager {
    /** `Math.sqrt`, `Math.sin`, `Math.cos` and `Math.atan2`. */
    const m: MathLib
    const isHost: bool
    const isMultiplayer: bool
    const myPlayerId: string
    const enemyPlayerId: string
    /** The stored player name, or `'Commander'`. */
    const playerName: string
    const playerTank: TankCore
    var enemyTank: TankCore?
    /** `enemyName`; the empty string stands for `undefined`. */
    var enemyName: string
    /** The state of the `core` of each entry of `bullets`. */
    var bullets: seq<BulletState>
    var cameraX: real
    var cameraY: real
    const input: Input.InputHandler
    /** The connection, in multiplayer only. */
    const network: Network.NetworkHandler?
    const fog: Fog.FogRenderer
    var outcomeShown: bool
    /** The outcomes `showOutcome` has put on screen, in order. */
    var shown: seq<Outcome>
    var isEnemyVisible: bool
    var aimSpread: real
    var isTurretMoving: bool
    var isMouseMoving: bool
    var mouseMoveTimer: real
    var networkUpdateTimer: real

    ghost function Own(): Fields
      reads this
    {
      Fields(enemyTank, enemyName, bullets, cameraX, cameraY, outcomeShown, shown, isEnemyVisible,
             aimSpread, isTurretMoving, isMouseMoving, mouseMoveTimer, networkUpdateTimer)
    }

    ghost predicate Valid()
      reads this, playerTank, enemyTank, fog
    {
      fog.Valid() && Wired() && Latched() && InRange()
    }

    /** The two tanks are distinct and carry the players' ids, the connection exists exactly
        in multiplayer, a single-player game always has its enemy, and a remote enemy's
        angles are in [0, 360). */
    ghost predicate Wired()
      reads this`enemyTank, playerTank`id, enemyTank
    {
      && playerTank != enemyTank
      && playerTank.id == myPlayerId && myPlayerId != enemyPlayerId
      && (enemyTank != null ==> enemyTank.id == enemyPlayerId)
      && (isMultiplayer <==> network != null)
      && (!isMultiplayer ==> enemyTank != null)
      && (isMultiplayer && enemyTank != null ==> AnglesInRange(enemyTank.State()))
    }

    /** At most one outcome is ever shown, and `outcomeShown` says whether it was. */
    ghost predicate Latched()
      reads this`shown, this`outcomeShown
    {
      |shown| <= 1 && (outcomeShown <==> shown != [])
    }

    /** The spread, the turret and the send timer stay in their ranges. */
    ghost predicate InRange()
      reads this`aimSpread, this`networkUpdateTimer, playerTank`turretAngle
    {
      0.0 <= aimSpread <= MaxAimSpread && 0.0 <= playerTank.turretAngle < 360.0
      && 0.0 <= networkUpdateTimer < NetworkUpdateInterval
    }

    ghost function EnemyState(): Option<TankState>
      reads this, enemyTank
    {
      if enemyTank == null then None else Some(enemyTank.State())
    }

    ghost function RemoteState(): Option<Remote>
      reads this, enemyTank
    {
      if enemyTank == null then None else Some(Remote(enemyTank.State(), enemyTank.Shadow()))
    }

    ghost function PilotState(): Pilot
      reads this, playerTank
    {
      Pilot(playerTank.State(), aimSpread, isTurretMoving, Mouse(mouseMoveTimer, isMouseMoving))
    }

    /** The connection's state, in multiplayer. */
    ghost function NetView(): Option<Network.NetState>
      reads this, network
    {
      if network == null then None else Some(network.State())
    }

    ghost function ArenaState(): Arena
      reads this, playerTank, enemyTank
    {
      Arena(Duel(playerTank.State(), EnemyState()), bullets)
    }

    /** `init()` with the URL parameters `room`, `tank` and `host`, the stored player name,
        and whether the fog canvas has a context. An unknown tank id makes the player's
        `TankCore` throw, so it is excluded. */
    constructor (m: MathLib, roomId: Option<string>, tankParam: Option<string>, isHost: bool,
                 storedName: Option<string>, hasContext: bool)
      requires m.Valid() && PresetDefaults(PresetIdOr(tankParam)).Some?
      ensures Valid() && this.m == m
      ensures isMultiplayer == InRoom(roomId) && this.isHost == isHost
      ensures Ids(myPlayerId, enemyPlayerId) == AssignIds(roomId, isHost)
      ensures playerTank.State() == InitialTank(TankInit(myPlayerId, Some(WorldWidth / 2.0), Some(WorldHeight / 2.0),
                                                        None, None, None, Some(true), Some(PresetIdOr(tankParam)), None))
      ensures isMultiplayer ==> enemyTank == null && network.State() == Network.NetState(true, None, [])
      ensures !isMultiplayer ==>
                && enemyTank != null && enemyName == "AI: Tiger MK-II"
                && enemyTank.State() == InitialTank(TankInit("ai_enemy", Some(WorldWidth * 0.75), Some(WorldHeight * 0.35),
                                                             None, None, None, Some(false), Some("tiger"), None))
      ensures bullets == [] && shown == [] && !outcomeShown && aimSpread == 0.0 && networkUpdateTimer == 0.0
    {
      this.m := m;
      this.isHost := isHost;
      var ids := AssignIds(roomId, isHost);
      myPlayerId := ids.me;
      enemyPlayerId := ids.enemy;
      var tankId := PresetIdOr(tankParam);
      playerTank := new TankCore(TankInit(ids.me, Some(WorldWidth / 2.0), Some(WorldHeight / 2.0),
                                          None, None, None, Some(true), Some(tankId), None));
      input := new Input.InputHandler();
      var name := if storedName.Some? && storedName.value != "" then storedName.value else "Commander";
      playerName := name;
      if InRoom(roomId) {
        isMultiplayer := true;
        var net := new Network.NetworkHandler(roomId.value, name);
        net.Connect();
        network := net;
        enemyTank := null;
        enemyName := "";
      } else {
        isMultiplayer := false;
        network := null;
        enemyTank := new TankCore(TankInit("ai_enemy", Some(WorldWidth * 0.75), Some(WorldHeight * 0.35),
                                           None, None, None, Some(false), Some("tiger"), None));
        enemyName := "AI: Tiger MK-II";
      }
      bullets := [];
      cameraX, cameraY := 0.0, 0.0;
      outcomeShown := false;
      shown := [];
      isEnemyVisible := false;
      aimSpread := 0.0;
      isTurretMoving, isMouseMoving := false, false;
      mouseMoveTimer := 0.0;
      networkUpdateTimer := 0.0;
      fog := new Fog.FogRenderer(hasContext);
    }

    /** `handleRemotePlayerUpdate(data)`. */
    method HandleRemotePlayerUpdate(data: Network.PositionMsg)
      requires Valid()
      modifies this`enemyTank, this`enemyName, enemyTank
      ensures Valid()
      ensures Contact(enemyName, RemoteState()) == Receive(enemyPlayerId, old(Contact(enemyName, RemoteState())), data)
      ensures Own() == old(Own()).(enemyTank := enemyTank, enemyName := enemyName)
      ensures old(enemyTank) != null ==> enemyTank == old(enemyTank)
      ensures old(enemyTank) == null && enemyTank != null ==> fresh(enemyTank)
    {
      if data.id.None? || data.id.value == "" || data.id.value != enemyPlayerId {
        return;
      }
      if enemyTank == null {
        var t := Meet(enemyPlayerId, data);
        enemyName, enemyTank := NameOr(data.name), t;
      } else {
        WriteMessage(enemyTank, data);
      }
    }

    /** `handleRemoteFire(data)`: a bullet from the other side joins the list. */
    method HandleRemoteFire(data: Network.FireMsg)
      requires Valid()
      modifies this`bullets
      ensures Valid()
      ensures Own() == old(Own()).(bullets := old(bullets) + [RemoteShot(data)])
    {
      var b := BulletState(data.x, data.y, data.dirX, data.dirY, data.ownerId, 0.0, false);
      bullets := bullets + [b];
    }

    /** The `pointermove` listener of `init`: pointer positions are read against a fixed camera
        at the origin, and the mouse counts as moving for the next 0.1 s. */
    method OnPointerMove(client: Input.Point, rectOrigin: Input.Point)
      requires Valid()
      modifies this`isMouseMoving, this`mouseMoveTimer, input
      ensures Valid()
      ensures input.pointerState == Input.PointerState(client.x - rectOrigin.x, client.y - rectOrigin.y,
                                                       client.x - rectOrigin.x, client.y - rectOrigin.y)
      ensures input.keyState == old(input.keyState)
      ensures Own() == old(Own()).(isMouseMoving := true, mouseMoveTimer := MouseMoveHold)
    {
      input.UpdatePointer(client, rectOrigin, Input.Point(0.0, 0.0));
      isMouseMoving := true;
      mouseMoveTimer := MouseMoveHold;
    }

    /** `updateEnemyVisibility()`. */
    method UpdateEnemyVisibility()
      requires Valid()
      modifies this`isEnemyVisible
      ensures Valid()
      ensures Own() == old(Own()).(isEnemyVisible := EnemyVisible(m, playerTank.State(), EnemyState()))
    {
      if enemyTank == null {
        isEnemyVisible := false;
        return;
      }
      var dx := playerTank.x - enemyTank.x;
      var dy := playerTank.y - enemyTank.y;
      var dist := m.Hypot(dx, dy);
      isEnemyVisible := dist < SightRadius;
    }

    /** `interpolateEnemyTank(delta)`. */
    method InterpolateEnemyTank(delta: real)
      requires Valid() && isMultiplayer && delta == FrameTime
      modifies enemyTank
      ensures Valid()
      ensures old(RemoteState()).Some? ==> RemoteState() == Some(Interpolate(old(RemoteState()).value, delta))
      ensures old(RemoteState()).None? ==> RemoteState() == None
    {
      var e := enemyTank;
      if e == null {
        return;
      }
      InterpolateAtFrameTime(Remote(e.State(), e.Shadow()));
      Glide(e, delta);
    }

    /** `checkGameOutcome()`: a defeat or victory is shown once, and never replaced. */
    method CheckGameOutcome()
      requires Valid()
      modifies this`outcomeShown, this`shown
      ensures Valid()
      ensures var o := OutcomeNow(old(outcomeShown), playerTank.State(), EnemyState());
              Own() == old(Own()).(outcomeShown := old(outcomeShown) || o.Some?,
                                   shown := old(shown) + if o.Some? then [o.value] else [])
    {
      if outcomeShown {
        return;
      }
      if playerTank.isDestroyed {
        ShowOutcome(Defeat);
      } else if enemyTank != null && enemyTank.isDestroyed {
        ShowOutcome(Victory);
      }
    }

    /** The state change of `showOutcome(type)`; the overlay is not modelled. */
    method ShowOutcome(o: Outcome)
      modifies this`outcomeShown, this`shown
      ensures Own() == old(Own()).(outcomeShown := true, shown := old(shown) + [o])
    {
      outcomeShown := true;
      shown := shown + [o];
    }

    /** `updateCamera(delta)`. */
    method UpdateCamera()
      requires Valid()
      modifies this`cameraX, this`cameraY
      ensures Valid()
      ensures Own() == old(Own()).(cameraX := CameraAxis(playerTank.x, ViewportWidth, WorldWidth),
                                   cameraY := CameraAxis(playerTank.y, ViewportHeight, WorldHeight))
    {
      var targetX := playerTank.x - ViewportWidth / 2.0;
      var targetY := playerTank.y - ViewportHeight / 2.0;
      cameraX := Max(0.0, Min(WorldWidth - ViewportWidth, targetX));
      cameraY := Max(0.0, Min(WorldHeight - ViewportHeight, targetY));
    }

    /** `aimTurretTowards(tank, targetX, targetY, delta)`. */
    method AimTurretTowards(tank: TankCore, targetX: real, targetY: real, delta: real)
      modifies this`isTurretMoving, tank
      ensures var a := AimStep(m, old(tank.State()), targetX, targetY, delta);
              && tank.State() == old(tank.State()).(turretAngle := a.turretAngle)
              && Own() == old(Own()).(isTurretMoving := Abs(a.applied) > TurretMovingEpsilon)
      ensures tank.Shadow() == old(tank.Shadow())
      ensures m.Valid() && 0.0 <= old(tank.turretAngle) < 360.0 && delta >= 0.0 ==> 0.0 <= tank.turretAngle < 360.0
    {
      var appliedTurn := TurnTurret(m, tank, targetX, targetY, delta);
      isTurretMoving := Abs(appliedTurn) > TurretMovingEpsilon;
    }

    /** `fireProjectile(tank)` with the draw `u` of `Math.random()`: a bullet leaves the
        muzzle along the turret plus the spread, and the tank's reload restarts. */
    method FireProjectile(tank: TankCore, u: real)
      modifies this`bullets, tank
      ensures tank.State() == old(tank.State()).(reloadTimer := tank.settings.fireCooldown)
      ensures tank.Shadow() == old(tank.Shadow())
      ensures Own() == old(Own()).(bullets := old(bullets) + [Shot(m, old(tank.State()), aimSpread, u)])
    {
      var angle := tank.turretAngle + SpreadDeg(aimSpread, u);
      var b := BulletState(tank.x + m.sinDeg(angle) * MuzzleDistance, tank.y - m.cosDeg(angle) * MuzzleDistance,
                           m.sinDeg(angle), -m.cosDeg(angle), tank.id, 0.0, false);
      bullets := bullets + [b];
      tank.reloadTimer := tank.settings.fireCooldown;
    }

    /** `updatePlayerLogic(delta)` with the draw `u` of `Math.random()`. */
    method UpdatePlayerLogic(delta: real, u: real)
      requires Valid() && m.Valid() && delta >= 0.0
      modifies this`aimSpread, this`isTurretMoving, this`isMouseMoving, this`mouseMoveTimer, this`bullets, playerTank, network
      ensures Valid()
      ensures var f := PilotStep(m, old(PilotState()), old(input.keyState), old(input.pointerState), old(cameraX),
                                 old(cameraY), delta, u, isMultiplayer);
              && PilotState() == f.pilot
              && bullets == old(bullets) + (if f.shot.Some? then [f.shot.value] else [])
              && NetView() == if f.fire.Some? && network != null then Some(Network.FireStep(old(network.State()), f.fire.value))
                              else old(NetView())
      ensures Own() == old(Own()).(bullets := bullets, aimSpread := aimSpread, isTurretMoving := isTurretMoving,
                                   isMouseMoving := isMouseMoving, mouseMoveTimer := mouseMoveTimer)
      ensures playerTank.Shadow() == old(playerTank.Shadow())
    {
      if playerTank.isDestroyed {
        return;
      }
      Maneuver(delta);
      Trigger(input.keyState.firing, u);
      playerTank.Update(delta);
    }

    /** The steering, aiming and spread blocks of `updatePlayerLogic`. */
    method Maneuver(delta: real)
      requires m.Valid() && 0.0 <= playerTank.turretAngle < 360.0 && delta >= 0.0
      modifies this`aimSpread, this`isTurretMoving, this`isMouseMoving, this`mouseMoveTimer, playerTank
      ensures PilotState() == Maneuvered(m, old(PilotState()), old(input.keyState), old(input.pointerState),
                                         old(cameraX), old(cameraY), delta)
      ensures Own() == old(Own()).(aimSpread := aimSpread, isTurretMoving := isTurretMoving,
                                   isMouseMoving := isMouseMoving, mouseMoveTimer := mouseMoveTimer)
      ensures playerTank.Shadow() == old(playerTank.Shadow())
      ensures 0.0 <= playerTank.turretAngle < 360.0
    {
      Drive(m, playerTank, input.keyState, delta);
      var worldMouseX := input.pointerState.viewportX + cameraX;
      var worldMouseY := input.pointerState.viewportY + cameraY;
      AimTurretTowards(playerTank, worldMouseX, worldMouseY, delta);
      mouseMoveTimer, isMouseMoving, aimSpread := Spreading(mouseMoveTimer, isMouseMoving, aimSpread, isTurretMoving, delta);
    }

    /** The firing block of `updatePlayerLogic`: with the fire key down and the reload run
        out the player's tank fires and, in multiplayer, the shot is sent. */
    method Trigger(firing: bool, u: real)
      requires isMultiplayer ==> network != null
      modifies this`bullets, playerTank, network
      ensures var t := old(playerTank.State());
              var fires := firing && t.reloadTimer <= 0.0;
              && playerTank.State() == (if fires then t.(reloadTimer := t.settings.fireCooldown) else t)
              && Own() == old(Own()).(bullets := old(bullets) + if fires then [Shot(m, t, aimSpread, u)] else [])
              && NetView() == if fires && isMultiplayer then Some(Network.FireStep(old(network.State()), FireMessage(m, t)))
                              else old(NetView())
      ensures playerTank.Shadow() == old(playerTank.Shadow())
    {
      if firing && playerTank.reloadTimer <= 0.0 {
        ghost var t0 := playerTank.State();
        FireProjectile(playerTank, u);
        if isMultiplayer {
          ghost var t1 := playerTank.State();
          assert FireMessage(m, t1) == FireMessage(m, t0);
          SendShot();
        }
      }
    }

    /** The `sendFire` call after a shot: the turret's own direction, 60 units out. */
    method SendShot()
      requires network != null
      modifies network
      ensures network.State() == Network.FireStep(old(network.State()), FireMessage(m, playerTank.State()))
    {
      var angle := playerTank.turretAngle;
      network.SendFire(Network.FireMsg(playerTank.x + m.sinDeg(angle) * MuzzleDistance,
                                       playerTank.y - m.cosDeg(angle) * MuzzleDistance,
                                       m.sinDeg(angle), -m.cosDeg(angle), playerTank.id));
    }

    /** `checkCollision(bullet)`, returning the bullet with its `isDestroyed` flag as the
        call leaves it. */
    method CheckCollision(bullet: BulletState) returns (hit: bool, after: BulletState)
      requires Valid()
      modifies playerTank, enemyTank
      ensures Valid()
      ensures Impact(hit, Duel(playerTank.State(), EnemyState()), after)
              == Collide(m, old(Duel(playerTank.State(), EnemyState())), bullet, isMultiplayer)
      ensures playerTank.Shadow() == old(playerTank.Shadow())
      ensures enemyTank != null ==> enemyTank.Shadow() == old(enemyTank.Shadow())
    {
      after := bullet;
      if bullet.ownerId != playerTank.id && !playerTank.isDestroyed {
        var dist := m.Hypot(bullet.x - playerTank.x, bullet.y - playerTank.y);
        if dist < HitRadius {
          playerTank.ApplyDamage(HitDamage);
          after := after.(isDestroyed := true);
          return true, after;
        }
      }
      if enemyTank != null && bullet.ownerId != enemyTank.id && !enemyTank.isDestroyed {
        var dist := m.Hypot(bullet.x - enemyTank.x, bullet.y - enemyTank.y);
        if dist < HitRadius {
          if !isMultiplayer {
            enemyTank.ApplyDamage(HitDamage);
          }
          after := after.(isDestroyed := true);
          return true, after;
        }
      }
      return false, after;
    }

    /** `updateBullets(delta)`: from the last bullet down, each advances, is tested for a
        hit, and is removed if it hit or expired. */
    method UpdateBullets(delta: real)
      requires Valid()
      modifies this`bullets, playerTank, enemyTank
      ensures Valid()
      ensures ArenaState() == Sweep(m, old(ArenaState()), old(|bullets|), delta, isMultiplayer)
      ensures Own() == old(Own()).(bullets := bullets)
      ensures playerTank.Shadow() == old(playerTank.Shadow())
      ensures enemyTank != null ==> enemyTank.Shadow() == old(enemyTank.Shadow())
    {
      var i := |bullets|;
      while i > 0
        invariant 0 <= i <= |bullets|
        invariant Valid()
        invariant Sweep(m, ArenaState(), i, delta, isMultiplayer) == Sweep(m, old(ArenaState()), old(|bullets|), delta, isMultiplayer)
        invariant Own() == old(Own()).(bullets := bullets)
        invariant playerTank.Shadow() == old(playerTank.Shadow())
        invariant enemyTank != null ==> enemyTank.Shadow() == old(enemyTank.Shadow())
        decreases i
      {
        i := i - 1;
        UpdateBullet(i, delta);
      }
    }

    /** One pass of the `updateBullets` loop: bullet `i` advances, is tested for a hit, and
        is spliced out if it hit or expired. */
    method UpdateBullet(i: nat, delta: real)
      requires Valid() && i < |bullets|
      modifies this`bullets, playerTank, enemyTank
      ensures Valid()
      ensures ArenaState() == BulletFrame(m, old(ArenaState()), i, delta, isMultiplayer)
      ensures Own() == old(Own()).(bullets := bullets)
      ensures playerTank.Shadow() == old(playerTank.Shadow())
      ensures enemyTank != null ==> enemyTank.Shadow() == old(enemyTank.Shadow())
    {
      var b := BulletStep(bullets[i], delta);
      var hit, after := CheckCollision(b);
      Settle(i, hit || after.isDestroyed, after);
    }

    /** The end of a pass of the `updateBullets` loop: bullet `i` is spliced out or replaced. */
    method Settle(i: nat, remove: bool, after: BulletState)
      requires i < |bullets|
      modifies this`bullets
      ensures bullets == if remove then old(bullets[..i] + bullets[i+1..]) else old(bullets[i := after])
    {
      if remove {
        bullets := bullets[..i] + bullets[i+1..];
      } else {
        bullets := bullets[i := after];
      }
    }

    /** The throttled `sendPositionDelta` block of `gameLoop`. */
    method SyncNetwork(delta: real)
      requires Valid() && delta == FrameTime
      modifies this`networkUpdateTimer, network
      ensures Valid()
      ensures var th := ThrottleStep(old(networkUpdateTimer), delta);
              && Own() == old(Own()).(networkUpdateTimer := if isMultiplayer then th.timer else old(networkUpdateTimer))
              && NetView() == if isMultiplayer && th.send
                              then Some(Network.DeltaStep(old(network.State()), SnapshotOf(myPlayerId, playerName, playerTank.State())))
                              else old(NetView())
    {
      if isMultiplayer {
        networkUpdateTimer := networkUpdateTimer + delta;
        if networkUpdateTimer >= NetworkUpdateInterval {
          networkUpdateTimer := 0.0;
          network.SendPositionDelta(Network.PlayerSnapshot(myPlayerId, playerName, playerTank.x, playerTank.y,
                                                           playerTank.hullAngle, playerTank.turretAngle,
                                                           playerTank.health, playerTank.isDestroyed,
                                                           playerTank.presetId));
        }
      }
    }

    /** The camera, visibility and fog steps of `gameLoop`. */
    method Observe()
      requires Valid()
      modifies this`cameraX, this`cameraY, this`isEnemyVisible, fog.alphaField
      ensures Valid()
      ensures Own() == old(Own()).(cameraX := CameraAxis(playerTank.x, ViewportWidth, WorldWidth),
                                   cameraY := CameraAxis(playerTank.y, ViewportHeight, WorldHeight),
                                   isEnemyVisible := EnemyVisible(m, playerTank.State(), EnemyState()))
      ensures fog.hasContext ==> forall i :: 0 <= i < fog.alphaField.Length ==>
                fog.alphaField[i] == Fog.CellAfterUpdate(m, Some(Fog.Observer(playerTank.x, playerTank.y, playerTank.isDestroyed)),
                                                         i % Fog.Cols, i / Fog.Cols)
    {
      UpdateCamera();
      UpdateEnemyVisibility();
      fog.Update(m, Some(Fog.Observer(playerTank.x, playerTank.y, playerTank.isDestroyed)));
    }

    /** `gameLoop(timestamp)` at its fixed frame time, with the draw `u` of `Math.random()`
        for a shot. The AI branch calls `updateAILogic`, whose body is empty. */
    method GameLoop(u: real)
      requires Valid() && m.Valid()
      modifies this`aimSpread, this`isTurretMoving, this`isMouseMoving, this`mouseMoveTimer, this`bullets, this`cameraX, this`cameraY, this`isEnemyVisible, this`networkUpdateTimer,
               this`outcomeShown, this`shown, playerTank, enemyTank, network, fog.alphaField
      ensures Valid()
      ensures cameraX == CameraAxis(playerTank.x, ViewportWidth, WorldWidth)
      ensures cameraY == CameraAxis(playerTank.y, ViewportHeight, WorldHeight)
      ensures isEnemyVisible == EnemyVisible(m, playerTank.State(), EnemyState())
      ensures fog.hasContext ==> forall i :: 0 <= i < fog.alphaField.Length ==>
                fog.alphaField[i] == Fog.CellAfterUpdate(m, Some(Fog.Observer(playerTank.x, playerTank.y, playerTank.isDestroyed)),
                                                         i % Fog.Cols, i / Fog.Cols)
      ensures networkUpdateTimer == if isMultiplayer then ThrottleStep(old(networkUpdateTimer), FrameTime).timer
                                    else old(networkUpdateTimer)
      ensures old(outcomeShown) ==> shown == old(shown)
      ensures outcomeShown == (old(outcomeShown) || OutcomeNow(false, playerTank.State(), EnemyState()).Some?)
    {
      Advance(u);
      Observe();
      SyncNetwork(FrameTime);
      CheckGameOutcome();
    }

    /** The moving part of `gameLoop`: the player's frame, the remote enemy drawn towards
        its targets, and the bullets. */
    method Advance(u: real)
      requires Valid() && m.Valid()
      modifies this`aimSpread, this`isTurretMoving, this`isMouseMoving, this`mouseMoveTimer, this`bullets,
               playerTank, enemyTank, network
      ensures Valid()
    {
      var delta := FrameTime;
      UpdatePlayerLogic(delta, u);
      if isMultiplayer && enemyTank != null {
        InterpolateEnemyTank(delta);
      }
      UpdateBullets(delta);
    }
  }
}
