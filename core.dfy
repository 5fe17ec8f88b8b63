/** The tank and bullet logic of the multiplayer version (js/core.js): presets, world
    constants, `TankCore` and `BulletCore`. */
module Core {
  import opened Wrappers
  import opened JsMath

  const MapScale: real := 1.875
  const BaseViewportWidth: real := 1024.0
  const BaseViewportHeight: real := 800.0
  /** `Math.round(BASE_VIEWPORT_WIDTH * MAP_SCALE)` and the same for the height, as
      `WorldSizeFromScale` shows. */
  const WorldWidth: real := 1920.0
  const WorldHeight: real := 1500.0
  const ChassisWidth: real := 58.0
  const ChassisHeight: real := 70.0
  const TurnSpeed: real := 45.0
  const BulletSpeed: real := 406.0
  const BulletLifetime: real := 2.2

  /** `Math.round`, for non-negative arguments. */
  function Round(x: real): int {
    (x + 0.5).Floor
  }

  lemma WorldSizeFromScale()
    ensures WorldWidth == Round(BaseViewportWidth * MapScale) as real
    ensures WorldHeight == Round(BaseViewportHeight * MapScale) as real
  {
  }

  datatype TankSettings = TankSettings(moveSpeed: real, fireCooldown: real, damagePerHit: real)

  /** The keys a `data.settings` object carries; an absent key keeps the preset's value. */
  datatype SettingsOverride = SettingsOverride(
    moveSpeed: Option<real>, fireCooldown: Option<real>, damagePerHit: Option<real>)

  /** `TANK_PRESETS[id].defaults` of this file (different numbers from app.js). */
  function PresetDefaults(id: string): (r: Option<TankSettings>)
    ensures r.Some? <==> id in {"tiger", "phantom", "crusher"}
  {
    if id == "tiger" then Some(TankSettings(100.0, 3.0, 0.2))
    else if id == "phantom" then Some(TankSettings(130.0, 2.4, 0.16))
    else if id == "crusher" then Some(TankSettings(80.0, 3.8, 0.26))
    else None
  }

  /** `{ ...defaults, ...(override || {}) }`. */
  function MergeSettings(defaults: TankSettings, over: Option<SettingsOverride>): (r: TankSettings)
    ensures over.None? ==> r == defaults
    ensures over.Some? && over.value.moveSpeed.Some? ==> r.moveSpeed == over.value.moveSpeed.value
    ensures over.Some? && over.value.moveSpeed.None? ==> r.moveSpeed == defaults.moveSpeed
    ensures over.Some? && over.value.fireCooldown.Some? ==> r.fireCooldown == over.value.fireCooldown.value
    ensures over.Some? && over.value.fireCooldown.None? ==> r.fireCooldown == defaults.fireCooldown
    ensures over.Some? && over.value.damagePerHit.Some? ==> r.damagePerHit == over.value.damagePerHit.value
    ensures over.Some? && over.value.damagePerHit.None? ==> r.damagePerHit == defaults.damagePerHit
  {
    match over
    case None => defaults
    case Some(o) =>
      TankSettings(
        if o.moveSpeed.Some? then o.moveSpeed.value else defaults.moveSpeed,
        if o.fireCooldown.Some? then o.fireCooldown.value else defaults.fireCooldown,
        if o.damagePerHit.Some? then o.damagePerHit.value else defaults.damagePerHit)
  }

  /** JavaScript's `v || d` on an optional number: an absent value and `0` both give `d`. */
  function NumberOr(v: Option<real>, d: real): (r: real)
    ensures v.Some? && v.value != 0.0 ==> r == v.value
    ensures (v.None? || v.value == 0.0) ==> r == d
  {
    if v.Some? && v.value != 0.0 then v.value else d
  }

  /** `data.presetId || 'tiger'`: an absent or empty id falls back to the tiger. */
  function PresetIdOr(v: Option<string>): (r: string)
    ensures v.Some? && v.value != "" ==> r == v.value
    ensures v.None? || v.value == "" ==> r == "tiger"
  {
    if v.Some? && v.value != "" then v.value else "tiger"
  }

  /** The object passed to `new TankCore(data)`. */
  datatype TankInit = TankInit(
    id: string,
    x: Option<real>, y: Option<real>,
    hullAngle: Option<real>, turretAngle: Option<real>,
    health: Option<real>,
    isPlayer: Option<bool>,
    presetId: Option<string>,
    settings: Option<SettingsOverride>)

  /** The fields of a `TankCore`. */
  datatype TankState = TankState(
    id: string,
    x: real, y: real,
    hullAngle: real, turretAngle: real,
    health: real,
    reloadTimer: real,
    isPlayer: bool,
    isDestroyed: bool,
    presetId: string,
    settings: TankSettings)

  /** The state the constructor builds; an unknown preset id makes the constructor throw. */
  function InitialTank(data: TankInit): (s: TankState)
    requires PresetDefaults(PresetIdOr(data.presetId)).Some?
    ensures s.id == data.id && s.reloadTimer == 0.0 && !s.isDestroyed
    ensures s.x == NumberOr(data.x, 0.0) && s.y == NumberOr(data.y, 0.0)
    ensures s.hullAngle == NumberOr(data.hullAngle, 0.0) && s.turretAngle == NumberOr(data.turretAngle, 0.0)
    ensures s.health == NumberOr(data.health, 1.0)
    ensures s.isPlayer == (data.isPlayer == Some(true))
    ensures s.presetId == PresetIdOr(data.presetId)
    ensures s.settings == MergeSettings(PresetDefaults(s.presetId).value, data.settings)
  {
    var presetId := PresetIdOr(data.presetId);
    TankState(
      data.id,
      NumberOr(data.x, 0.0), NumberOr(data.y, 0.0),
      NumberOr(data.hullAngle, 0.0), NumberOr(data.turretAngle, 0.0),
      NumberOr(data.health, 1.0),
      0.0,
      data.isPlayer == Some(true),
      false,
      presetId,
      MergeSettings(PresetDefaults(presetId).value, data.settings))
  }

  /** A constructor that is given a health of 0 still starts at full health (`0 || 1`). */
  lemma ZeroHealthStartsFull(data: TankInit)
    requires PresetDefaults(PresetIdOr(data.presetId)).Some?
    requires data.health == Some(0.0)
    ensures InitialTank(data).health == 1.0
  {
  }

  /** `Math.max(half, Math.min(extent - half, v))`, as `clampPosition` writes it. */
  function ClampAxis(v: real, half: real, extent: real): (r: real)
    requires 2.0 * half <= extent
    ensures half <= r <= extent - half
    ensures half <= v <= extent - half ==> r == v
    ensures v < half ==> r == half
    ensures v > extent - half ==> r == extent - half
  {
    Max(half, Min(extent - half, v))
  }

  predicate InWorld(s: TankState) {
    ChassisWidth / 2.0 <= s.x <= WorldWidth - ChassisWidth / 2.0 &&
    ChassisHeight / 2.0 <= s.y <= WorldHeight - ChassisHeight / 2.0
  }

  function Clamped(s: TankState): (r: TankState)
    ensures InWorld(r)
    ensures InWorld(s) ==> r == s
    ensures r == s.(x := r.x, y := r.y)
  {
    s.(x := ClampAxis(s.x, ChassisWidth / 2.0, WorldWidth),
       y := ClampAxis(s.y, ChassisHeight / 2.0, WorldHeight))
  }

  /** One reload step: a positive timer goes down by `delta`, never below 0. */
  function ReloadStep(r: real, delta: real): (t: real)
    ensures r > 0.0 ==> t >= 0.0
    ensures r <= 0.0 ==> t == r
    ensures delta >= 0.0 ==> t <= r
    ensures r > 0.0 && delta >= r ==> t == 0.0
    ensures r > 0.0 && delta < r ==> t == r - delta
  {
    if r > 0.0 then Max(0.0, r - delta) else r
  }

  /** `TankCore.update`: nothing happens to a destroyed tank; otherwise the reload timer
      counts down and the position is clamped into the world. */
  function TankUpdate(s: TankState, delta: real): (r: TankState)
    ensures s.isDestroyed ==> r == s
    ensures !s.isDestroyed ==> InWorld(r) && r.reloadTimer == ReloadStep(s.reloadTimer, delta)
    ensures !s.isDestroyed ==> r == Clamped(s).(reloadTimer := r.reloadTimer)
  {
    if s.isDestroyed then s
    else Clamped(s.(reloadTimer := ReloadStep(s.reloadTimer, delta)))
  }

  /** The reload timer after a run of frames. */
  function ReloadAfter(r: real, ds: seq<real>): real
    decreases |ds|
  {
    if ds == [] then r else ReloadAfter(ReloadStep(r, ds[0]), ds[1..])
  }

  /** Starting from a non-negative timer, frames of non-negative length bring the timer down
      by their total, stopping at exactly 0: with a cooldown of 1.5 s, 1.5 s of frames make
      the tank ready to fire again. */
  lemma {:induction false} ReloadCountsDown(r: real, ds: seq<real>)
    requires r >= 0.0 && AllNonNegative(ds)
    ensures ReloadAfter(r, ds) == Max(0.0, r - Sum(ds))
    ensures ReloadAfter(r, ds) >= 0.0
    decreases |ds|
  {
    if ds != [] {
      assert AllNonNegative(ds[1..]) by {
        forall i | 0 <= i < |ds[1..]| ensures ds[1..][i] >= 0.0 {
          assert ds[1..][i] == ds[i + 1];
        }
      }
      var r' := ReloadStep(r, ds[0]);
      ReloadCountsDown(r', ds[1..]);
      assert Sum(ds) == ds[0] + Sum(ds[1..]);
      assert Sum(ds[1..]) >= 0.0 by { SumNonNegative(ds[1..]); }
    }
  }

  lemma {:induction false} SumNonNegative(ds: seq<real>)
    requires AllNonNegative(ds)
    ensures Sum(ds) >= 0.0
    decreases |ds|
  {
    if ds != [] {
      assert AllNonNegative(ds[1..]) by {
        forall i | 0 <= i < |ds[1..]| ensures ds[1..][i] >= 0.0 {
          assert ds[1..][i] == ds[i + 1];
        }
      }
      SumNonNegative(ds[1..]);
    }
  }

  /** `TankCore.applyDamage` on the two fields it touches. */
  function Damaged(s: TankState, amount: real): (r: TankState)
    ensures s.isDestroyed ==> r == s
    ensures !s.isDestroyed ==> r == s.(health := r.health, isDestroyed := r.isDestroyed)
    ensures !s.isDestroyed ==> r.health >= 0.0
    ensures amount >= 0.0 ==> r.health <= Max(0.0, s.health)
    ensures !s.isDestroyed ==> (r.isDestroyed <==> r.health == 0.0)
    ensures !s.isDestroyed && s.health - amount > 0.0 ==> r.health == s.health - amount
  {
    if s.isDestroyed then s
    else
      var h := Max(0.0, s.health - amount);
      s.(health := h, isDestroyed := h <= 0.0)
  }

  /** Health after a run of hits. */
  function DamagedBy(s: TankState, amounts: seq<real>): TankState
    decreases |amounts|
  {
    if amounts == [] then s else DamagedBy(Damaged(s, amounts[0]), amounts[1..])
  }

  /** How many of a run of hits flip the destroyed flag. */
  function Destructions(s: TankState, amounts: seq<real>): nat
    decreases |amounts|
  {
    if amounts == [] then 0
    else
      var s' := Damaged(s, amounts[0]);
      (if !s.isDestroyed && s'.isDestroyed then 1 else 0) + Destructions(s', amounts[1..])
  }

  /** Over any run of non-negative hits: health never rises, the destroyed flag never
      clears, and the transition to destroyed happens at most once (exactly once when the
      tank ends destroyed having started intact). */
  lemma {:induction false} DestroyedOnce(s: TankState, amounts: seq<real>)
    requires AllNonNegative(amounts)
    ensures DamagedBy(s, amounts).health <= Max(0.0, s.health)
    ensures s.isDestroyed ==> DamagedBy(s, amounts) == s
    ensures s.isDestroyed ==> DamagedBy(s, amounts).isDestroyed
    ensures Destructions(s, amounts) <= 1
    ensures Destructions(s, amounts) == 1 <==> !s.isDestroyed && DamagedBy(s, amounts).isDestroyed
    decreases |amounts|
  {
    if amounts != [] {
      assert AllNonNegative(amounts[1..]) by {
        forall i | 0 <= i < |amounts[1..]| ensures amounts[1..][i] >= 0.0 {
          assert amounts[1..][i] == amounts[i + 1];
        }
      }
      var s' := Damaged(s, amounts[0]);
      DestroyedOnce(s', amounts[1..]);
    }
  }

  /** The four shadow fields the game manager attaches to a remote tank. */
  datatype Targets = Targets(
    targetX: Option<real>, targetY: Option<real>,
    targetHullAngle: Option<real>, targetTurretAngle: Option<real>)

  class TankCore {
    var id: string
    var x: real
    var y: real
    var hullAngle: real
    var turretAngle: real
    var health: real
    var reloadTimer: real
    var isPlayer: bool
    var isDestroyed: bool
    var presetId: string
    var settings: TankSettings
    // Attached by js/game-manager.js to a remote tank; `undefined` until then.
    var targetX: Option<real>
    var targetY: Option<real>
    var targetHullAngle: Option<real>
    var targetTurretAngle: Option<real>

    ghost function State(): TankState
      reads this
    {
      TankState(id, x, y, hullAngle, turretAngle, health, reloadTimer, isPlayer, isDestroyed, presetId, settings)
    }

    ghost function Shadow(): Targets
      reads this
    {
      Targets(targetX, targetY, targetHullAngle, targetTurretAngle)
    }

    constructor (data: TankInit)
      requires PresetDefaults(PresetIdOr(data.presetId)).Some?
      ensures State() == InitialTank(data)
      ensures Shadow() == Targets(None, None, None, None)
    {
      id := data.id;
      x := NumberOr(data.x, 0.0);
      y := NumberOr(data.y, 0.0);
      hullAngle := NumberOr(data.hullAngle, 0.0);
      turretAngle := NumberOr(data.turretAngle, 0.0);
      health := NumberOr(data.health, 1.0);
      reloadTimer := 0.0;
      isPlayer := data.isPlayer == Some(true);
      isDestroyed := false;
      presetId := PresetIdOr(data.presetId);
      var preset := PresetDefaults(PresetIdOr(data.presetId)).value;
      settings := MergeSettings(preset, data.settings);
      targetX, targetY, targetHullAngle, targetTurretAngle := None, None, None, None;
    }

    method Update(deltaSeconds: real)
      modifies this
      ensures State() == TankUpdate(old(State()), deltaSeconds)
      ensures Shadow() == old(Shadow())
    {
      if isDestroyed {
        return;
      }
      if reloadTimer > 0.0 {
        reloadTimer := Max(0.0, reloadTimer - deltaSeconds);
      }
      ClampPosition();
    }

    method ClampPosition()
      modifies this
      ensures State() == Clamped(old(State()))
      ensures Shadow() == old(Shadow())
    {
      var halfW := ChassisWidth / 2.0;
      var halfH := ChassisHeight / 2.0;
      x := Max(halfW, Min(WorldWidth - halfW, x));
      y := Max(halfH, Min(WorldHeight - halfH, y));
    }

    method ApplyDamage(amount: real)
      modifies this
      ensures State() == Damaged(old(State()), amount)
      ensures Shadow() == old(Shadow())
    {
      if isDestroyed {
        return;
      }
      health := Max(0.0, health - amount);
      if health <= 0.0 {
        isDestroyed := true;
      }
    }
  }

  /** The fields of a `BulletCore`. */
  datatype BulletState = BulletState(
    x: real, y: real, dirX: real, dirY: real, ownerId: string, liveTime: real, isDestroyed: bool)

  /** `BulletCore.update`. */
  function BulletStep(b: BulletState, delta: real): (r: BulletState)
    ensures r.dirX == b.dirX && r.dirY == b.dirY && r.ownerId == b.ownerId
    ensures r.liveTime == b.liveTime + delta
    ensures r.isDestroyed <==> b.isDestroyed || b.liveTime + delta > BulletLifetime
  {
    b.(x := b.x + b.dirX * BulletSpeed * delta,
       y := b.y + b.dirY * BulletSpeed * delta,
       liveTime := b.liveTime + delta,
       isDestroyed := b.isDestroyed || b.liveTime + delta > BulletLifetime)
  }

  function BulletAfter(b: BulletState, ds: seq<real>): BulletState
    decreases |ds|
  {
    if ds == [] then b else BulletAfter(BulletStep(b, ds[0]), ds[1..])
  }

  /** Over a run of frames of non-negative length a bullet travels in a straight line at
      `BULLET_SPEED`, ages by the total time, and is destroyed exactly when it was already,
      or its age has passed the lifetime; the flag is never cleared. */
  lemma {:induction false} BulletFlight(b: BulletState, ds: seq<real>)
    requires AllNonNegative(ds)
    ensures BulletAfter(b, ds).x == b.x + b.dirX * BulletSpeed * Sum(ds)
    ensures BulletAfter(b, ds).y == b.y + b.dirY * BulletSpeed * Sum(ds)
    ensures BulletAfter(b, ds).liveTime == b.liveTime + Sum(ds)
    ensures BulletAfter(b, ds).isDestroyed <==>
              b.isDestroyed || (ds != [] && b.liveTime + Sum(ds) > BulletLifetime)
    decreases |ds|
  {
    if ds != [] {
      assert AllNonNegative(ds[1..]) by {
        forall i | 0 <= i < |ds[1..]| ensures ds[1..][i] >= 0.0 {
          assert ds[1..][i] == ds[i + 1];
        }
      }
      var b' := BulletStep(b, ds[0]);
      BulletFlight(b', ds[1..]);
      SumNonNegative(ds[1..]);
      assert Sum(ds) == ds[0] + Sum(ds[1..]);
      assert b.dirX * BulletSpeed * Sum(ds) == b.dirX * BulletSpeed * ds[0] + b.dirX * BulletSpeed * Sum(ds[1..]);
      assert b.dirY * BulletSpeed * Sum(ds) == b.dirY * BulletSpeed * ds[0] + b.dirY * BulletSpeed * Sum(ds[1..]);
    }
  }

  class BulletCore {
    var x: real
    var y: real
    var dirX: real
    var dirY: real
    var ownerId: string
    var liveTime: real
    var isDestroyed: bool

    ghost function State(): BulletState
      reads this
    {
      BulletState(x, y, dirX, dirY, ownerId, liveTime, isDestroyed)
    }

    constructor (x0: real, y0: real, dirX0: real, dirY0: real, ownerId0: string)
      ensures State() == BulletState(x0, y0, dirX0, dirY0, ownerId0, 0.0, false)
    {
      x, y, dirX, dirY, ownerId := x0, y0, dirX0, dirY0, ownerId0;
      liveTime := 0.0;
      isDestroyed := false;
    }

    method Update(deltaSeconds: real)
      modifies this
      ensures State() == BulletStep(old(State()), deltaSeconds)
    {
      x := x + dirX * BulletSpeed * deltaSeconds;
      y := y + dirY * BulletSpeed * deltaSeconds;
      liveTime := liveTime + deltaSeconds;
      if liveTime > BulletLifetime {
        isDestroyed := true;
      }
    }
  }
}
