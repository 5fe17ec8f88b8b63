/** Loadout settings of the single-player version (app.js): presets, per-field clamping,
    the legacy flat storage shape, and the save/load pair. */
module AppSettings {
  import opened Wrappers
  import opened JsMath
  import Core

  /** A value produced by `JSON.parse` or found in a settings object. A string carries the
      finite result of `Number(text)`, or `None` when that is `NaN`; `NonFinite` is a number
      that is `NaN` or infinite. */
  datatype JsValue =
    | Undefined
    | Null
    | Bool(b: bool)
    | Num(n: real)
    | NonFinite
    | Str(text: string, numeric: Option<real>)
    | Arr(elems: seq<JsValue>)
    | Obj(fields: map<string, JsValue>)

  /** `Number(v)` when it is finite (`Number.isFinite`), `None` otherwise. An array converts
      through its string form: `[]` and `[null]` give 0, a one-element array its element's
      number, anything longer `NaN`; a plain object gives `NaN`. */
  function FiniteNumber(v: JsValue): (r: Option<real>)
    ensures v.Num? ==> r == Some(v.n)
    ensures v.Null? ==> r == Some(0.0)
    ensures v.Bool? ==> r == Some(if v.b then 1.0 else 0.0)
    ensures v.Str? ==> r == v.numeric
    ensures v.Arr? && |v.elems| != 1 ==> (r.Some? <==> v.elems == []) && (r.Some? ==> r.value == 0.0)
    ensures v.Undefined? || v.NonFinite? || v.Obj? ==> r.None?
    decreases v
  {
    match v
    case Undefined => None
    case Null => Some(0.0)
    case Bool(b) => Some(if b then 1.0 else 0.0)
    case Num(n) => Some(n)
    case NonFinite => None
    case Str(_, numeric) => numeric
    case Arr(elems) =>
      if elems == [] then Some(0.0)
      else if |elems| == 1 then
        (match elems[0]
         case Null => Some(0.0)
         case Undefined => Some(0.0)
         case Num(n) => Some(n)
         case Str(_, numeric) => numeric
         case Arr(_) => FiniteNumber(elems[0])
         case _ => None)
      else None
    case Obj(_) => None
  }

  /** `rawSettings && typeof rawSettings === "object"`. */
  predicate IsObject(v: JsValue) {
    v.Arr? || v.Obj?
  }

  /** `v[key]`: an own property of a plain object, `undefined` otherwise. */
  function Get(v: JsValue, key: string): (r: JsValue)
    ensures !v.Obj? ==> r == Undefined
  {
    if v.Obj? && key in v.fields then v.fields[key] else Undefined
  }

  type Settings = Core.TankSettings

  const PresetIds: seq<string> := ["tiger", "phantom", "crusher"]

  /** The app.js presets (not the same numbers as js/core.js). */
  function Defaults(id: string): (r: Option<Settings>)
    ensures r.Some? <==> id in PresetIds
  {
    if id == "tiger" then Some(Core.TankSettings(220.0, 1.5, 0.2))
    else if id == "phantom" then Some(Core.TankSettings(280.0, 1.2, 0.16))
    else if id == "crusher" then Some(Core.TankSettings(170.0, 1.9, 0.26))
    else None
  }

  datatype Range = Range(min: real, max: real)

  const MoveSpeedLimits: Range := Range(100.0, 400.0)
  const FireCooldownLimits: Range := Range(0.5, 5.0)
  const DamagePerHitLimits: Range := Range(0.1, 1.0)

  /** `clampToRange`. */
  function ClampToRange(value: real, r: Range): (c: real)
    ensures r.min <= r.max ==> r.min <= c <= r.max
    ensures r.min <= value <= r.max ==> c == value
    ensures value < r.min <= r.max ==> c == r.min
    ensures r.min <= r.max < value ==> c == r.max
  {
    Min(r.max, Max(r.min, value))
  }

  predicate InRange(v: real, r: Range) {
    r.min <= v <= r.max
  }

  predicate WithinLimits(s: Settings) {
    InRange(s.moveSpeed, MoveSpeedLimits) && InRange(s.fireCooldown, FireCooldownLimits) &&
    InRange(s.damagePerHit, DamagePerHitLimits)
  }

  /** Every app.js preset respects its own limits. */
  lemma DefaultsWithinLimits(id: string)
    requires id in PresetIds
    ensures WithinLimits(Defaults(id).value)
  {
  }

  /** One field of `sanitizeSingleTankSettings`: the raw value clamped when it converts to a
      finite number, the default otherwise. */
  function SanitizeField(raw: JsValue, key: string, limits: Range, default: real): (v: real)
    ensures IsObject(raw) && FiniteNumber(Get(raw, key)).Some? ==>
              v == ClampToRange(FiniteNumber(Get(raw, key)).value, limits)
    ensures !(IsObject(raw) && FiniteNumber(Get(raw, key)).Some?) ==> v == default
    ensures limits.min <= limits.max && InRange(default, limits) ==> InRange(v, limits)
  {
    if IsObject(raw) then
      match FiniteNumber(Get(raw, key))
      case Some(n) => ClampToRange(n, limits)
      case None => default
    else default
  }

  /** `sanitizeSingleTankSettings`. */
  function SanitizeSingle(raw: JsValue, defaults: Settings): (s: Settings)
    ensures !IsObject(raw) ==> s == defaults
    ensures WithinLimits(defaults) ==> WithinLimits(s)
    ensures s.moveSpeed == SanitizeField(raw, "moveSpeed", MoveSpeedLimits, defaults.moveSpeed)
    ensures s.fireCooldown == SanitizeField(raw, "fireCooldown", FireCooldownLimits, defaults.fireCooldown)
    ensures s.damagePerHit == SanitizeField(raw, "damagePerHit", DamagePerHitLimits, defaults.damagePerHit)
  {
    Core.TankSettings(
      SanitizeField(raw, "moveSpeed", MoveSpeedLimits, defaults.moveSpeed),
      SanitizeField(raw, "fireCooldown", FireCooldownLimits, defaults.fireCooldown),
      SanitizeField(raw, "damagePerHit", DamagePerHitLimits, defaults.damagePerHit))
  }

  /** The entry `sanitizeTankSettingsMap` computes for one preset. */
  function SanitizeEntry(raw: JsValue, id: string): (s: Settings)
    requires id in PresetIds
    ensures s == SanitizeSingle(if IsObject(raw) then Get(raw, id) else Undefined, Defaults(id).value)
    ensures WithinLimits(s)
  {
    DefaultsWithinLimits(id);
    SanitizeSingle(if IsObject(raw) then Get(raw, id) else Undefined, Defaults(id).value)
  }

  /** `sanitizeTankSettingsMap`: an entry for every preset, each sanitised against that
      preset's defaults. */
  function SanitizeMap(raw: JsValue): (m: map<string, Settings>)
    ensures m.Keys == {"tiger", "phantom", "crusher"}
    ensures forall id :: id in m ==> id in PresetIds && m[id] == SanitizeEntry(raw, id)
  {
    map["tiger" := SanitizeEntry(raw, "tiger"), "phantom" := SanitizeEntry(raw, "phantom"),
        "crusher" := SanitizeEntry(raw, "crusher")]
  }

  /** What the browser storage yields: no storage, no stored item, or the result of
      `JSON.parse` (`None` when it throws). */
  datatype Stored = NoStorage | NoItem | Item(parsed: Option<JsValue>)

  /** `Object.keys(parsed).every(key => key in TANK_SETTINGS_LIMITS)`. */
  predicate IsLegacyShape(fields: map<string, JsValue>) {
    forall key :: key in fields ==> key in {"moveSpeed", "fireCooldown", "damagePerHit"}
  }

  /** The same flat object under every preset id. */
  function SpreadLegacy(v: JsValue): (r: JsValue)
    ensures r.Obj? && r.fields.Keys == {"tiger", "phantom", "crusher"}
    ensures forall id :: id in r.fields ==> r.fields[id] == v
  {
    Obj(map["tiger" := v, "phantom" := v, "crusher" := v])
  }

  /** `loadTankSettings`. */
  function Load(s: Stored): (m: map<string, Settings>)
    ensures m.Keys == {"tiger", "phantom", "crusher"}
    ensures forall id :: id in m ==> WithinLimits(m[id])
    ensures !(s.Item? && s.parsed.Some? && s.parsed.value.Obj?) ==> m == SanitizeMap(Null)
  {
    match s
    case Item(Some(Obj(fields))) =>
      if IsLegacyShape(fields) then SanitizeMap(SpreadLegacy(Obj(fields)))
      else SanitizeMap(Obj(fields))
    case _ => SanitizeMap(Null)
  }

  /** Without a stored object every preset gets its defaults. */
  lemma LoadWithoutObject(s: Stored, id: string)
    requires !(s.Item? && s.parsed.Some? && s.parsed.value.Obj?)
    requires id in PresetIds
    ensures Load(s)[id] == Defaults(id).value
  {
  }

  /** A stored flat object (the legacy format, holding only setting names) is applied to every
      preset, each keeping its own defaults for the settings it lacks. */
  lemma LegacyAppliesToAll(fields: map<string, JsValue>, id: string)
    requires IsLegacyShape(fields) && id in PresetIds
    ensures Load(Item(Some(Obj(fields))))[id] == SanitizeSingle(Obj(fields), Defaults(id).value)
  {
  }

  /** The JSON object `saveTankSettings` writes for a settings map. */
  function Encode(m: map<string, Settings>): (v: JsValue)
    ensures v.Obj? && v.fields.Keys == m.Keys
  {
    Obj(map id | id in m :: EncodeSettings(m[id]))
  }

  function EncodeSettings(s: Settings): JsValue {
    Obj(map["moveSpeed" := Num(s.moveSpeed), "fireCooldown" := Num(s.fireCooldown),
            "damagePerHit" := Num(s.damagePerHit)])
  }

  /** `saveTankSettings`: the sanitised map, and what is written to storage when there is
      storage. */
  function Save(raw: JsValue, hasStorage: bool): (r: (map<string, Settings>, Option<JsValue>))
    ensures r.0 == SanitizeMap(raw)
    ensures hasStorage ==> r.1 == Some(Encode(r.0))
    ensures !hasStorage ==> r.1.None?
  {
    var sanitized := SanitizeMap(raw);
    (sanitized, if hasStorage then Some(Encode(sanitized)) else None)
  }

  /** Settings already within the limits survive sanitisation unchanged. */
  lemma SanitizeEncoded(s: Settings, d: Settings)
    requires WithinLimits(s)
    ensures SanitizeSingle(EncodeSettings(s), d) == s
  {
    var e := EncodeSettings(s);
    assert Get(e, "moveSpeed") == Num(s.moveSpeed);
    assert Get(e, "fireCooldown") == Num(s.fireCooldown);
    assert Get(e, "damagePerHit") == Num(s.damagePerHit);
  }

  /** Reading back one preset of an encoded map within the limits gives that preset. */
  lemma EncodedEntry(m: map<string, Settings>, id: string)
    requires id in m && id in PresetIds && WithinLimits(m[id])
    ensures SanitizeEntry(Encode(m), id) == m[id]
  {
    assert Get(Encode(m), id) == EncodeSettings(m[id]);
    SanitizeEncoded(m[id], Defaults(id).value);
  }

  /** An encoded map holding the preset ids is not read back as the legacy flat shape. */
  lemma EncodedNotLegacy(m: map<string, Settings>)
    requires "tiger" in m
    ensures !IsLegacyShape(Encode(m).fields)
  {
    assert "tiger" in Encode(m).fields;
  }

  /** A stored object that is not of the legacy shape is sanitised as a map of presets. */
  lemma LoadPerPreset(fields: map<string, JsValue>)
    requires !IsLegacyShape(fields)
    ensures Load(Item(Some(Obj(fields)))) == SanitizeMap(Obj(fields))
  {
  }

  /** Sanitising the encoding of a full map within the limits gives that map back. */
  lemma SanitizeEncodedMap(m: map<string, Settings>)
    requires m.Keys == {"tiger", "phantom", "crusher"}
    requires forall id :: id in m ==> WithinLimits(m[id])
    ensures SanitizeMap(Encode(m)) == m
  {
    var loaded := SanitizeMap(Encode(m));
    forall id | id in m ensures loaded[id] == m[id] {
      EncodedEntry(m, id);
    }
  }

  /** Loading the encoding of a full map within the limits gives that map back. */
  lemma LoadEncoded(m: map<string, Settings>)
    requires m.Keys == {"tiger", "phantom", "crusher"}
    requires forall id :: id in m ==> WithinLimits(m[id])
    ensures Load(Item(Some(Encode(m)))) == m
  {
    EncodedNotLegacy(m);
    LoadPerPreset(Encode(m).fields);
    SanitizeEncodedMap(m);
  }

  /** Saving and then loading gives back exactly what was saved. */
  lemma SaveLoadRoundTrip(raw: JsValue)
    ensures Save(raw, true).1.Some?
    ensures Load(Item(Save(raw, true).1)) == Save(raw, true).0
  {
    LoadEncoded(SanitizeMap(raw));
  }
}
