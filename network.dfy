/** The broadcast transport of js/network.js: a position/fire sender with delta
    compression against the last snapshot sent. The Supabase channel is an output log. */
module Network {
  import opened Wrappers
  import opened JsMath

  /** The object the game loop passes to `sendPositionDelta` (js/game-manager.js:282-292). */
  datatype PlayerSnapshot = PlayerSnapshot(
    id: string, name: string,
    x: real, y: real, hullAngle: real, turretAngle: real,
    health: real, isDestroyed: bool, presetId: string)

  /** A `position` payload: every property may be absent. */
  datatype PositionMsg = PositionMsg(
    id: Option<string>, name: Option<string>,
    x: Option<real>, y: Option<real>,
    hullAngle: Option<real>, turretAngle: Option<real>,
    health: Option<real>, isDestroyed: Option<bool>, presetId: Option<string>)

  /** A `fire` payload. */
  datatype FireMsg = FireMsg(x: real, y: real, dirX: real, dirY: real, ownerId: string)

  /** One `channel.send({type: 'broadcast', event, payload})`. */
  datatype Broadcast = Position(position: PositionMsg) | Fire(fire: FireMsg)

  /** Threshold for position and angles. */
  const Threshold: real := 0.5
  /** Threshold for health. */
  const HealthThreshold: real := 0.01

  /** The whole snapshot as a payload: every property present. */
  function FullMsg(d: PlayerSnapshot): (m: PositionMsg)
    ensures forall v :: Apply(v, m) == d
  {
    PositionMsg(Some(d.id), Some(d.name), Some(d.x), Some(d.y), Some(d.hullAngle),
                Some(d.turretAngle), Some(d.health), Some(d.isDestroyed), Some(d.presetId))
  }

  /** `Math.abs(a - b) > t`: a linear comparison (angles are not compared around the circle). */
  predicate Beyond(a: real, b: real, t: real) {
    Abs(a - b) > t
  }

  /** `delta`: the id, plus each property that changed against `last`. */
  function DeltaOf(d: PlayerSnapshot, last: PlayerSnapshot): (m: PositionMsg)
    ensures m.id == Some(d.id)
    ensures m.name.Some? <==> d.name != last.name
    ensures m.x.Some? <==> Beyond(d.x, last.x, Threshold)
    ensures m.y.Some? <==> Beyond(d.y, last.y, Threshold)
    ensures m.hullAngle.Some? <==> Beyond(d.hullAngle, last.hullAngle, Threshold)
    ensures m.turretAngle.Some? <==> Beyond(d.turretAngle, last.turretAngle, Threshold)
    ensures m.health.Some? <==> Beyond(d.health, last.health, HealthThreshold)
    ensures m.isDestroyed.Some? <==> d.isDestroyed != last.isDestroyed
    ensures m.presetId.Some? <==> d.presetId != last.presetId
  {
    PositionMsg(
      Some(d.id),
      if d.name != last.name then Some(d.name) else None,
      if Beyond(d.x, last.x, Threshold) then Some(d.x) else None,
      if Beyond(d.y, last.y, Threshold) then Some(d.y) else None,
      if Beyond(d.hullAngle, last.hullAngle, Threshold) then Some(d.hullAngle) else None,
      if Beyond(d.turretAngle, last.turretAngle, Threshold) then Some(d.turretAngle) else None,
      if Beyond(d.health, last.health, HealthThreshold) then Some(d.health) else None,
      if d.isDestroyed != last.isDestroyed then Some(d.isDestroyed) else None,
      if d.presetId != last.presetId then Some(d.presetId) else None)
  }

  /** A receiver holding exactly the previous snapshot reconstructs the exactly-compared
      properties of the new one, and each numeric property to within its threshold. */
  lemma DeltaReconstructs(d: PlayerSnapshot, last: PlayerSnapshot)
    ensures AgreesExactly(Apply(last, DeltaOf(d, last)), d)
    ensures Abs(Apply(last, DeltaOf(d, last)).x - d.x) <= Threshold
    ensures Abs(Apply(last, DeltaOf(d, last)).y - d.y) <= Threshold
    ensures Abs(Apply(last, DeltaOf(d, last)).hullAngle - d.hullAngle) <= Threshold
    ensures Abs(Apply(last, DeltaOf(d, last)).turretAngle - d.turretAngle) <= Threshold
    ensures Abs(Apply(last, DeltaOf(d, last)).health - d.health) <= HealthThreshold
  {
  }

  /** `hasChanges`: some property besides the id is in the delta. */
  predicate HasChanges(m: PositionMsg) {
    m.name.Some? || m.x.Some? || m.y.Some? || m.hullAngle.Some? || m.turretAngle.Some? ||
    m.health.Some? || m.isDestroyed.Some? || m.presetId.Some?
  }

  /** A receiver's copy of the sender, overwritten by every property present in a payload. */
  function Apply(v: PlayerSnapshot, m: PositionMsg): PlayerSnapshot {
    PlayerSnapshot(
      if m.id.Some? then m.id.value else v.id,
      if m.name.Some? then m.name.value else v.name,
      if m.x.Some? then m.x.value else v.x,
      if m.y.Some? then m.y.value else v.y,
      if m.hullAngle.Some? then m.hullAngle.value else v.hullAngle,
      if m.turretAngle.Some? then m.turretAngle.value else v.turretAngle,
      if m.health.Some? then m.health.value else v.health,
      if m.isDestroyed.Some? then m.isDestroyed.value else v.isDestroyed,
      if m.presetId.Some? then m.presetId.value else v.presetId)
  }

  /** The sender's state that `sendPosition`, `sendPositionDelta` and `sendFire` touch. */
  datatype NetState = NetState(hasChannel: bool, lastSent: Option<PlayerSnapshot>, sent: seq<Broadcast>)

  /** `sendPosition`. */
  function PositionStep(st: NetState, d: PositionMsg): (r: NetState)
    ensures r.lastSent == st.lastSent && r.hasChannel == st.hasChannel
    ensures st.hasChannel ==> r.sent == st.sent + [Position(d)]
    ensures !st.hasChannel ==> r == st
  {
    if st.hasChannel then st.(sent := st.sent + [Position(d)]) else st
  }

  /** `sendFire`. */
  function FireStep(st: NetState, f: FireMsg): (r: NetState)
    ensures r.lastSent == st.lastSent && r.hasChannel == st.hasChannel
    ensures st.hasChannel ==> r.sent == st.sent + [Fire(f)]
    ensures !st.hasChannel ==> r == st
  {
    if st.hasChannel then st.(sent := st.sent + [Fire(f)]) else st
  }

  /** `sendPositionDelta`. */
  function DeltaStep(st: NetState, d: PlayerSnapshot): (r: NetState)
    ensures r.hasChannel == st.hasChannel
    ensures !st.hasChannel ==> r == st
    ensures st.hasChannel && st.lastSent.None? ==>
              r.sent == st.sent + [Position(FullMsg(d))] && r.lastSent == Some(d)
    ensures st.hasChannel && st.lastSent.Some? && HasChanges(DeltaOf(d, st.lastSent.value)) ==>
              r.sent == st.sent + [Position(DeltaOf(d, st.lastSent.value))] && r.lastSent == Some(d)
    ensures st.hasChannel && st.lastSent.Some? && !HasChanges(DeltaOf(d, st.lastSent.value)) ==>
              r == st
    ensures |st.sent| <= |r.sent| <= |st.sent| + 1 && r.sent[..|st.sent|] == st.sent
    ensures |r.sent| == |st.sent| + 1 <==>
              st.hasChannel && (st.lastSent.None? || HasChanges(DeltaOf(d, st.lastSent.value)))
  {
    if !st.hasChannel then st
    else if st.lastSent.None? then
      NetState(st.hasChannel, Some(d), st.sent + [Position(FullMsg(d))])
    else
      var delta := DeltaOf(d, st.lastSent.value);
      if HasChanges(delta) then NetState(st.hasChannel, Some(d), st.sent + [Position(delta)])
      else st
  }

  /** A run of publish ticks. */
  function Replay(st: NetState, ds: seq<PlayerSnapshot>): NetState
    decreases |ds|
  {
    if ds == [] then st else Replay(DeltaStep(st, ds[0]), ds[1..])
  }

  /** The receiver's copy after the `position` payloads of a log, in order. */
  function ApplyAll(v: PlayerSnapshot, log: seq<Broadcast>): PlayerSnapshot
    decreases |log|
  {
    if log == [] then v
    else ApplyAll(if log[0].Position? then Apply(v, log[0].position) else v, log[1..])
  }

  lemma {:induction false} ApplyAllAppend(v: PlayerSnapshot, a: seq<Broadcast>, b: seq<Broadcast>)
    ensures ApplyAll(v, a + b) == ApplyAll(ApplyAll(v, a), b)
    decreases |a|
  {
    if a != [] {
      assert (a + b)[0] == a[0];
      assert (a + b)[1..] == a[1..] + b;
      ApplyAllAppend(if a[0].Position? then Apply(v, a[0].position) else v, a[1..], b);
    } else {
      assert a + b == b;
    }
  }

  /** The properties compared exactly: identifier, name, destroyed flag and preset. */
  predicate AgreesExactly(v: PlayerSnapshot, last: PlayerSnapshot) {
    v.id == last.id && v.name == last.name && v.isDestroyed == last.isDestroyed && v.presetId == last.presetId
  }

  /** One publish tick keeps a receiver that has applied everything sent so far in agreement
      with the snapshot on every exactly-compared property. */
  lemma ExactPropertiesTrackedOnce(st: NetState, d: PlayerSnapshot, v: PlayerSnapshot)
    requires st.lastSent.Some? ==> AgreesExactly(v, st.lastSent.value)
    ensures var r := DeltaStep(st, d);
            r.lastSent.Some? ==> AgreesExactly(ApplyAll(v, r.sent[|st.sent|..]), r.lastSent.value)
  {
    var r := DeltaStep(st, d);
    var newMsgs := r.sent[|st.sent|..];
    if |r.sent| == |st.sent| + 1 {
      assert newMsgs == [r.sent[|st.sent|]];
      assert ApplyAll(v, newMsgs) == ApplyAll(Apply(v, newMsgs[0].position), []);
    } else {
      assert newMsgs == [];
    }
  }

  /** Over any run of publish ticks, a receiver that applies every `position` payload in order
      agrees with the sender's `lastSentState` on id, name, destroyed flag and preset. */
  lemma {:induction false} ExactPropertiesTracked(st: NetState, ds: seq<PlayerSnapshot>, v: PlayerSnapshot)
    requires st.lastSent.Some? ==> AgreesExactly(v, st.lastSent.value)
    ensures |st.sent| <= |Replay(st, ds).sent| && Replay(st, ds).sent[..|st.sent|] == st.sent
    ensures var r := Replay(st, ds);
            r.lastSent.Some? ==> AgreesExactly(ApplyAll(v, r.sent[|st.sent|..]), r.lastSent.value)
    decreases |ds|
  {
    if ds == [] {
      assert Replay(st, ds).sent[|st.sent|..] == [];
    } else {
      var st1 := DeltaStep(st, ds[0]);
      ExactPropertiesTrackedOnce(st, ds[0], v);
      var v1 := ApplyAll(v, st1.sent[|st.sent|..]);
      ExactPropertiesTracked(st1, ds[1..], v1);
      var r := Replay(st1, ds[1..]);
      assert r == Replay(st, ds);
      SuffixSplit(r.sent, st1.sent, |st.sent|);
      ApplyAllAppend(v, st1.sent[|st.sent|..], r.sent[|st1.sent|..]);
    }
  }

  /** The log of a later state, from position `p` on, is what an intermediate state added
      after `p` followed by what was added after the intermediate state. */
  lemma SuffixSplit(s: seq<Broadcast>, t: seq<Broadcast>, p: nat)
    requires p <= |t| <= |s| && s[..|t|] == t
    ensures s[p..] == t[p..] + s[|t|..]
  {
    assert s[p..] == s[p..|t|] + s[|t|..];
  }

  /** One tick whose every numeric change exceeds its threshold sends a delta, and the
      receiver holding the previous snapshot reconstructs the new one from it. */
  lemma RoundTripOnce(st: NetState, d: PlayerSnapshot, v: PlayerSnapshot)
    requires st.hasChannel && st.lastSent == Some(v)
    requires Beyond(d.x, v.x, Threshold) && Beyond(d.y, v.y, Threshold)
    requires Beyond(d.hullAngle, v.hullAngle, Threshold)
    requires Beyond(d.turretAngle, v.turretAngle, Threshold)
    requires Beyond(d.health, v.health, HealthThreshold)
    ensures var r := DeltaStep(st, d);
            r.hasChannel && r.lastSent == Some(d) && |r.sent| == |st.sent| + 1 &&
            r.sent[..|st.sent|] == st.sent && ApplyAll(v, r.sent[|st.sent|..]) == d
  {
    var m := DeltaOf(d, v);
    var r := DeltaStep(st, d);
    assert HasChanges(m);
    assert r.sent == st.sent + [Position(m)];
    assert r.sent[|st.sent|..] == [Position(m)];
    assert ApplyAll(v, r.sent[|st.sent|..]) == ApplyAll(Apply(v, m), []);
  }

  /** Every snapshot of a run differs from its predecessor (the first from `last`) by more
      than the thresholds on every numeric property. */
  predicate StepsBeyond(last: PlayerSnapshot, ds: seq<PlayerSnapshot>)
    decreases |ds|
  {
    ds != [] ==>
      Beyond(ds[0].x, last.x, Threshold) && Beyond(ds[0].y, last.y, Threshold) &&
      Beyond(ds[0].hullAngle, last.hullAngle, Threshold) &&
      Beyond(ds[0].turretAngle, last.turretAngle, Threshold) &&
      Beyond(ds[0].health, last.health, HealthThreshold) &&
      StepsBeyond(ds[0], ds[1..])
  }

  /** Delta round trip: when every change exceeds its threshold, every tick is transmitted and
      a receiver that started in step with the snapshot ends equal to the last state sent, which
      is the last state of the run. */
  lemma {:induction false} DeltaRoundTrip(st: NetState, ds: seq<PlayerSnapshot>, v: PlayerSnapshot)
    requires st.hasChannel && st.lastSent == Some(v)
    requires StepsBeyond(v, ds)
    ensures |st.sent| <= |Replay(st, ds).sent| && Replay(st, ds).sent[..|st.sent|] == st.sent
    ensures Replay(st, ds).lastSent == Some(if ds == [] then v else ds[|ds| - 1])
    ensures ApplyAll(v, Replay(st, ds).sent[|st.sent|..]) == Replay(st, ds).lastSent.value
    decreases |ds|
  {
    if ds == [] {
      assert Replay(st, ds).sent[|st.sent|..] == [];
    } else {
      var d := ds[0];
      var st1 := DeltaStep(st, d);
      RoundTripOnce(st, d, v);
      DeltaRoundTrip(st1, ds[1..], d);
      var r := Replay(st1, ds[1..]);
      assert r == Replay(st, ds);
      SuffixSplit(r.sent, st1.sent, |st.sent|);
      ApplyAllAppend(v, st1.sent[|st.sent|..], r.sent[|st1.sent|..]);
      if ds[1..] != [] {
        assert ds[1..][|ds[1..]| - 1] == ds[|ds| - 1];
      }
    }
  }

  /** The numeric properties of a snapshot, each compared against its own threshold. */
  datatype Numeric = X | Y | HullAngle | TurretAngle | Health

  function Value(s: PlayerSnapshot, f: Numeric): real {
    match f
    case X => s.x
    case Y => s.y
    case HullAngle => s.hullAngle
    case TurretAngle => s.turretAngle
    case Health => s.health
  }

  /** 0.5 for position and angles, 0.01 for health. */
  function Limit(f: Numeric): real {
    if f == Health then HealthThreshold else Threshold
  }

  /** Every snapshot of a run differs from its predecessor (the first from `last`) by more
      than the threshold on property `f`; the other properties may do anything. */
  predicate FieldStepsBeyond(last: PlayerSnapshot, ds: seq<PlayerSnapshot>, f: Numeric)
    decreases |ds|
  {
    ds != [] ==> Beyond(Value(ds[0], f), Value(last, f), Limit(f)) && FieldStepsBeyond(ds[0], ds[1..], f)
  }

  /** One tick in which property `f` moves past its threshold is transmitted, whatever the
      other properties do, and carries `f`: any receiver ends with the new value of `f`. */
  lemma FieldRoundTripOnce(st: NetState, d: PlayerSnapshot, v: PlayerSnapshot, f: Numeric)
    requires st.hasChannel && st.lastSent.Some?
    requires Beyond(Value(d, f), Value(st.lastSent.value, f), Limit(f))
    ensures var r := DeltaStep(st, d);
            r.hasChannel && r.lastSent == Some(d) && |r.sent| == |st.sent| + 1 &&
            r.sent[..|st.sent|] == st.sent && Value(ApplyAll(v, r.sent[|st.sent|..]), f) == Value(d, f)
  {
    var m := DeltaOf(d, st.lastSent.value);
    var r := DeltaStep(st, d);
    assert HasChanges(m) by {
      match f
      case X => assert m.x.Some?;
      case Y => assert m.y.Some?;
      case HullAngle => assert m.hullAngle.Some?;
      case TurretAngle => assert m.turretAngle.Some?;
      case Health => assert m.health.Some?;
    }
    assert r.sent == st.sent + [Position(m)];
    assert r.sent[|st.sent|..] == [Position(m)];
    assert [Position(m)][1..] == [];
    assert ApplyAll(v, r.sent[|st.sent|..]) == Apply(v, m);
  }

  /** Delta round trip for one property: when property `f` moves past its threshold on every
      tick, every tick is transmitted, and a receiver that started with the snapshot's value of
      `f` ends with the value of `f` in the last state sent, the last state of the run. The
      other properties are not constrained, so this is the case of a tank that drives while
      its hull, turret or health stay put. */
  lemma {:induction false} FieldRoundTrip(st: NetState, ds: seq<PlayerSnapshot>, v: PlayerSnapshot, f: Numeric)
    requires st.hasChannel && st.lastSent.Some? && Value(v, f) == Value(st.lastSent.value, f)
    requires FieldStepsBeyond(st.lastSent.value, ds, f)
    ensures |Replay(st, ds).sent| == |st.sent| + |ds| && Replay(st, ds).sent[..|st.sent|] == st.sent
    ensures Replay(st, ds).lastSent == Some(if ds == [] then st.lastSent.value else ds[|ds| - 1])
    ensures Value(ApplyAll(v, Replay(st, ds).sent[|st.sent|..]), f) == Value(Replay(st, ds).lastSent.value, f)
    decreases |ds|
  {
    if ds == [] {
      assert Replay(st, ds).sent[|st.sent|..] == [];
    } else {
      var d := ds[0];
      var st1 := DeltaStep(st, d);
      FieldRoundTripOnce(st, d, v, f);
      var v1 := ApplyAll(v, st1.sent[|st.sent|..]);
      FieldRoundTrip(st1, ds[1..], v1, f);
      var r := Replay(st1, ds[1..]);
      assert r == Replay(st, ds);
      SuffixSplit(r.sent, st1.sent, |st.sent|);
      ApplyAllAppend(v, st1.sent[|st.sent|..], r.sent[|st1.sent|..]);
      if ds[1..] != [] {
        assert ds[1..][|ds[1..]| - 1] == ds[|ds| - 1];
      }
    }
  }

  /** The angle test is linear: a hull going from 359.9 to 0.2 degrees, 0.3 degrees around the
      circle, is sent as a change. */
  lemma AngleWrapCountsAsChange(last: PlayerSnapshot)
    requires last.hullAngle == 359.9
    ensures DeltaOf(last.(hullAngle := 0.2), last).hullAngle == Some(0.2)
  {
  }

  /** The snapshot is replaced by the whole current state, so a value that stayed under the
      threshold and was never transmitted still becomes the new reference: a sender creeping
      0.4 per tick along x while turning leaves a receiver 0.8 behind, beyond the threshold, and
      no later tick corrects it until x moves another 0.5 from the new reference. */
  lemma UntransmittedDrift(st: NetState, a: PlayerSnapshot)
    requires st.hasChannel && st.lastSent == Some(a)
    ensures var b := a.(x := a.x + 0.4, hullAngle := a.hullAngle + 1.0);
            var c := b.(x := b.x + 0.4, hullAngle := b.hullAngle + 1.0);
            var r := Replay(st, [b, c]);
            r.lastSent == Some(c) && |r.sent| == |st.sent| + 2 &&
            ApplyAll(a, r.sent[|st.sent|..]).x == a.x &&
            Abs(c.x - ApplyAll(a, r.sent[|st.sent|..]).x) > Threshold
  {
    var b := a.(x := a.x + 0.4, hullAngle := a.hullAngle + 1.0);
    var c := b.(x := b.x + 0.4, hullAngle := b.hullAngle + 1.0);
    var st1 := DeltaStep(st, b);
    var mb := DeltaOf(b, a);
    assert st1.sent == st.sent + [Position(mb)];
    var st2 := DeltaStep(st1, c);
    var mc := DeltaOf(c, b);
    assert st2.sent == st.sent + [Position(mb), Position(mc)];
    assert Replay(st, [b, c]) == Replay(st1, [c]) by {
      assert [b, c][1..] == [c];
    }
    assert Replay(st1, [c]) == Replay(st2, []) by {
      assert [c][1..] == [];
    }
    assert st2.sent[|st.sent|..] == [Position(mb), Position(mc)];
    var log := [Position(mb), Position(mc)];
    assert ApplyAll(a, log) == ApplyAll(Apply(a, mb), [Position(mc)]) by {
      assert log[1..] == [Position(mc)];
    }
    assert ApplyAll(Apply(a, mb), [Position(mc)]) == ApplyAll(Apply(Apply(a, mb), mc), []) by {
      assert [Position(mc)][1..] == [];
    }
  }

  class NetworkHandler {
    const roomId: string
    const playerName: string
    var hasChannel: bool
    var lastSentState: Option<PlayerSnapshot>
    /** Every payload handed to `channel.send`, in order. */
    var sent: seq<Broadcast>

    ghost function State(): NetState
      reads this
    {
      NetState(hasChannel, lastSentState, sent)
    }

    constructor (roomId: string, playerName: string)
      ensures this.roomId == roomId && this.playerName == playerName
      ensures State() == NetState(false, None, [])
    {
      this.roomId := roomId;
      this.playerName := playerName;
      hasChannel := false;
      lastSentState := None;
      sent := [];
    }

    /** The channel assignment of `connect`. */
    method Connect()
      modifies this
      ensures State() == old(State()).(hasChannel := true)
    {
      hasChannel := true;
    }

    method SendPosition(data: PositionMsg)
      modifies this
      ensures State() == PositionStep(old(State()), data)
    {
      if !hasChannel {
        return;
      }
      sent := sent + [Position(data)];
    }

    /** The delta block of `sendPositionDelta`: it starts from the id and adds each
        property that changed against `last`, noting whether any did. */
    static method BuildDelta(data: PlayerSnapshot, last: PlayerSnapshot)
      returns (delta: PositionMsg, hasChanges: bool)
      ensures delta == DeltaOf(data, last)
      ensures hasChanges == HasChanges(delta)
    {
      delta := PositionMsg(Some(data.id), None, None, None, None, None, None, None, None);
      hasChanges := false;
      if data.name != last.name {
        delta := delta.(name := Some(data.name));
        hasChanges := true;
      }
      if Beyond(data.x, last.x, Threshold) {
        delta := delta.(x := Some(data.x));
        hasChanges := true;
      }
      if Beyond(data.y, last.y, Threshold) {
        delta := delta.(y := Some(data.y));
        hasChanges := true;
      }
      if Beyond(data.hullAngle, last.hullAngle, Threshold) {
        delta := delta.(hullAngle := Some(data.hullAngle));
        hasChanges := true;
      }
      if Beyond(data.turretAngle, last.turretAngle, Threshold) {
        delta := delta.(turretAngle := Some(data.turretAngle));
        hasChanges := true;
      }
      if Beyond(data.health, last.health, HealthThreshold) {
        delta := delta.(health := Some(data.health));
        hasChanges := true;
      }
      if data.isDestroyed != last.isDestroyed {
        delta := delta.(isDestroyed := Some(data.isDestroyed));
        hasChanges := true;
      }
      if data.presetId != last.presetId {
        delta := delta.(presetId := Some(data.presetId));
        hasChanges := true;
      }
    }

    method SendPositionDelta(data: PlayerSnapshot)
      modifies this
      ensures State() == DeltaStep(old(State()), data)
    {
      if !hasChannel {
        return;
      }
      if lastSentState.None? {
        lastSentState := Some(data);
        SendPosition(FullMsg(data));
        return;
      }
      var delta, hasChanges := BuildDelta(data, lastSentState.value);
      if hasChanges {
        sent := sent + [Position(delta)];
        lastSentState := Some(data);
      }
    }

    method SendFire(data: FireMsg)
      modifies this
      ensures State() == FireStep(old(State()), data)
    {
      if !hasChannel {
        return;
      }
      sent := sent + [Fire(data)];
    }
  }
}
