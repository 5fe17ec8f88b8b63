# Tank duel: a Dafny model of the game's tick logic

The game is a top-down tank duel in the browser, and it exists in two versions.

- `app.js` is the single-player mission. The player's tank fights an AI enemy under a fog of war. Explosive barrels spawn on the field. Each frame, `step` turns and drives the tank, aims the turret, fires, advances the bullets, runs the enemy's search/alert/engage state machine, spawns barrels and updates the fog.
- `js/*.js` is the modular multiplayer version:
  - `TankCore` and `BulletCore` (`js/core.js`) hold the mutable state of a tank and of a bullet.
  - `NetworkHandler` (`js/network.js`) sends position updates with delta compression.
  - `WebRTCHandler` (`js/webrtc-handler.js`) buffers ICE candidates and dispatches data-channel messages.
  - `InputHandler` (`js/input.js`) maps keys and pointer positions.
  - `FogRenderer` (`js/fog.js`) rebuilds a visibility grid.
  - `GameManager` (`js/game-manager.js`) ties these together. It assigns the player ids, applies and interpolates the remote player's updates, aims, fires, collides and throttles the network.

Each source file is a Dafny module with the same name: `Core`, `Network`, `WebRtc`, `Input`, `Fog` and `GameManager`. `app.js` is split by concern into:

- `AppSettings`: settings sanitisation and storage.
- `AppFog`: the decaying fog field.
- `AppRules`: damage, the mission latch, fire, aim and movement.
- `AppAi`: the enemy state machine.
- `AppBullets`: bullets, hits and barrel explosions.
- `AppBarrels`: barrel spawning.
- `AppGame`: the whole frame as a function.
- `AppBattle`: the same frame as a class that mutates its fields in place.

`JsMath` holds JavaScript's arithmetic:

- `%` truncates towards zero, and the remainder keeps the sign of its left operand.
- `Math.min`, `Math.max` and `Math.sign` are defined outright.
- `Math.sqrt`, `Math.hypot`, `Math.atan2`, `Math.sin` and `Math.cos` are fields of a `MathLib` value. `MathLib.Valid` states all that the proofs use about them:
  - square roots are non-negative and square back to their argument;
  - `atan2` in degrees lies in `(-180, 180]`;
  - sine and cosine lie in `[-1, 1]`.
- Numbers are `real`.
- `Math.random` becomes a sequence of draws in `[0, 1)` passed in by the caller.

Where the source mutates objects, the model does too:

- `TankCore`, `BulletCore`, `NetworkHandler`, `WebRTCHandler`, `InputHandler`, `FogRenderer`, `GameManager`, the single-player fog array and the single-player battle are classes.
- Each method is specified by a function of the old state, and the lemmas are stated about that function.

The two versions are modelled as they are written, differences included:

| | `js/fog.js` | `app.js` |
|---|---|---|
| Fog | reset to 0 every frame | decays by `delta / 3` |
| Hit test | circle | box |

These behaviours are modelled as written:

- The multiplayer hull angle is never wrapped. The receiver's interpolation then takes the long way once the hull target lies far below zero, so the remote hull spins (`GameManager.UnwrappedHullTargetSpins`).
- After a send, `NetworkHandler` records in `lastSentState` even the values it left out because they moved by less than the threshold.

One call is not modelled as written. The multiplayer game loop calls `sendPositionDelta` on its `ConnectionManager` (js/game-manager.js:282). That class defines only `sendPosition` and `sendFire`, and its `sendPosition` forwards to `NetworkHandler.sendPositionDelta` (js/connection-manager.js:57-60). The model sends the loop's call straight to `NetworkHandler.sendPositionDelta`, as if the loop had called `sendPosition`. The section "Left out" says what this hides.

## Model

| member | source | states |
|---|---|---|
| JsMath.Min | js/core.js:113-114 | `Math.min` returns one of its arguments and is below both |
| JsMath.Max | js/core.js:104 | `Math.max` returns one of its arguments and is above both |
| JsMath.Trunc | js/game-manager.js:344-345 | the integer part JavaScript's `%` drops: within one of the quotient, towards zero |
| JsMath.JsMod360 | js/game-manager.js:344-345 | `x % 360` truncates: the result has the sign of `x`, lies in (-360, 360), differs from `x` by whole turns, and is `x` itself on [0, 360) |
| JsMath.WrapDeg | js/game-manager.js:487 | `(a + 360) % 360` lands in [0, 360) for every `a >= -360` and keeps an angle already in [0, 360) |
| JsMath.ShortestArc | js/game-manager.js:479 | `((t - c + 540) % 360) - 180` lies in [-180, 180) whenever `t - c + 540 >= 0` |
| JsMath.ShortestArcIsShortest | js/game-manager.js:479 | that arc differs from `t - c` by whole turns and no other representative of `t - c` is shorter |
| JsMath.ClampTurn | js/game-manager.js:483-485 | the applied turn keeps the sign of the wanted arc, never exceeds it or `maxTurn` in size, and is the whole arc when that is within reach |
| JsMath.ClampTurnIsSignTimes | app.js:1394-1398 | an arc beyond reach is cut to `Math.sign(diff) * maxTurn` |
| JsMath.SqrtCompare | js/fog.js:53-60 | comparing `Math.sqrt(d)` with a radius is comparing `d` with the radius squared, both for `<` and `<=` |
| JsMath.HypotCompare | js/game-manager.js:535-536 | `Math.hypot(dx, dy) < r` holds exactly when `dx² + dy² < r²` (and likewise for `<=`) |
| Core.WorldSizeFromScale | js/core.js:46-50 | the world is `Math.round(1024 * 1.875)` by `Math.round(800 * 1.875)`, 1920 by 1500 |
| Core.PresetDefaults | js/core.js:7-38 | a preset exists exactly for the ids `tiger`, `phantom` and `crusher` |
| Core.MergeSettings | js/core.js:97 | each setting present in `data.settings` overrides the preset's, and each absent one keeps the preset's |
| Core.NumberOr | js/core.js:86-90 | `v \|\| d` on numbers: a missing value or 0 gives the default, anything else is kept |
| Core.PresetIdOr | js/core.js:94 | `data.presetId \|\| 'tiger'`: a missing or empty id gives `tiger` |
| Core.InitialTank | js/core.js:83-98 | the constructed tank: id as given, position, angles and health defaulted by `\|\|`, reload 0, alive, `isPlayer` only when given as true, preset settings merged with the overrides |
| Core.ZeroHealthStartsFull | js/core.js:90 | a health of 0 in the data starts the tank at full health 1, because `0 \|\| 1` is 1 |
| Core.ClampAxis | js/core.js:110-115 | the clamped coordinate lies in [half, extent - half], is the input when already there, and is the nearer bound otherwise |
| Core.Clamped | js/core.js:110-115 | after `clampPosition` the tank lies in the field (x in [29, 1891], y in [35, 1465]), a tank already inside is unchanged, and only x and y change |
| Core.ReloadStep | js/core.js:103-105 | a positive reload timer drops by `delta` floored at 0 and never goes negative; one not positive is left alone |
| Core.TankUpdate | js/core.js:100-108 | a destroyed tank is unchanged; a live one ends inside the field with its reload timer stepped, and nothing else changes |
| Core.ReloadCountsDown | js/core.js:103-105 | over any run of non-negative frame times the timer is `max(0, r - total)`: from 1.5 it reaches exactly 0 after 1.5 s |
| Core.Damaged | js/core.js:117-123 | damage to a destroyed tank is a no-op; otherwise health is floored at 0, never rises for non-negative damage, and the tank is destroyed exactly when health is 0 |
| Core.DestroyedOnce | js/core.js:117-123 | over any run of non-negative damage health never rises, a destroyed tank stays as it was, and the tank becomes destroyed at most once |
| Core.TankCore.constructor | js/core.js:83-98 | the new tank's state is `InitialTank(data)` |
| Core.TankCore.Update | js/core.js:100-108 | the new state is `TankUpdate` of the old one |
| Core.TankCore.ClampPosition | js/core.js:110-115 | the new state is `Clamped` of the old one |
| Core.TankCore.ApplyDamage | js/core.js:117-123 | the new state is `Damaged` of the old one |
| Core.BulletStep | js/core.js:140-148 | `update` keeps direction and owner, adds `delta` to `liveTime`, and the bullet is destroyed exactly when it already was or its live time now exceeds 2.2 |
| Core.BulletFlight | js/core.js:140-148 | after any run of frames the bullet has moved `dir * 406 * total`, its live time grew by the total, and the destroyed flag is never cleared |
| Core.BulletCore.constructor | js/core.js:130-138 | a new bullet at the given spot and direction, live time 0, not destroyed |
| Core.BulletCore.Update | js/core.js:140-148 | the new state is `BulletStep` of the old one |
| JsMath.Sign | app.js:1397 | `Math.sign` is 1, -1 or 0 and times its argument gives the argument's magnitude |
| Fog.Ceil | js/fog.js:20-21 | `Math.ceil`: the least integer not below `x` |
| Fog.GridSize | js/fog.js:20-25 | the grid is `Math.ceil(1920 / 40)` = 48 columns by `Math.ceil(1500 / 40)` = 38 rows, with the squared radii 450² and 240² |
| Fog.DistSq | js/fog.js:47-51 | the squared distance from the revealing tank to a cell centre is never negative |
| Fog.InfluenceInRange | js/fog.js:55-61 | within the outer radius the influence lies in [0, 1], and within the inner radius it is exactly 1 |
| Fog.RevealProperties | js/fog.js:53-66 | a reveal only raises a cell (max update), keeps a cell of [0, 1] in [0, 1], leaves cells beyond the outer radius alone, and sets cells within the inner radius to 1 |
| Fog.RevealScenarios | js/fog.js:53-66 | a cell 100 units from the tank becomes 1 and one 500 units away stays 0 |
| Fog.StartCell | js/fog.js:36 | the first visited column or row is never below 0 |
| Fog.EndCell | js/fog.js:37 | the last visited column or row is never past the grid |
| Fog.OutsideRangeIsFar | js/fog.js:36-39 | a column or row outside the clamped range has its centre farther than the outer radius |
| Fog.OutsideRectIsFar | js/fog.js:36-46 | every cell the loops of `applyReveal` skip lies beyond the outer radius, so skipping it changes nothing |
| Fog.UpdateBounds | js/fog.js:28-76 | after `update` every cell lies in [0, 1], and with no player or a destroyed one the whole field is 0 |
| Fog.FogRenderer.constructor | js/fog.js:12-26 | a fresh field of 48 × 38 cells, all 0 |
| Fog.FogRenderer.RevealCell | js/fog.js:47-66 | the loop body changes only the cell at `row * cols + col`, to its revealed value |
| Fog.FogRenderer.ApplyReveal | js/fog.js:35-69 | after the double loop every cell holds its revealed value: cells outside the clamped rectangle too, because they are out of reach |
| Fog.FogRenderer.Update | js/fog.js:28-76 | without a drawing context the field is untouched; with one every cell is its value after a reset to 0 and the player's reveal |
| AppFog.GridSize | app.js:795-808 | the inner radius is `max(40, 48) * 5` = 240, the falloff 96, the outer radius 336, the falloff range the difference or 1 when that is 0, and the grid `Math.ceil(1920 / 16)` by `Math.ceil(1500 / 16)` cells |
| AppFog.DistSq | app.js:1042-1048 | the squared distance to a cell centre is never negative |
| AppFog.InfluenceInRange | app.js:1053-1059 | within the outer radius the influence lies in [0, 1] |
| AppFog.RevealProperties | app.js:1049-1064 | a reveal only raises a cell, keeps [0, 1] cells in [0, 1], leaves cells beyond the outer radius alone and sets cells within the inner radius to 1 |
| AppFog.Decayed | app.js:1022-1028 | with `delta > 0` a cell drops by `delta / 3` floored at 0; otherwise it is left alone |
| AppFog.DecayBounds | app.js:1022-1028 | decay never raises a non-negative cell, never makes it negative, and keeps it at most 1 |
| AppFog.DecayRestores | app.js:1022-1028 | a frame of 3 seconds or more fades any cell of [0, 1] fully back to 0 |
| AppFog.StartCell | app.js:1036 | the first visited column or row is never below 0 |
| AppFog.EndCell | app.js:1037 | the last visited column or row is never past the grid |
| AppFog.OutsideRangeIsFar | app.js:1036-1039 | a column or row outside the clamped range has its centre farther than the outer radius |
| AppFog.OutsideRectIsFar | app.js:1036-1045 | every cell the loops of `applyReveal` skip lies beyond the outer radius |
| AppFog.Grid | app.js:993-1014 | `ensureFogGrid` leaves an existing grid as it is and replaces an empty one by a fresh all-zero grid of 120 × 94 cells |
| AppFog.FieldAfter | app.js:1016-1074 | the field after `updateFogField` always has one cell per grid position |
| AppFog.FieldStaysInUnit | app.js:1016-1074 | every cell of a field in [0, 1] stays in [0, 1] |
| AppFog.NearPlayerIsClear | app.js:1022-1069 | decay comes before the reveal, so a cell within the inner radius of the player is exactly 1 after the frame |
| AppFog.FarCellOnlyDecays | app.js:1022-1073 | a cell no reveal reaches only decays |
| AppFog.HiddenEnemyRevealsNothing | app.js:1071-1073 | an enemy that is destroyed or not visible to the player reveals nothing: the field is as with no enemy reveal at all |
| AppFog.FogField.constructor | app.js:805-807 | the field starts empty |
| AppFog.FogField.EnsureGrid | app.js:1006-1014 | the field becomes `Grid` of the old one: kept when it has cells, a fresh zero grid otherwise |
| AppFog.FogField.Decay | app.js:1022-1028 | every cell becomes its decayed value |
| AppFog.FogField.RevealCell | app.js:1046-1064 | the inner loop body changes only the cell at `row * fogCols + col`, to its revealed value |
| AppFog.FogField.ApplyReveal | app.js:1035-1067 | after the double loop every cell holds its revealed value |
| AppFog.FogField.UpdateField | app.js:1016-1074 | without a drawing context only the grid is ensured; with one the field becomes `FieldAfter` of the old one |
| AppFog.FogField.Render | app.js:1076-1155 | `renderFog` leaves the field alone without a context or once the mission is completed, only ensures the grid once it failed, and otherwise runs `updateFogField` |
| AppSettings.FiniteNumber | app.js:62-63 | `Number(v)` kept only when `Number.isFinite` holds: a finite number is kept, `null` gives 0, a boolean 0 or 1, a numeric string its number, an empty array 0 and a one-element array its element's number; `undefined`, objects, longer arrays and non-finite values are rejected |
| AppSettings.Get | app.js:62 | reading a key of a value that is not an object gives `undefined` |
| AppSettings.Defaults | app.js:10-41 | a preset's defaults exist exactly for the three preset ids |
| AppSettings.ClampToRange | app.js:52 | `Math.min(max, Math.max(min, value))` lies in the range, is the value itself inside it and the nearer bound outside |
| AppSettings.DefaultsWithinLimits | app.js:10-50 | every preset's defaults already lie within the settings limits |
| AppSettings.SanitizeField | app.js:60-66 | a finite number in an object is clamped into the limits; anything else leaves the default, so the field always ends in range |
| AppSettings.SanitizeSingle | app.js:54-69 | a missing or non-object input gives the defaults; otherwise each field is sanitised on its own and the result is within the limits |
| AppSettings.SanitizeEntry | app.js:73-77 | the entry for a preset is the raw value under its id (or `undefined` when the map is not an object) sanitised against that preset, and lies within the limits |
| AppSettings.SanitizeMap | app.js:71-79 | the map has exactly the three preset ids, each holding its sanitised entry |
| AppSettings.SpreadLegacy | app.js:100-102 | `Object.fromEntries(TANK_IDS.map(id => [id, parsed]))` gives each preset id the same value |
| AppSettings.Load | app.js:81-112 | the loaded map always has the three ids within the limits, and anything but a parsed object (no storage, no item, malformed JSON) gives the defaults |
| AppSettings.LoadWithoutObject | app.js:84-111 | without a stored object every preset gets its own defaults |
| AppSettings.LegacyAppliesToAll | app.js:95-103 | a stored object whose keys are all setting names applies to every preset |
| AppSettings.Encode | app.js:122 | the stored JSON object has one key per entry of the map |
| AppSettings.Save | app.js:114-128 | `saveTankSettings` returns the sanitised map and stores its encoding exactly when storage exists |
| AppSettings.SanitizeEncoded | app.js:54-69 | sanitising settings that are already within limits gives them back unchanged |
| AppSettings.EncodedEntry | app.js:73-77 | sanitising an entry read back from the encoding gives the stored entry |
| AppSettings.EncodedNotLegacy | app.js:95-97 | an encoded map is never taken for the legacy shape, because its keys are preset ids |
| AppSettings.LoadPerPreset | app.js:105 | a stored object not of the legacy shape is sanitised per preset |
| AppSettings.SanitizeEncodedMap | app.js:71-79 | sanitising the encoding of a sanitised map gives the map back |
| AppSettings.LoadEncoded | app.js:93-105 | loading the encoding of a sanitised map gives the map back |
| AppSettings.SaveLoadRoundTrip | app.js:81-128 | with storage, `loadTankSettings` after `saveTankSettings` returns exactly what the save returned |
| Input.ControlFor | js/input.js:34-59 | each control is selected by exactly its two key codes (`Space` alone for firing), and every other code selects none |
| Input.Set | js/input.js:36-57 | writing one control sets that control to the value and leaves every other control as it was |
| Input.LowerChar | js/input.js:64 | ASCII lower-casing of one character: A–Z move down by 32, every other character is kept; this is `toLowerCase` only on ASCII |
| Input.Lower | js/input.js:64 | ASCII lower-casing of a string keeps its length and lowers every character by `LowerChar`; this is `toLowerCase` only on ASCII |
| Input.IsInteractiveTarget | js/input.js:62-66 | no target is not interactive; a target is interactive exactly when its lowered tag is `input`, `textarea`, `select` or `button`, or it is content-editable |
| Input.UpperCaseTagsAreInteractive | js/input.js:64-65 | the tag names `BUTTON` and `Input` count as interactive |
| Input.CanvasIsNotInteractive | js/input.js:64-65 | a `CANVAS` target and a target without a tag name do not |
| Input.KeyStep | js/input.js:30-60 | on an interactive target nothing changes and the default is not prevented; otherwise the default is prevented exactly for a mapped code, whose flag alone becomes `isPressed` |
| Input.AtMostOneFlagChanges | js/input.js:30-60 | one key event changes at most one flag |
| Input.PressThenRelease | js/input.js:30-60 | pressing and releasing a mapped key clears its flag and leaves every other flag as it was |
| Input.InputHandler.constructor | js/input.js:7-23 | every key flag false and pointer positions at the origin |
| Input.InputHandler.HandleKey | js/input.js:30-60 | the new key state and the `preventDefault` call are those of `KeyStep`; pointer positions are untouched |
| Input.InputHandler.UpdatePointer | js/input.js:68-73 | the viewport position is the client position less the rectangle's origin, the world position is that plus the camera, and the keys are untouched |
| Network.FullMsg | js/network.js:68-74 | the first send carries every field, so applying it to any receiver copy gives the full snapshot |
| Network.DeltaOf | js/network.js:77-134 | the delta always carries `id`; `name`, `isDestroyed` and `presetId` exactly when they differ from `lastSentState`; x, y and the angles exactly when they moved more than 0.5; health exactly when it moved more than 0.01 |
| Network.DeltaReconstructs | js/network.js:77-134 | applying a delta to the last sent state agrees exactly on id, name, destroyed flag and preset, and within the thresholds on position, angles and health |
| Network.PositionStep | js/network.js:51-58 | `sendPosition` appends one `position` broadcast when there is a channel, does nothing without one, and never touches `lastSentState` |
| Network.FireStep | js/network.js:152-159 | `sendFire` appends one `fire` broadcast when there is a channel and does nothing without one |
| Network.DeltaStep | js/network.js:64-150 | no channel: nothing sent and `lastSentState` kept; first call: the full payload sent and recorded; later calls: the delta sent and the full data recorded when some field qualifies, otherwise nothing at all; the log only ever grows by at most one broadcast |
| Network.ExactPropertiesTrackedOnce | js/network.js:126-148 | one publish tick keeps a receiver that applied every payload in step with `lastSentState` on the exactly compared fields |
| Network.ExactPropertiesTracked | js/network.js:64-150 | over any run of ticks a receiver that applies every `position` payload in order agrees with `lastSentState` on id, name, destroyed flag and preset |
| Network.RoundTripOnce | js/network.js:77-149 | when every numeric field moved beyond its threshold, the one delta sent rebuilds the new snapshot exactly at the receiver |
| Network.DeltaRoundTrip | js/network.js:64-150 | over a run of ticks whose every numeric field moves beyond its threshold each time, the receiver's whole copy equals `lastSentState`, which is the last snapshot |
| Network.FieldRoundTripOnce | js/network.js:77-149 | a tick in which one numeric field moves beyond its threshold is sent whatever the other fields do, and any receiver then holds that field's new value |
| Network.FieldRoundTrip | js/network.js:64-150 | per field: over a run of ticks in which one numeric field (x, y, either angle or health) moves beyond its threshold each time, and the others may stay put, every tick is sent and the receiver's value of that field ends equal to its value in `lastSentState`, the last snapshot |
| Network.AngleWrapCountsAsChange | js/network.js:105 | the angle test is linear: a hull going from 359.9 to 0.2 degrees is sent as a change |
| Network.UntransmittedDrift | js/network.js:89-148 | `lastSentState` takes the whole data even when x was not sent: two ticks of 0.4 along x (sent because the hull turned) leave the receiver 0.8 behind, beyond the threshold |
| Network.NetworkHandler.constructor | js/network.js:8-21 | no channel, no last sent state, nothing sent |
| Network.NetworkHandler.Connect | js/network.js:23-49 | the handler gains its channel and nothing else changes |
| Network.NetworkHandler.SendPosition | js/network.js:51-58 | the new state is `PositionStep` of the old one |
| Network.NetworkHandler.SendPositionDelta | js/network.js:64-150 | the new state is `DeltaStep` of the old one |
| Network.NetworkHandler.SendFire | js/network.js:152-159 | the new state is `FireStep` of the old one |
| WebRtc.WithNewPeer | js/webrtc-handler.js:36-59 | `initPeerConnection` gives a fresh peer without a remote description and keeps the candidate buffer |
| WebRtc.Drained | js/webrtc-handler.js:87-93 | after the remote description is set the buffered candidates are applied in order after those already applied |
| WebRtc.AddCandidate | js/webrtc-handler.js:118-125 | a candidate is applied at once when the peer has a remote description and is buffered otherwise |
| WebRtc.AcceptOffer | js/webrtc-handler.js:84-100 | `handleOffer` leaves a new peer with the remote description and exactly the buffered candidates applied, and an empty buffer |
| WebRtc.AcceptAnswer | js/webrtc-handler.js:105-113 | `handleAnswer` fails exactly when there is no peer; otherwise the buffer is drained into the peer after its applied candidates |
| WebRtc.CandidatesIn | js/webrtc-handler.js:118-125 | the candidates among the signalling events |
| WebRtc.SignalKeepsBuffering | js/webrtc-handler.js:84-125 | every signalling event keeps the rule that candidates are buffered only while the peer has no remote description |
| WebRtc.SignalDelivers | js/webrtc-handler.js:105-125 | for an existing peer, a candidate event delivers exactly that candidate (at once or through the buffer) and an answer delivers nothing new |
| WebRtc.BufferingPersists | js/webrtc-handler.js:105-125 | without a new connection the rule persists and a remote description once set stays set |
| WebRtc.CandidatesKeepOrder | js/webrtc-handler.js:105-125 | without a new connection the candidates reach the peer (applied or buffered) exactly in arrival order |
| WebRtc.GuestAppliesInArrivalOrder | js/webrtc-handler.js:84-125 | a guest hearing candidates before and after the offer ends with an empty buffer and every candidate applied in arrival order |
| WebRtc.Arrivals | js/webrtc-handler.js:118-125 | one candidate event per candidate, in order |
| WebRtc.ArrivalsOnly | js/webrtc-handler.js:118-125 | candidate events alone open no connection and carry exactly their candidates |
| WebRtc.NoPeerBuffers | js/webrtc-handler.js:118-124 | with no peer every candidate is appended to the buffer |
| WebRtc.DispatchOf | js/webrtc-handler.js:162-177 | a message goes to `onPlayerUpdate` exactly when its type is `position` and that callback is set, to `onPlayerFire` exactly when it is `fire` and that callback is set, and is dropped otherwise |
| WebRtc.WebRTCHandler.constructor | js/webrtc-handler.js:8-31 | no peer, no data channel, no callbacks and an empty candidate buffer |
| WebRtc.WebRTCHandler.SetCallbacks | js/webrtc-handler.js:15-18 | only the three callbacks change |
| WebRtc.WebRTCHandler.InitPeerConnection | js/webrtc-handler.js:36-59 | the candidate state becomes `WithNewPeer` of the old one, and nothing else changes |
| WebRtc.WebRTCHandler.CreateOffer | js/webrtc-handler.js:64-79 | the host gets a new peer and a data channel that is still connecting |
| WebRtc.WebRTCHandler.OnDataChannel | js/webrtc-handler.js:55-58 | the guest's data channel is the one offered, in its ready state |
| WebRtc.WebRTCHandler.DrainBuffer | js/webrtc-handler.js:89-93 | the peer becomes `Drained` of the old peer and the buffer, and the buffer is emptied |
| WebRtc.WebRTCHandler.HandleOffer | js/webrtc-handler.js:84-100 | the candidate state becomes `AcceptOffer` of the old one |
| WebRtc.WebRTCHandler.HandleAnswer | js/webrtc-handler.js:105-113 | the call fails exactly when `AcceptAnswer` does, leaving the state as it was; otherwise the state becomes `AcceptAnswer` of the old one |
| WebRtc.WebRTCHandler.AddIceCandidate | js/webrtc-handler.js:118-125 | the candidate state becomes `AddCandidate` of the old one |
| WebRtc.WebRTCHandler.OnChannelOpen | js/webrtc-handler.js:131-136 | the channel is open and `connected` is reported exactly when the callback is set |
| WebRtc.WebRTCHandler.OnChannelClose | js/webrtc-handler.js:138-143 | the channel is closed and `disconnected` is reported exactly when the callback is set |
| WebRtc.WebRTCHandler.HandleMessage | js/webrtc-handler.js:162-177 | the message data reaches the callback `DispatchOf` names, and no other callback |
| WebRtc.WebRTCHandler.OnChannelMessage | js/webrtc-handler.js:149-156 | a message that fails to parse reaches no callback; a parsed one is dispatched as `handleMessage` does |
| WebRtc.WebRTCHandler.SendPosition | js/webrtc-handler.js:182-189 | a `position` envelope is sent exactly when the channel is open |
| WebRtc.WebRTCHandler.SendFire | js/webrtc-handler.js:194-201 | a `fire` envelope is sent exactly when the channel is open |
| WebRtc.WebRTCHandler.Close | js/webrtc-handler.js:206-213 | an existing channel and peer are closed, and the buffer is kept |
| AppRules.Clamp | app.js:410 | with `lo <= hi` the result lies in `[lo, hi]`, and a value already inside is returned unchanged |
| AppRules.RandomInRangeBounds | app.js:817 | `randomInRange(lo, hi)` lies in `[lo, hi]`, and strictly below `hi` when `lo < hi` |
| AppRules.Forward | app.js:1254-1260 | the heading of an angle measured clockwise from up is a vector whose components lie in `[-1, 1]` |
| AppRules.Heading | app.js:1385-1389 | the bearing from a tank to a target, moved into `[0, 360)` |
| AppRules.AimTurret | app.js:1373-1401 | `aimTurretTowards` changes only the turret angle, and changes nothing for a destroyed tank or a target within 0.0001 on both axes |
| AppRules.TurnLands | app.js:1400 | a turn by an arc in `[-180, 180)` lands in `[0, 360)` and measures back as exactly that arc |
| AppRules.ModOfShift | app.js:1400 | the truncating `% 360` undoes any shift of an angle by whole turns |
| AppRules.TurnStep | app.js:1393-1400 | one clamped turn lands in `[0, 360)`, moves at most the budget along the shortest arc, and reaches the target exactly when it is within the budget |
| AppRules.AimTurretBounded | app.js:1373-1401 | the turret stays in `[0, 360)`, turns at most `turnRate * delta` in one frame, and points straight at the target when that is within the budget |
| AppRules.AimTurns | app.js:1385-1400 | a live tank aiming at a distinct target turns by the clamped shortest arc towards the bearing |
| AppRules.ArcToSelf | app.js:1392 | the shortest arc from an angle to itself is zero |
| AppRules.ArcReaches | app.js:1392 | turning by the shortest arc from `c` towards `h` lands on `h` |
| AppRules.Damage | app.js:1219-1229 | a destroyed tank is left alone; otherwise only health and the destroyed flag change, health drops by the amount and never below zero, and the tank is destroyed exactly when its health reaches zero |
| AppRules.Latch | app.js:1180-1205 | the first mission outcome is kept for good; a later one is ignored |
| AppRules.ApplyDamage | app.js:1219-1237 | only the hit tank changes and only as `Damage` says; the outcome changes exactly when there was none and this hit destroyed the tank, and then it is failed for the player's tank and completed for the enemy's |
| AppRules.FirstOutcomeWins | app.js:1180-1217 | once a hit has set the outcome, no later hit replaces it |
| AppRules.PlayerFirstMeansFailed | app.js:1180-1237 | when both tanks are destroyed in one exchange with the player hit first, the mission is failed and the later enemy kill does not turn it into a success |
| AppRules.WornTransitive | app.js:1219-1229 | "health only falls and destroyed tanks stay destroyed" composes over several steps |
| AppRules.ApplyDamageSound | app.js:1219-1237 | a hit keeps health in `[0, 1]` and the outcome consistent with which tank is destroyed, and only wears the tanks down |
| AppRules.Fire | app.js:1262-1292 | a reloading or destroyed tank does not fire; otherwise exactly one bullet owned by the tank is appended, 60 px ahead of it along the turret, with zero live time, and its reload restarts; no other tank changes |
| AppRules.Driven | app.js:1661-1683 | a move along the hull ends inside the field the chassis may occupy |
| AppRules.MoveTank | app.js:1661-1686 | a drive changes only the position, which ends inside the field at the clamped point ahead |
| AppRules.MoveInsideIsExact | app.js:1666-1683 | a move that stays inside the field is not clamped |
| AppRules.TurnHull | app.js:1521-1526 | a hull turn changes only the hull angle |
| AppRules.TurnHullBounded | app.js:1521-1526 | the hull stays in `[0, 360)` and turns at most the budget along the shortest arc |
| AppRules.ClampPosition | app.js:1239-1242 | `clampTankPosition` changes only the position, leaves the tank inside the field, and leaves a tank already inside alone |
| AppRules.NewTank | app.js:518-534 | `createTank` makes a live tank with full health, no reload, both angles at zero and the given player flag |
| AppAi.SearchTurnRateIsThreeQuarters | app.js:811 | the search turn rate is three quarters of the hull turn speed |
| AppAi.Perceive | app.js:1477-1508 | perception changes only the two memory timers, the last seen position and the two visibility flags |
| AppAi.PerceiveSight | app.js:1477-1508 | with direct sight (within the vision radius) both flags are set, both timers are full and the player's position is remembered; without it each flag holds exactly while its timer still runs, the remembered position is kept, and the timers fade |
| AppAi.FadeAllIsTimeLeft | app.js:1488-1493 | after a run of frames without sight a memory timer holds what is left of it after their total time, floored at zero |
| AppAi.MemoryLastsOneSecond | app.js:1481-1493 | a full memory timer is still running after frames totalling less than one second and has run out once they total a second |
| AppAi.MoveInput | app.js:1539-1544 | the enemy drives forwards exactly when farther than 320, backwards exactly when nearer than 160, and holds inside that band |
| AppAi.EngageMove | app.js:1546-1564 | a zero move input leaves the tank alone; otherwise only the position changes, to the clamped point along the hull |
| AppAi.Aimed | app.js:1516-1528 | only the hull and the turret change, and the hull turns towards the player at the hull turn speed |
| AppAi.PickTargetInField | app.js:980-989 | a picked search target lies in the field a tank may occupy |
| AppAi.AimAhead | app.js:1589-1592 | aiming ahead of the hull changes only the turret angle |
| AppAi.InitialAi | app.js:557-568 | the AI starts in search mode with its first target picked, and satisfies the AI invariant |
| AppAi.PerceiveKeepsTimers | app.js:1477-1508 | perception keeps both timers in `[0, 1]`, keeps a remembered position whenever the player is visible, remembered or being investigated, and empties the enemy's timer whenever the player drops out of view |
| AppAi.PursueKeepsInvariant | app.js:1510-1572 | the visible branch keeps the AI invariant |
| AppAi.SearchKeepsInvariant | app.js:1574-1648 | the search branch keeps the AI invariant |
| AppAi.EnemyBehaviorKeepsInvariant | app.js:1466-1649 | every frame of `updateEnemyBehavior` keeps the AI invariant: search mode exactly when the player is not visible, a zero reaction timer when engaging or searching, a running one when alerted, both timers in `[0, 1]`, and a remembered position when one is needed |
| AppAi.DecisionReachesWorld | app.js:1466-1649 | the world after the frame holds the decided enemy and AI state and the player untouched, with one enemy bullet appended exactly when the decision fires and the enemy's reload restarted |
| AppAi.DecisionKeepsStatus | app.js:1466-1649 | a decision keeps the enemy's health, destroyed flag, reload timer and side, fires only with the gun loaded, and never takes back random draws |
| AppAi.EnemyBehaviorFrame | app.js:1466-1649 | only the enemy tank, its bullets, the AI state and the random draws change; at most one bullet is added and the existing ones are kept |
| AppAi.EnemyStaysInField | app.js:1554-1563 | an enemy inside the field stays inside it |
| AppAi.RisingEdgeAlerts | app.js:1510-1535 | when the player comes into sight, the enemy goes on alert with the reaction delay less this frame, and neither moves nor fires |
| AppAi.AlertTurnsToEngage | app.js:1530-1537 | an alerted enemy engages exactly when its reaction timer runs out this frame while the player is still visible, and stays alerted exactly while it still runs |
| AppAi.FallingEdgeInvestigates | app.js:1574-1613 | on losing the player the enemy searches towards the last seen position, or gives that position up at once when it is already within 96 of it |
| AppAi.FallingEdgeWithoutTrace | app.js:1574-1594 | on losing the player without a remembered position the enemy picks a fresh target and pauses without moving, taking three random draws |
| AppAi.EngageMovement | app.js:1516-1564 | an engaging enemy turns its hull at most `140 * delta`, holds its position inside the 160 to 320 band and otherwise drives along its new heading, clamped to the field |
| AppAi.EngageDecision | app.js:1516-1564 | the same facts about the decision itself: engage mode, the bounded hull turn, and the band move |
| AppAi.PursueEngaging | app.js:1530-1564 | past the reaction delay the visible branch engages with the hull turned towards the player and the band move applied along it |
| AppAi.EnemyFireRule | app.js:1566-1569 | the enemy fires exactly when engaging with its gun loaded, its turret within 12 degrees of the player's bearing after this frame's aim, and the player within 600 |
| AppAi.SearchPauseHolds | app.js:1587-1594 | while the search pause lasts the enemy keeps its place and hull, turns its turret at most `60 * delta`, counts the pause down, and draws nothing |
| AppAi.SearchPausing | app.js:1587-1594 | during the pause the search branch only aims the turret ahead of the hull |
| AppAi.AimAheadBounded | app.js:1589-1592 | aiming ahead turns the turret by at most the frame's budget |
| AppAi.SearchTargetReached | app.js:1605-1613 | on reaching its target the enemy stays put, pauses 0.5 to 1.5 seconds, picks a new target inside the field and gives up an investigation it was on |
| AppBullets.FirstTankHit | app.js:1423-1439 | the first tank in order that the bullet hits, skipping its owner and destroyed tanks; none exactly when it hits no tank |
| AppBullets.LastBarrelHit | app.js:1445-1456 | the highest-indexed barrel within 28 of the bullet; none exactly when it hits no barrel |
| AppBullets.Remove | app.js:1418 | `splice(i, 1)` drops exactly element `i` and keeps the others in order |
| AppBullets.BlastDamageRange | app.js:880-881 | inside the blast radius a tank takes between 40% and all of the 0.55 blast damage |
| AppBullets.Blast | app.js:870-883 | a blast changes only health and the destroyed flag, and leaves a destroyed tank alone |
| AppBullets.ExplodeFrom | app.js:869-884 | the loop over the tanks changes only the tanks and the outcome, and keeps the number of tanks |
| AppBullets.BlastAt | app.js:870-883 | one tank's blast changes only the tanks and the outcome |
| AppBullets.ExplodeFromEffect | app.js:869-884 | every tank takes exactly its own blast, without interference from the others, and an outcome already recorded stays |
| AppBullets.TriggerExplosion | app.js:886-892 | the barrel is removed, every tank takes its blast, the spawn timer restarts with one draw in `[2.4, 6)`, an outcome already recorded stays, and bullets, AI and clock are untouched |
| AppBullets.BulletStep | app.js:1404-1463 | the bullet moves; it is dropped when expired or more than 20 outside the world; else the first tank it hits takes the damage and only that tank changes; else the last barrel it hits is removed, every tank takes that barrel's blast, and the spawn timer is redrawn from the next draw; in both hit cases the bullet is dropped, otherwise it stays moved; earlier bullets and a recorded outcome are never touched |
| AppBullets.ProcessLeavesBulletsInPlay | app.js:1403-1464 | `updateBullets` never adds a bullet, and every bullet left after it is in play |
| AppBullets.ProcessKeepsOutcome | app.js:1403-1464 | the bullet pass never replaces a recorded mission outcome |
| AppBullets.ProcessKeepsTanksAndAi | app.js:1403-1464 | the bullet pass keeps the tanks' number and sides, the AI state and the clock |
| AppBullets.ProcessNeverAddsBarrels | app.js:1403-1464 | the bullet pass only ever removes barrels |
| AppBullets.BlastAtSound | app.js:870-883 | one tank's blast keeps the combat state consistent and only wears the tanks down |
| AppBullets.ExplodeFromSound | app.js:869-884 | a whole explosion keeps the combat state consistent and only wears the tanks down |
| AppBullets.BulletStepSound | app.js:1404-1463 | one bullet's pass keeps the combat state consistent and only wears the tanks down |
| AppBullets.ProcessBulletsSound | app.js:1403-1464 | the whole bullet pass keeps the combat state consistent and only wears the tanks down |
| AppBarrels.ClampBarrel | app.js:836-848 | `clampBarrelPosition` puts a barrel inside the field and leaves one already inside alone |
| AppBarrels.Attempt | app.js:938-957 | each attempt takes exactly two random draws, one per axis |
| AppBarrels.SpawnFromFrame | app.js:920-960 | the attempts either add exactly one barrel after the existing ones or use up two draws each and add nothing; nothing else changes |
| AppBarrels.SpawnFromPlacement | app.js:938-957 | an added barrel stands exactly where it was drawn, inside the candidate range, at a spot `canPlaceBarrelAt` accepts |
| AppBarrels.Rearm | app.js:973-977 | after a spawn only the timer and one draw change |
| AppBarrels.AfterCountdownEffect | app.js:968-977 | after the countdown only barrels, timer and draws change; a barrel appears only once the timer has run out, at most one, after the existing ones, and at a free spot |
| AppBarrels.UpdateSpawningFrame | app.js:962-978 | `updateBarrelSpawning` changes only the barrels, the spawn timer and the draws |
| AppBarrels.FullFieldWaits | app.js:963-966 | with five barrels nothing spawns and the timer is redrawn in `[6, 12]` |
| AppBarrels.UpdateSpawningCount | app.js:962-978 | a barrel is added only below five barrels and once the timer runs out, so the field never holds more than five |
| AppBarrels.SpawnedBarrelIsFree | app.js:962-978 | a barrel that appears is at least 100 from every other barrel, 140 from every tank, and inside the field |
| AppBarrels.CountdownIsSpawn | app.js:968-977 | once the timer has run out below five barrels, the frame is a spawn run followed by a fresh wait |
| AppBarrels.SpawnFromFree | app.js:938-957 | a run of attempts from the first one places its barrel only at a free spot |
| AppGame.FrameDelta | app.js:1652 | the frame time in seconds is at most 0.05, non-negative when the clock does not run backwards, the exact elapsed time below 50 ms and 0.05 from 50 ms on |
| AppGame.Axis | app.js:1655 | an input axis from two keys is -1, 0 or 1; zero exactly when both or neither key is held, one exactly when only the positive key is |
| AppGame.Steer | app.js:1656-1659 | steering changes only the hull angle, and not at all without turn input |
| AppGame.SteerTurns | app.js:1656-1659 | a turn input turns the hull by exactly `140 * delta` degrees per unit, clockwise for positive input, and keeps it in `[0, 360)` |
| AppGame.DrivePlayer | app.js:1655-1687 | a destroyed player does not move; otherwise the hull turns as steered and a drive key moves the tank along the new hull to the clamped point; the tank never leaves the field and nothing else changes |
| AppGame.Reload | app.js:1691-1696 | a running reload timer drops by the frame time, floored at zero, never grows, and reaches zero when the frame is at least as long as the time left |
| AppGame.Reloaded | app.js:1691-1696 | the reload pass applies the countdown to every tank |
| AppGame.PlayerPhase | app.js:1655-1702 | the player's share of the frame changes only the tanks and the bullets, keeps both tanks, and only appends bullets |
| AppGame.StepSpec | app.js:1651-1711 | a frame stores its timestamp and keeps the two tanks |
| AppGame.InitialWorld | app.js:536-568 | the game starts with a live player at the centre, a live enemy at (0.75, 0.35) of the field, no bullets, no barrels and no outcome |
| AppGame.InitialWorldSound | app.js:536-568 | the starting world satisfies the frame invariant, with the first spawn wait in `[0.75, 2.25]` |
| AppGame.PlayerPhaseSound | app.js:1655-1702 | the player's phase keeps the tanks sound: health in `[0, 1]`, a consistent outcome, both tanks in the field and reload timers non-negative |
| AppGame.EnemyPhaseSound | app.js:1466-1649 | the enemy's frame keeps the tanks sound |
| AppGame.BulletPhaseSound | app.js:1403-1464 | the bullet pass keeps the tanks sound and only wears them down |
| AppGame.StepKeepsSound | app.js:1651-1711 | every frame keeps the invariant: sound tanks inside the field, a consistent AI state, at most five barrels, and only bullets in play |
| AppGame.StepKeepsOutcome | app.js:1180-1217 | once the mission has an outcome, no later frame changes it |
| AppGame.DestroyedTankStaysPut | app.js:1654-1687 | a destroyed tank neither moves nor turns in any later frame, and a destroyed player leaves the enemy's AI state untouched |
| AppBattle.Battle.constructor | app.js:536-568 | the setup code leaves the closures' state equal to the starting world, with an empty fog grid |
| AppBattle.Battle.ApplyDamageTo | app.js:1219-1237 | `applyDamage` updates the state in place exactly as the damage and outcome latch rule says |
| AppBattle.Battle.FireProjectile | app.js:1262-1292 | `fireProjectile` updates the state in place exactly as the firing rule says |
| AppBattle.Battle.AimTurretTowards | app.js:1373-1401 | `aimTurretTowards` replaces only tank `j` by its aimed version |
| AppBattle.Battle.ReloadAll | app.js:1691-1696 | the reload loop applies the countdown to every tank in place |
| AppBattle.Battle.UpdateEnemyBehavior | app.js:1466-1649 | `updateEnemyBehavior` updates the state in place exactly as the enemy's decision rule says |
| AppBattle.Battle.CanPlaceAt | app.js:894-918 | the loops of `canPlaceBarrelAt` accept a spot exactly when it is inside the field, at least 100 from every barrel and 140 from every tank |
| AppBattle.Battle.SpawnBarrel | app.js:920-960 | the attempt loop of `spawnBarrel` updates the state and reports success exactly as the spawn rule says |
| AppBattle.Battle.TryCandidate | app.js:939-957 | one attempt updates the state and reports placement exactly as a single attempt says |
| AppBattle.Battle.UpdateBarrelSpawning | app.js:962-978 | `updateBarrelSpawning` updates the state in place exactly as the spawning rule says |
| AppBattle.Battle.FinishCountdown | app.js:968-977 | the part after the countdown matches its specification |
| AppBattle.Battle.ApplyExplosionDamage | app.js:869-884 | the loop over the tanks updates the state as the explosion rule says |
| AppBattle.Battle.BlastTank | app.js:870-883 | the loop body for one tank matches the single-tank blast |
| AppBattle.Battle.TriggerBarrelExplosion | app.js:886-892 | `triggerBarrelExplosion` updates the state in place as the explosion rule says |
| AppBattle.Battle.FindTankHit | app.js:1422-1439 | the tank loop finds the first tank the bullet hits, or none |
| AppBattle.Battle.FindBarrelHit | app.js:1445-1456 | the downward barrel loop finds the highest-indexed barrel the bullet hits, or none |
| AppBattle.Battle.UpdateBullet | app.js:1405-1463 | one pass of the bullet loop updates the state as the single-bullet rule says |
| AppBattle.Battle.UpdateBullets | app.js:1403-1464 | the downward loop over the bullets updates the state as the whole bullet pass says |
| AppBattle.Battle.PlayerControls | app.js:1655-1702 | the player's part of `step` updates the state as the player's phase says |
| AppBattle.Battle.Step | app.js:1651-1711 | `step` keeps the battle valid, updates the state as one frame says, and then renders the fog: the field is unchanged without a canvas or after a win, only has its grid ensured after a defeat, and is otherwise decayed and revealed around the player |
| GameManager.AssignIds | js/game-manager.js:53-62 | the two ids always differ; alone the player is `player1` against `ai_enemy`; in a room the host is `player1` and the guest `player2`, and the enemy is the other one |
| GameManager.HostAndGuestMirror | js/game-manager.js:56-58 | in a room the host's enemy id is the guest's own id and the other way round, so each side accepts the other's messages |
| GameManager.WritePresent | js/game-manager.js:184-191 | every field present in the message is written (position and angles to the targets, health and the destroyed flag to the live tank) and every absent one is kept |
| GameManager.Receive | js/game-manager.js:155-192 | a message not from the enemy (no id, an empty id or another id) changes nothing; a message from a known enemy only writes the fields it carries |
| GameManager.LaterMessageWritesTargets | js/game-manager.js:182-191 | a later message never moves the live tank: position, angles, reload timer, settings, id and the enemy's name stay; health and the destroyed flag take the values present, and the x target follows `x` when present |
| GameManager.FirstMessageCreatesEnemy | js/game-manager.js:160-191 | the first message with a known preset names the enemy (`'Enemy'` by default) and builds a live remote tank with the enemy's id and preset at the received position, angles at zero, and targets on the received position and angles (`|| 0` for the angles) |
| GameManager.FirstMessageWithoutPreset | js/game-manager.js:160-173 | without a known preset the name is still set; an unknown preset id leaves no tank (the constructor throws), and a missing one leaves a tiger without targets (the renderer lookup throws) |
| GameManager.ReceiverFollowsSender | js/game-manager.js:184-191 | a message moves the receiver's targets, health and flag exactly as it moves the sender's snapshot when the sender applies it |
| GameManager.ReceiverFollowsRun | js/game-manager.js:155-192 | over any run of messages from the enemy the receiver's tracked values stay equal to the snapshot the same messages rebuild at the sender |
| GameManager.ApproachBetween | js/game-manager.js:337-340 | with a rate in `[0, 1]` the new position lies between the old one and the target, and the remaining distance shrinks by exactly that rate |
| GameManager.InterpolateAngle | js/game-manager.js:343-346 | the interpolated angle always lies in `(-360, 360)`, since `%` keeps the sign of a negative operand |
| GameManager.ArcRange | js/game-manager.js:344 | the arc `((t - c + 540) % 360) - 180` lies in `(-540, 180)` for any angles, and in `[-180, 180)` when `t - c + 540` is not negative |
| GameManager.FixedFrameAngleLands | js/game-manager.js:343-346 | at the fixed frame time the angle step is 0.16 of the arc, and an angle in `[0, 360)` stays there whatever the target |
| GameManager.PortionBounds | js/game-manager.js:345 | a part in `[0, 1]` of an arc in `[-180, 180)` stays in that range, and the rest of the arc is never longer |
| GameManager.AngleConverges | js/game-manager.js:343-346 | towards a target in `[0, 360)` one step lands in `[0, 360)`, and the arc left is the old arc less the step taken |
| GameManager.UnwrappedHullTargetSpins | js/game-manager.js:343-346 | against an unwrapped hull target 900 or more degrees below zero, the arc is at most -180, so each fixed frame turns the remote hull more than 28.8 degrees the negative way while it stays in `[0, 360)`: it spins instead of settling; a target of -1000 gives -280 from 0 |
| GameManager.AimHeadingAgrees | js/game-manager.js:477 | the heading wrapped by `% 360` equals the single-player version's `d < 0 ? d + 360 : d`, and lies in `[0, 360)` |
| GameManager.AimStep | js/game-manager.js:474-489 | the turn applied is the shortest arc clamped to the turret's budget of 45 degrees per second |
| GameManager.AimBounded | js/game-manager.js:474-489 | the turret stays in `[0, 360)`, turns at most `45 * delta` along the shortest arc, and points straight at the cursor once its heading is within reach |
| GameManager.MouseStep | js/game-manager.js:443-444 | a positive mouse timer counts down by the frame time, and the mouse stops counting as moving exactly once the timer is no longer positive |
| GameManager.SpreadStep | js/game-manager.js:446-451 | the spread stays in `[0, 20]`; it widens while the turret or mouse moves and narrows otherwise, reaching 20 or 0 when the frame is long enough |
| GameManager.SpreadOverTime | js/game-manager.js:446-451 | over a run of frames the spread moves by its rate times the total time within its bounds: fully open after 0.2 s of movement, closed after 1 s of rest |
| GameManager.SpreadWithinCone | js/game-manager.js:494-497 | a shot deviates from the turret by at most three quarters of the spread, so at most 15 degrees, and not at all with the spread closed |
| GameManager.Shot | js/game-manager.js:491-505 | the bullet belongs to the firing tank, starts live with zero live time, 60 units out from the tank along its direction, each component of which lies in `[-1, 1]` |
| GameManager.RemoteShot | js/game-manager.js:194-201 | a bullet built from a fire message is live, has zero live time and keeps the sender's owner id |
| GameManager.RemoteShotIgnoresSpread | js/game-manager.js:457-467 | the other side rebuilds the shot as if the spread were closed, so it matches the local bullet whenever the local deviation is zero |
| GameManager.HitsWithinRadius | js/game-manager.js:534-546 | the hit test is a squared offset below 900 on a live tank that does not own the bullet |
| GameManager.Collide | js/game-manager.js:532-556 | a hit is reported exactly when the bullet hits the player or the enemy; the player is tested first and takes 0.1 damage; the enemy is damaged only in single-player; a hit marks the bullet destroyed; a miss changes nothing; the owner is never damaged |
| GameManager.BulletFrame | js/game-manager.js:512-529 | one pass keeps the bullets before `i`; it either keeps bullet `i` live and the rest as they were, or splices it out and shifts the rest down |
| GameManager.SweepSound | js/game-manager.js:511-530 | after `updateBullets` no bullet is added, every remaining bullet is live, in multiplayer the enemy is never damaged locally, and the enemy keeps existing or not, and the player's id is kept |
| GameManager.OwnBulletsSparePlayer | js/game-manager.js:534 | bullets all owned by the player never change the player's tank |
| GameManager.VisibleWithinRadius | js/game-manager.js:302-314 | the enemy is visible exactly when it exists and its squared distance is below `420 * 420` |
| GameManager.CameraAxis | js/game-manager.js:404-416 | the camera stays inside the world, and is centred on the player whenever that fits |
| GameManager.PlayerOnScreen | js/game-manager.js:404-416 | a player inside the world is always inside the camera's view |
| GameManager.ThrottleStep | js/game-manager.js:275-279 | a send happens exactly when the timer reaches 0.1 and resets it; otherwise the timer grows by the frame time; the timer stays in `[0, 0.1)` |
| GameManager.SeventhFrameSends | js/game-manager.js:207-279 | at the fixed 0.016 s frame six frames stay below the interval and the seventh sends, so updates go out every 0.112 s rather than every 0.1 s |
| GameManager.ThrottledSplit | js/game-manager.js:275-279 | a run of frames splits into two shorter runs |
| GameManager.SendRate | js/game-manager.js:207-279 | from a reset timer `7 * q` frames send exactly `q` times and end on a reset timer |
| GameManager.OutcomeNow | js/game-manager.js:361-369 | nothing once an outcome was shown; otherwise defeat when the player is destroyed, else victory exactly when the enemy exists and is destroyed |
| GameManager.Steer | js/game-manager.js:424-434 | only the hull and the position change; each turn key turns the hull by `45 * delta`, both or neither cancel, and without drive keys the tank stays put |
| GameManager.HullAngleIsNotWrapped | js/game-manager.js:425 | the hull angle is never wrapped: turning left from 0 makes it negative |
| GameManager.Maneuvered | js/game-manager.js:424-451 | steering, aiming and the spread change the tank only as steering does, apart from its turret angle |
| GameManager.PilotStepSound | js/game-manager.js:418-472 | a player frame keeps the spread in `[0, 20]` and the turret in `[0, 360)`, turns the turret at most `45 * delta`, leaves a destroyed player as it was, fires exactly when a live tank's fire key is down and its gun is loaded (sending the shot exactly in multiplayer), restarts the reload on a shot, and keeps a live tank inside the world |
| GameManager.ManeuveredInRange | js/game-manager.js:424-451 | steering, aiming and the spread keep the pilot in range, turn the turret at most `45 * delta`, and leave the reload timer and the settings alone |
| GameManager.Interpolate | js/game-manager.js:320-359 | the first call only copies the live values into the targets; later calls keep the targets and change only position and angles |
| GameManager.InterpolateAtFrameTime | js/game-manager.js:320-359 | at the fixed frame time the position moves 0.128 of the way to its target, so lands between the two, and the angles stay in `[0, 360)` |
| GameManager.Glide | js/game-manager.js:320-359 | the in-place interpolation of the enemy tank matches its specification and keeps the tank's id |
| GameManager.Meet | js/game-manager.js:160-180 | the first accepted message builds the enemy's tank, with its id and angles in `[0, 360)`, or none when the constructor throws, as the receive rule says |
| GameManager.WriteMessage | js/game-manager.js:184-191 | the in-place writes of the present fields match their specification and keep the id |
| GameManager.TurnTurret | js/game-manager.js:475-487 | the turret turns in place as the aim rule says and the turn applied is returned; nothing else on the tank changes, and an angle in `[0, 360)` stays there |
| GameManager.Drive | js/game-manager.js:424-434 | the keyboard block updates the tank in place as steering says |
| GameManager.Spreading | js/game-manager.js:443-451 | the mouse timer, the moving flag and the spread are updated as the mouse and spread rules say |
| GameManager.GameManager.constructor | js/game-manager.js:44-153 | `init` assigns the ids, builds the player's tank at the centre with the chosen preset, connects in a room (no enemy yet) and otherwise builds the AI enemy at (0.75, 0.35) of the world; no bullets, no outcome, closed spread and a reset send timer; the manager is valid |
| GameManager.GameManager.HandleRemotePlayerUpdate | js/game-manager.js:155-192 | the manager's name and enemy follow the receive rule, a known enemy tank object is kept, a new one is fresh, and nothing else changes |
| GameManager.GameManager.HandleRemoteFire | js/game-manager.js:194-204 | exactly one bullet from the message is appended and nothing else changes |
| GameManager.GameManager.OnPointerMove | js/game-manager.js:87-93 | pointer positions are read against a camera fixed at the origin, the keys are kept, and the mouse counts as moving for 0.1 s |
| GameManager.GameManager.UpdateEnemyVisibility | js/game-manager.js:302-314 | only the visibility flag changes, to whether the enemy exists and is nearer than 420 |
| GameManager.GameManager.InterpolateEnemyTank | js/game-manager.js:320-359 | a remote enemy moves as the interpolation rule says; without one nothing happens |
| GameManager.GameManager.CheckGameOutcome | js/game-manager.js:361-369 | at most one outcome is ever shown: defeat first, then victory, and nothing once one has been shown |
| GameManager.GameManager.ShowOutcome | js/game-manager.js:371-402 | the outcome is recorded as shown |
| GameManager.GameManager.UpdateCamera | js/game-manager.js:404-416 | the camera becomes the clamped centre on the player, and nothing else changes |
| GameManager.GameManager.AimTurretTowards | js/game-manager.js:474-489 | the tank's turret moves as the aim rule says and `isTurretMoving` records whether it turned by more than 0.01 |
| GameManager.GameManager.FireProjectile | js/game-manager.js:491-509 | one bullet from the shot rule is appended and the tank's reload restarts from its cooldown |
| GameManager.GameManager.UpdatePlayerLogic | js/game-manager.js:418-472 | the player's tank and the spread, mouse and turret fields become the player frame, its shot is appended, and its fire message is sent in multiplayer; nothing else changes |
| GameManager.GameManager.Maneuver | js/game-manager.js:424-451 | steering, aiming and the spread update the pilot as the manoeuvre rule says and keep the turret in `[0, 360)` |
| GameManager.GameManager.Trigger | js/game-manager.js:457-469 | with the fire key down and the gun loaded the tank fires, the reload restarts and, in multiplayer, the fire message is sent; otherwise nothing changes |
| GameManager.GameManager.SendShot | js/game-manager.js:459-468 | the fire message carries the turret's own direction, 60 units out |
| GameManager.GameManager.CheckCollision | js/game-manager.js:532-556 | the tanks and the bullet end as the collision rule says |
| GameManager.GameManager.UpdateBullets | js/game-manager.js:511-530 | the downward loop leaves the bullets and tanks as the sweep says, and nothing else changes |
| GameManager.GameManager.UpdateBullet | js/game-manager.js:512-529 | one pass of the loop leaves the bullets and tanks as a single bullet frame says |
| GameManager.GameManager.Settle | js/game-manager.js:517-528 | bullet `i` is spliced out when it hit or expired, and otherwise replaced by its updated state |
| GameManager.GameManager.SyncNetwork | js/game-manager.js:272-294 | in multiplayer the send timer moves as the throttle says and a send passes the player's snapshot to `sendPositionDelta`; in single-player nothing changes |
| GameManager.GameManager.Observe | js/game-manager.js:223-270 | the camera and visibility flag are set as their rules say, and with a canvas context every fog cell takes its value after the update around the player |
| GameManager.GameManager.GameLoop | js/game-manager.js:206-300 | one frame keeps the manager valid; camera, visibility, fog and the send timer end as their rules say, and an outcome is shown once either tank is destroyed and never replaced |
| GameManager.GameManager.Advance | js/game-manager.js:209-221 | the player's frame, the enemy's interpolation and the bullets keep the manager valid |

## Left out

- Rendering is not part of this model, because none of it holds game state. That covers `js/renderer.js`, the HUD, overlays, explosion visuals, CSS transforms, the canvas drawing in `renderFog` (`app.js`) and `FogRenderer.draw`.
- The lobby, the Supabase signalling and `js/connection-manager.js` are not part of this model. They are thin forwarders over remote services. The one call the game loop makes through them is sent straight to `NetworkHandler`.
- Audio, page navigation, form submission and the settings-form DOM wiring of `app.js` are not part of this model, because they are user-interface plumbing.
- `localStorage`, `JSON.parse`, `URLSearchParams` and `requestAnimationFrame` are not modelled. Instead:
  - Stored and parsed values arrive as `Stored` and `JsValue` parameters.
  - Frame times are parameters.
  - The multiplayer loop runs at its fixed 0.016 s frame.
- `NetworkHandler.connect` is modelled only as the `hasChannel` flag it sets. `closeRoom`, `closeRoomBeacon` and the debug `fetch` calls do nothing to game state here, because they are I/O.
- `RTCPeerConnection` and `RTCDataChannel` are abstract. A peer is a flag saying whether it has a remote description, plus the log of the candidates it applied. The async/await interleaving is not modelled: each handler runs to completion.
- Floating point: reals stand for doubles. So the model has no rounding, no infinities and no NaN.
  - In particular, the source gives NaN when the first remote message carries `x` but not `y`, because `targetY` stays `undefined`. There the model keeps the live `y`.
  - A settings value that is `NaN` or infinite is the single value `NonFinite`, which sanitisation treats as missing.
- `Math.sqrt`, `Math.hypot`, trigonometry and `Math.atan2` are functions about which only sign and range facts are known. So no lemma states an exact direction or distance.
- `Math.random` draws are inputs. The model says nothing about their distribution.
- GameManager.GameManager.constructor, Core.InitialTank, Core.ZeroHealthStartsFull and Core.TankCore.constructor require a preset id that has a preset. For an unknown id the source's `TankCore` constructor throws, and these members do not model the throw. The one call site that can meet an unknown id from outside, the first remote message, is modelled with the throw: GameManager.Receive leaves no enemy tank then.
- GameManager.GameManager.SyncNetwork and GameManager.GameManager.GameLoop do not model the `TypeError` that the source raises at the first throttled send in multiplayer, where `ConnectionManager` has no `sendPositionDelta` (js/game-manager.js:282). In the source that exception ends the frame before `checkGameOutcome` and before `requestAnimationFrame` schedules the next frame, so the multiplayer loop stops. The model instead performs the send through `NetworkHandler` and finishes the frame.
- The single-player camera is not part of this model. `AppGame.PlayerPhase`, `AppGame.StepSpec` and `AppBattle.Battle.Step` take the aim point as an input `pointer`. The source derives it from the viewport pointer plus the camera and clamps it to the world (app.js:593-596). So no contract relies on the aim point lying inside the world.
- `resetInputState` is not captured. On either mission outcome it releases every held key (app.js:743-748, 1186, 1206). In the model the keys are a per-frame input, so a caller may keep passing held keys after a win or a defeat.
- Input.LowerChar and Input.Lower lower only ASCII A–Z, while JavaScript's `toLowerCase` uses full Unicode case mapping: it also lowers letters such as `É`, and it can change a string's length (`İ` lowers to two code units). Unicode case mapping is not modelled because `isInteractiveTarget`, the only user, compares the result with the ASCII names `input`, `textarea`, `select` and `button`. A tag name holding a non-ASCII letter can match none of these under either mapping.
- `updateAILogic` in `js/game-manager.js` has an empty body, so the multiplayer loop models it as doing nothing.
- GameManager.GameManager.Advance: its contract states only that the manager stays valid. The player's frame, the interpolation and the bullet sweep it runs are specified by `UpdatePlayerLogic`, `InterpolateEnemyTank` and `UpdateBullets`.
- GameManager.GameManager.GameLoop: its contract does not compose the player, interpolation and bullet steps into one formula. It states the camera, visibility, fog, send timer and outcome after the frame, with that frame's final tank states.
- GameManager keeps its bullets as values, so aliasing between a `BulletCore` in the list and any other reference to it is not captured.
- The `setTimeout` that `showOutcome` starts to end the match and leave the room is not modelled, because it is a timer and I/O. Nor is the overlay text it builds.
