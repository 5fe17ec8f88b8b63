/** Keyboard and pointer state of js/input.js. */
module Input {
  import opened Wrappers

  /** The five flags of `keyState`. */
  datatype KeyState = KeyState(forward: bool, backward: bool, turnLeft: bool, turnRight: bool, firing: bool)

  datatype Control = Forward | Backward | TurnLeft | TurnRight | Firing

  function Get(k: KeyState, c: Control): bool {
    match c
    case Forward => k.forward
    case Backward => k.backward
    case TurnLeft => k.turnLeft
    case TurnRight => k.turnRight
    case Firing => k.firing
  }

  function Set(k: KeyState, c: Control, v: bool): (r: KeyState)
    ensures Get(r, c) == v
    ensures forall c' :: c' != c ==> Get(r, c') == Get(k, c')
  {
    match c
    case Forward => k.(forward := v)
    case Backward => k.(backward := v)
    case TurnLeft => k.(turnLeft := v)
    case TurnRight => k.(turnRight := v)
    case Firing => k.(firing := v)
  }

  /** The `switch` of `handleKey`: arrows and WASD steer, Space fires, other codes are ignored. */
  function ControlFor(code: string): (c: Option<Control>)
    ensures c == Some(Forward) <==> code == "ArrowUp" || code == "KeyW"
    ensures c == Some(Backward) <==> code == "ArrowDown" || code == "KeyS"
    ensures c == Some(TurnLeft) <==> code == "ArrowLeft" || code == "KeyA"
    ensures c == Some(TurnRight) <==> code == "ArrowRight" || code == "KeyD"
    ensures c == Some(Firing) <==> code == "Space"
  {
    if code == "ArrowUp" || code == "KeyW" then Some(Forward)
    else if code == "ArrowDown" || code == "KeyS" then Some(Backward)
    else if code == "ArrowLeft" || code == "KeyA" then Some(TurnLeft)
    else if code == "ArrowRight" || code == "KeyD" then Some(TurnRight)
    else if code == "Space" then Some(Firing)
    else None
  }

  /** The element an event was dispatched to; `tagName` may be missing. */
  datatype Target = Target(tagName: Option<string>, isContentEditable: bool)

  datatype KeyEvent = KeyEvent(code: string, target: Option<Target>)

  /** `String.prototype.toLowerCase` on ASCII letters. */
  function LowerChar(ch: char): (r: char)
    ensures 'A' <= ch <= 'Z' ==> r as int == ch as int + 32
    ensures !('A' <= ch <= 'Z') ==> r == ch
  {
    if 'A' <= ch <= 'Z' then (ch as int + 32) as char else ch
  }

  function Lower(s: string): (r: string)
    ensures |r| == |s|
    ensures forall i :: 0 <= i < |s| ==> r[i] == LowerChar(s[i])
  {
    if s == [] then [] else [LowerChar(s[0])] + Lower(s[1..])
  }

  /** `isInteractiveTarget`: a form control (by lower-cased tag name) or an editable element. */
  function IsInteractiveTarget(t: Option<Target>): (r: bool)
    ensures t.None? ==> !r
    ensures t.Some? ==>
              (r <==> (t.value.tagName.Some? && Lower(t.value.tagName.value) in ["input", "textarea", "select", "button"])
                      || t.value.isContentEditable)
  {
    match t
    case None => false
    case Some(target) =>
      var tagName := if target.tagName.Some? then Lower(target.tagName.value) else "";
      tagName in ["input", "textarea", "select", "button"] || target.isContentEditable
  }

  /** Browsers report tag names in capitals; they are still recognised. */
  lemma UpperCaseTagsAreInteractive()
    ensures IsInteractiveTarget(Some(Target(Some("BUTTON"), false)))
    ensures IsInteractiveTarget(Some(Target(Some("Input"), false)))
  {
    LowerIs("BUTTON", "button");
    LowerIs("Input", "input");
  }

  /** A canvas, or an element without a tag name, that is not editable is not a form
      control. */
  lemma CanvasIsNotInteractive()
    ensures !IsInteractiveTarget(Some(Target(Some("CANVAS"), false)))
    ensures !IsInteractiveTarget(Some(Target(None, false)))
  {
    LowerIs("CANVAS", "canvas");
    assert "canvas"[0] !in ['i', 't', 's', 'b'];
  }

  /** A string lower-cases to `t` when each of its characters lower-cases to the matching
      character of `t`. */
  lemma LowerIs(s: string, t: string)
    requires |s| == |t| && forall i :: 0 <= i < |s| ==> LowerChar(s[i]) == t[i]
    ensures Lower(s) == t
  {
  }

  /** The effect of one key event on `keyState`, and whether it calls `preventDefault`. */
  function KeyStep(k: KeyState, e: KeyEvent, isPressed: bool): (r: (KeyState, bool))
    ensures IsInteractiveTarget(e.target) ==> r == (k, false)
    ensures !IsInteractiveTarget(e.target) ==> (r.1 <==> ControlFor(e.code).Some?)
    ensures forall c :: Get(r.0, c) ==
              if !IsInteractiveTarget(e.target) && ControlFor(e.code) == Some(c) then isPressed else Get(k, c)
  {
    if IsInteractiveTarget(e.target) then (k, false)
    else match ControlFor(e.code)
      case None => (k, false)
      case Some(c) => (Set(k, c, isPressed), true)
  }

  /** Every event changes at most one flag. */
  lemma AtMostOneFlagChanges(k: KeyState, e: KeyEvent, isPressed: bool, c1: Control, c2: Control)
    requires Get(KeyStep(k, e, isPressed).0, c1) != Get(k, c1)
    requires Get(KeyStep(k, e, isPressed).0, c2) != Get(k, c2)
    ensures c1 == c2
  {
  }

  /** A press followed by a release of the same key leaves its flag cleared and the others as
      they were before the press. */
  lemma {:induction false} PressThenRelease(k: KeyState, e: KeyEvent)
    requires !IsInteractiveTarget(e.target) && ControlFor(e.code).Some?
    ensures var after := KeyStep(KeyStep(k, e, true).0, e, false).0;
            !Get(after, ControlFor(e.code).value) &&
            forall c :: c != ControlFor(e.code).value ==> Get(after, c) == Get(k, c)
  {
    var c0 := ControlFor(e.code).value;
    var mid := KeyStep(k, e, true).0;
    var after := KeyStep(mid, e, false).0;
    forall c | c != c0 ensures Get(after, c) == Get(k, c) {
      assert Get(after, c) == Get(mid, c);
    }
  }

  datatype PointerState = PointerState(viewportX: real, viewportY: real, worldX: real, worldY: real)

  datatype Point = Point(x: real, y: real)

  class InputHandler {
    var keyState: KeyState
    var pointerState: PointerState

    constructor ()
      ensures keyState == KeyState(false, false, false, false, false)
      ensures pointerState == PointerState(0.0, 0.0, 0.0, 0.0)
    {
      keyState := KeyState(false, false, false, false, false);
      pointerState := PointerState(0.0, 0.0, 0.0, 0.0);
    }

    /** `handleKey`; `prevented` reports the call to `event.preventDefault()`. */
    method HandleKey(event: KeyEvent, isPressed: bool) returns (prevented: bool)
      modifies this
      ensures (keyState, prevented) == KeyStep(old(keyState), event, isPressed)
      ensures pointerState == old(pointerState)
    {
      prevented := false;
      if IsInteractiveTarget(event.target) {
        return;
      }
      var code := event.code;
      if code == "ArrowUp" || code == "KeyW" {
        keyState := keyState.(forward := isPressed);
        prevented := true;
      } else if code == "ArrowDown" || code == "KeyS" {
        keyState := keyState.(backward := isPressed);
        prevented := true;
      } else if code == "ArrowLeft" || code == "KeyA" {
        keyState := keyState.(turnLeft := isPressed);
        prevented := true;
      } else if code == "ArrowRight" || code == "KeyD" {
        keyState := keyState.(turnRight := isPressed);
        prevented := true;
      } else if code == "Space" {
        keyState := keyState.(firing := isPressed);
        prevented := true;
      }
    }

    /** `updatePointer`: viewport coordinates are relative to the playfield's box, world
        coordinates add the camera offset. */
    method UpdatePointer(client: Point, rectOrigin: Point, camera: Point)
      modifies this
      ensures pointerState.viewportX == client.x - rectOrigin.x
      ensures pointerState.viewportY == client.y - rectOrigin.y
      ensures pointerState.worldX - pointerState.viewportX == camera.x
      ensures pointerState.worldY - pointerState.viewportY == camera.y
      ensures keyState == old(keyState)
    {
      var vx := client.x - rectOrigin.x;
      var vy := client.y - rectOrigin.y;
      pointerState := PointerState(vx, vy, vx + camera.x, vy + camera.y);
    }
  }
}
