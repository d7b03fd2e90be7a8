/** Keyboard events turned into the per-frame intent record. */
module Input {

  /** The intent snapshot: two axes in {-1, 0, 1} and three switches. */
  datatype GameInput = GameInput(moveX: int, moveY: int, boosting: bool, warping: bool, shooting: bool)

  /** A key going down (`down`) or coming up, identified by its physical key code. */
  datatype KeyEvent = KeyEvent(code: string, down: bool)

  const Idle := GameInput(0, 0, false, false, false)

  ghost predicate AxesInRange(input: GameInput) {
    -1 <= input.moveX <= 1 && -1 <= input.moveY <= 1
  }

  predicate IsLeft(code: string) { code == "ArrowLeft" || code == "KeyA" }
  predicate IsRight(code: string) { code == "ArrowRight" || code == "KeyD" }
  predicate IsUp(code: string) { code == "ArrowUp" || code == "KeyW" }
  predicate IsDown(code: string) { code == "ArrowDown" || code == "KeyS" }
  predicate IsHorizontal(code: string) { IsLeft(code) || IsRight(code) }
  predicate IsVertical(code: string) { IsUp(code) || IsDown(code) }

  /** The codes the game reacts to; every other key is ignored. */
  predicate IsBound(code: string) {
    IsHorizontal(code) || IsVertical(code) || code in {"ShiftLeft", "Space", "Tab"}
  }

  /** The value an axis takes after event `e` on one of its keys: the pressed
      direction on key-down and 0 on key-up, whichever key is still held. */
  function AxisValue(e: KeyEvent): (r: int)
    ensures -1 <= r <= 1
    ensures !e.down ==> r == 0
    ensures e.down && (IsLeft(e.code) || IsDown(e.code)) ==> r == -1
    ensures e.down && (IsRight(e.code) || IsUp(e.code)) ==> r == 1
  {
    if !e.down then 0
    else if IsLeft(e.code) || IsDown(e.code) then -1
    else if IsRight(e.code) || IsUp(e.code) then 1
    else 0
  }

  /** The intent record after one key event. */
  function Apply(input: GameInput, e: KeyEvent): (r: GameInput)
    ensures AxesInRange(input) ==> AxesInRange(r)
    ensures !IsBound(e.code) ==> r == input
    ensures r.moveX == if IsHorizontal(e.code) then AxisValue(e) else input.moveX
    ensures r.moveY == if IsVertical(e.code) then AxisValue(e) else input.moveY
    ensures r.boosting == if e.code == "ShiftLeft" then e.down else input.boosting
    ensures r.shooting == if e.code == "Space" then e.down else input.shooting
    ensures r.warping == if e.code == "Tab" then e.down else input.warping
  {
    var code, isKeyDown := e.code, e.down;
    if code == "ArrowLeft" || code == "KeyA" then input.(moveX := if isKeyDown then -1 else 0)
    else if code == "ArrowRight" || code == "KeyD" then input.(moveX := if isKeyDown then 1 else 0)
    else if code == "ArrowUp" || code == "KeyW" then input.(moveY := if isKeyDown then 1 else 0)
    else if code == "ArrowDown" || code == "KeyS" then input.(moveY := if isKeyDown then -1 else 0)
    else if code == "ShiftLeft" then input.(boosting := isKeyDown)
    else if code == "Space" then input.(shooting := isKeyDown)
    else if code == "Tab" then input.(warping := isKeyDown)
    else input
  }

  /** The intent record after a whole run of events, oldest first. */
  function Replay(input: GameInput, events: seq<KeyEvent>): GameInput
    decreases |events|
  {
    if events == [] then input
    else Apply(Replay(input, events[..|events| - 1]), events[|events| - 1])
  }

  /** The set of held keys after a run of events. */
  function HeldAfter(keys: set<string>, events: seq<KeyEvent>): set<string>
    decreases |events|
  {
    if events == [] then keys
    else
      var e := events[|events| - 1];
      var before := HeldAfter(keys, events[..|events| - 1]);
      if e.down then before + {e.code} else before - {e.code}
  }

  /** Last press wins: the horizontal axis is decided by the latest event on a
      horizontal key alone, and likewise for the vertical axis. */
  lemma {:induction false} AxesFollowLastEvent(input: GameInput, events: seq<KeyEvent>, k: nat)
    requires k < |events|
    ensures IsHorizontal(events[k].code) && (forall j :: k < j < |events| ==> !IsHorizontal(events[j].code))
      ==> Replay(input, events).moveX == AxisValue(events[k])
    ensures IsVertical(events[k].code) && (forall j :: k < j < |events| ==> !IsVertical(events[j].code))
      ==> Replay(input, events).moveY == AxisValue(events[k])
    decreases |events|
  {
    if k < |events| - 1 {
      var prefix := events[..|events| - 1];
      assert forall j :: k < j < |prefix| ==> prefix[j] == events[j];
      AxesFollowLastEvent(input, prefix, k);
    }
  }

  /** Every reachable intent record keeps both axes in {-1, 0, 1}. */
  lemma {:induction false} ReplayKeepsAxes(events: seq<KeyEvent>)
    ensures AxesInRange(Replay(Idle, events))
    decreases |events|
  {
    if events != [] {
      ReplayKeepsAxes(events[..|events| - 1]);
    }
  }

  /** Releasing one horizontal key zeroes the axis even while the opposite key is
      still held down. */
  lemma ReleaseIgnoresHeldKey(input: GameInput, keys: set<string>)
    ensures var events := [KeyEvent("KeyA", true), KeyEvent("KeyD", true), KeyEvent("KeyA", false)];
      "KeyD" in HeldAfter(keys, events) && Replay(input, events).moveX == 0
  {
    var events := [KeyEvent("KeyA", true), KeyEvent("KeyD", true), KeyEvent("KeyA", false)];
    assert events[..2][..1] == [events[0]];
    assert events[..2] == [events[0], events[1]];
  }

  class InputManager {
    var keys: set<string>
    var input: GameInput

    ghost predicate Valid()
      reads this
    {
      AxesInRange(input)
    }

    constructor ()
      ensures Valid()
      ensures keys == {} && input == Idle
    {
      keys := {};
      input := Idle;
    }

    method HandleKeyDown(code: string)
      requires Valid()
      modifies this
      ensures Valid()
      ensures keys == old(keys) + {code}
      ensures input == Apply(old(input), KeyEvent(code, true))
    {
      keys := keys + {code};
      UpdateInputState(code, true);
    }

    method HandleKeyUp(code: string)
      requires Valid()
      modifies this
      ensures Valid()
      ensures keys == old(keys) - {code}
      ensures input == Apply(old(input), KeyEvent(code, false))
    {
      keys := keys - {code};
      UpdateInputState(code, false);
    }

    method UpdateInputState(code: string, isKeyDown: bool)
      requires Valid()
      modifies this`input
      ensures Valid()
      ensures input == Apply(old(input), KeyEvent(code, isKeyDown))
    {
      if code == "ArrowLeft" || code == "KeyA" {
        input := input.(moveX := if isKeyDown then -1 else 0);
      } else if code == "ArrowRight" || code == "KeyD" {
        input := input.(moveX := if isKeyDown then 1 else 0);
      } else if code == "ArrowUp" || code == "KeyW" {
        input := input.(moveY := if isKeyDown then 1 else 0);
      } else if code == "ArrowDown" || code == "KeyS" {
        input := input.(moveY := if isKeyDown then -1 else 0);
      } else if code == "ShiftLeft" {
        input := input.(boosting := isKeyDown);
      } else if code == "Space" {
        input := input.(shooting := isKeyDown);
      } else if code == "Tab" {
        input := input.(warping := isKeyDown);
      }
    }

    /** A snapshot of the intent record. GameInput is a value, so what the caller
        does with the snapshot cannot reach the manager's own record. */
    method GetInput() returns (r: GameInput)
      ensures r == input
    {
      return input;
    }
  }

  /** The sequence of the WASD test: presses on both keys of an axis, then releases
      of all four, leave both axes at rest. */
  method WasdScenario()
  {
    var m := new InputManager();
    m.HandleKeyDown("KeyW");
    var i := m.GetInput();
    assert i.moveY == 1;
    m.HandleKeyDown("KeyS");
    i := m.GetInput();
    assert i.moveY == -1;
    m.HandleKeyDown("KeyA");
    m.HandleKeyDown("KeyD");
    i := m.GetInput();
    assert i.moveX == 1;
    m.HandleKeyUp("KeyW");
    m.HandleKeyUp("KeyS");
    m.HandleKeyUp("KeyA");
    m.HandleKeyUp("KeyD");
    i := m.GetInput();
    assert i.moveX == 0 && i.moveY == 0;
  }
}
