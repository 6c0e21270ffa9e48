/**
 * `library::MainWindow` input handling (Source/Library/Window/MainWindow.cpp): six direction
 * flags driven by key-down and key-up messages, and a mouse delta that raw input overwrites
 * and the game loop resets.
 */
module Window {
  import opened Common

  /** The six movement flags the camera reads each frame. */
  datatype Directions = Directions(front: bool, left: bool, back: bool, right: bool, up: bool, down: bool)

  /** The mouse movement of the last raw mouse event, in the device's own units. */
  datatype MouseRelativeMovement = MouseRelativeMovement(x: int32, y: int32)

  datatype Direction = Front | Left | Back | Right | Up | Down

  function Flag(d: Directions, dir: Direction): bool
  {
    match dir
    case Front => d.front
    case Left => d.left
    case Back => d.back
    case Right => d.right
    case Up => d.up
    case Down => d.down
  }

  /** `d` with the one flag `dir` set to `value`. */
  function WithFlag(d: Directions, dir: Direction, value: bool): (r: Directions)
    ensures Flag(r, dir) == value
    ensures forall other :: other != dir ==> Flag(r, other) == Flag(d, other)
  {
    Directions(if dir == Front then value else d.front, if dir == Left then value else d.left,
               if dir == Back then value else d.back, if dir == Right then value else d.right,
               if dir == Up then value else d.up, if dir == Down then value else d.down)
  }

  const VK_SHIFT: nat := 0x10
  const VK_SPACE: nat := 0x20
  /** The virtual-key codes of the letter keys W, A, S and D are their upper-case ASCII codes. */
  const VK_W: nat := 0x57
  const VK_A: nat := 0x41
  const VK_S: nat := 0x53
  const VK_D: nat := 0x44

  /** The key bindings: Space up, Shift down, W front, A left, S back, D right; no other key. */
  function KeyBinding(virtualKey: nat): (r: Option<Direction>)
    ensures r == Some(Up) <==> virtualKey == VK_SPACE
    ensures r == Some(Down) <==> virtualKey == VK_SHIFT
    ensures r == Some(Front) <==> virtualKey == VK_W
    ensures r == Some(Left) <==> virtualKey == VK_A
    ensures r == Some(Back) <==> virtualKey == VK_S
    ensures r == Some(Right) <==> virtualKey == VK_D
    ensures r == None <==> virtualKey !in {VK_SPACE, VK_SHIFT, VK_W, VK_A, VK_S, VK_D}
  {
    if virtualKey == VK_SPACE then Some(Up)
    else if virtualKey == VK_SHIFT then Some(Down)
    else if virtualKey == VK_W then Some(Front)
    else if virtualKey == VK_A then Some(Left)
    else if virtualKey == VK_S then Some(Back)
    else if virtualKey == VK_D then Some(Right)
    else None
  }

  /** The flags after a WM_KEYDOWN (`pressed`) or WM_KEYUP (`!pressed`) of this key. */
  function KeyEvent(d: Directions, virtualKey: nat, pressed: bool): (r: Directions)
    ensures KeyBinding(virtualKey).Some? ==>
              Flag(r, KeyBinding(virtualKey).value) == pressed
              && forall other :: other != KeyBinding(virtualKey).value ==> Flag(r, other) == Flag(d, other)
    ensures KeyBinding(virtualKey).None? ==> r == d
  {
    match KeyBinding(virtualKey)
    case Some(dir) => WithFlag(d, dir, pressed)
    case None => d
  }

  /** Raw input of this type comes from a mouse (`RIM_TYPEMOUSE`). */
  const RIM_TYPEMOUSE: nat := 0

  /** What `GetRawInputData` delivers for one WM_INPUT: the device type and the last deltas. */
  datatype RawInput = RawInput(deviceType: nat, lastX: int32, lastY: int32)

  /** A mouse event replaces the stored movement with its own deltas; other devices leave it. */
  function MouseAfterInput(m: MouseRelativeMovement, raw: RawInput): (r: MouseRelativeMovement)
    ensures raw.deviceType == RIM_TYPEMOUSE ==> r.x == raw.lastX && r.y == raw.lastY
    ensures raw.deviceType != RIM_TYPEMOUSE ==> r == m
  {
    if raw.deviceType == RIM_TYPEMOUSE then MouseRelativeMovement(raw.lastX, raw.lastY) else m
  }

  const WM_DESTROY: nat := 0x0002
  const WM_CLOSE: nat := 0x0010
  const WM_QUIT: nat := 0x0012
  const WM_INPUT: nat := 0x00FF
  const WM_KEYDOWN: nat := 0x0100
  const WM_KEYUP: nat := 0x0101

  /** The direction flags after a message has been handled. */
  function DirectionsAfter(d: Directions, message: nat, wParam: nat): Directions
  {
    if message == WM_KEYDOWN then KeyEvent(d, wParam, true)
    else if message == WM_KEYUP then KeyEvent(d, wParam, false)
    else d
  }

  /**
   * The value `HandleMessage` returns: E_FAIL when raw-input registration failed; 0 for
   * WM_INPUT and for every key message, bound or not; TRUE for WM_CLOSE and WM_DESTROY; and
   * the default window procedure's answer for anything else.
   */
  function MessageResult(rawInputRegistered: bool, message: nat, defaultResult: int): (r: int)
    ensures !rawInputRegistered ==> r == E_FAIL as int
    ensures rawInputRegistered && message in {WM_INPUT, WM_KEYDOWN, WM_KEYUP} ==> r == 0
    ensures rawInputRegistered && message in {WM_CLOSE, WM_DESTROY} ==> r == 1
    ensures rawInputRegistered && message !in {WM_INPUT, WM_KEYDOWN, WM_KEYUP, WM_CLOSE, WM_DESTROY} ==> r == defaultResult
  {
    if !rawInputRegistered then E_FAIL as int
    else if message == WM_INPUT || message == WM_KEYDOWN || message == WM_KEYUP then 0
    else if message == WM_CLOSE || message == WM_DESTROY then 1
    else defaultResult
  }

  class MainWindow {
    var directions: Directions
    var mouseRelativeMovement: MouseRelativeMovement

    /** The initial input state is an argument: the header that initializes it is not part of this model. */
    constructor(directions: Directions, mouseRelativeMovement: MouseRelativeMovement)
      ensures this.directions == directions && this.mouseRelativeMovement == mouseRelativeMovement
    {
      this.directions := directions;
      this.mouseRelativeMovement := mouseRelativeMovement;
    }

    /** The current direction flags, as stored. */
    function GetDirections(): (d: Directions)
      reads this
      ensures d == directions
    {
      directions
    }

    /** The current mouse movement, as stored. */
    function GetMouseRelativeMovement(): (m: MouseRelativeMovement)
      reads this
      ensures m == mouseRelativeMovement
    {
      mouseRelativeMovement
    }

    /**
     * One message. `rawInputRegistered` is the outcome of `RegisterRawInputDevices`, which runs
     * first on every message; `raw` is what `GetRawInputData` reads for a WM_INPUT; and
     * `defaultResult` is what `DefWindowProc` would answer.
     */
    method HandleMessage(rawInputRegistered: bool, message: nat, wParam: nat, raw: RawInput, defaultResult: int)
      returns (result: int)
      modifies this
      ensures result == MessageResult(rawInputRegistered, message, defaultResult)
      ensures GetDirections() == if rawInputRegistered then DirectionsAfter(old(GetDirections()), message, wParam)
                                 else old(GetDirections())
      ensures GetMouseRelativeMovement() == if rawInputRegistered && message == WM_INPUT
                                            then MouseAfterInput(old(GetMouseRelativeMovement()), raw)
                                            else old(GetMouseRelativeMovement())
    {
      if !rawInputRegistered {
        return E_FAIL as int;
      }
      if message == WM_CLOSE {
      } else if message == WM_DESTROY {
      } else if message == WM_INPUT {
        if raw.deviceType == RIM_TYPEMOUSE {
          mouseRelativeMovement := MouseRelativeMovement(raw.lastX, raw.lastY);
        }
        return 0;
      } else if message == WM_KEYDOWN {
        if wParam == VK_SPACE {
          directions := directions.(up := true);
        } else if wParam == VK_SHIFT {
          directions := directions.(down := true);
        } else if wParam == VK_W {
          directions := directions.(front := true);
        } else if wParam == VK_A {
          directions := directions.(left := true);
        } else if wParam == VK_S {
          directions := directions.(back := true);
        } else if wParam == VK_D {
          directions := directions.(right := true);
        }
        return 0;
      } else if message == WM_KEYUP {
        if wParam == VK_SPACE {
          directions := directions.(up := false);
        } else if wParam == VK_SHIFT {
          directions := directions.(down := false);
        } else if wParam == VK_W {
          directions := directions.(front := false);
        } else if wParam == VK_A {
          directions := directions.(left := false);
        } else if wParam == VK_S {
          directions := directions.(back := false);
        } else if wParam == VK_D {
          directions := directions.(right := false);
        }
        return 0;
      } else {
        return defaultResult;
      }
      return 1;
    }

    /** Zeroes the mouse movement; the direction flags are kept. */
    method ResetMouseMovement()
      modifies this
      ensures GetMouseRelativeMovement() == MouseRelativeMovement(0, 0)
      ensures GetDirections() == old(GetDirections())
    {
      mouseRelativeMovement := MouseRelativeMovement(0, 0);
    }
  }

  /** Setting one flag twice keeps only the second value. */
  lemma WithFlagTwice(d: Directions, dir: Direction, first: bool, second: bool)
    ensures WithFlag(WithFlag(d, dir, first), dir, second) == WithFlag(d, dir, second)
  {
    match dir
    case Front =>
    case Left =>
    case Back =>
    case Right =>
    case Up =>
    case Down =>
  }

  /** Pressing a key that is already down changes nothing more. */
  lemma KeyDownIdempotent(d: Directions, virtualKey: nat)
    ensures KeyEvent(KeyEvent(d, virtualKey, true), virtualKey, true) == KeyEvent(d, virtualKey, true)
  {
    if KeyBinding(virtualKey).Some? {
      WithFlagTwice(d, KeyBinding(virtualKey).value, true, true);
    }
  }

  /** Down then up leaves the key's flag cleared, and the same flags as a lone key-up. */
  lemma KeyDownThenUp(d: Directions, virtualKey: nat)
    ensures KeyEvent(KeyEvent(d, virtualKey, true), virtualKey, false) == KeyEvent(d, virtualKey, false)
    ensures KeyBinding(virtualKey).Some? ==> !Flag(KeyEvent(KeyEvent(d, virtualKey, true), virtualKey, false), KeyBinding(virtualKey).value)
  {
    if KeyBinding(virtualKey).Some? {
      WithFlagTwice(d, KeyBinding(virtualKey).value, true, false);
    }
  }

  /** Flags set on two different directions commute. */
  lemma WithFlagCommutes(d: Directions, dir1: Direction, v1: bool, dir2: Direction, v2: bool)
    requires dir1 != dir2
    ensures WithFlag(WithFlag(d, dir1, v1), dir2, v2) == WithFlag(WithFlag(d, dir2, v2), dir1, v1)
  {
  }

  /** Key events on keys bound to different directions commute: each key owns its own flag. */
  lemma DistinctKeysCommute(d: Directions, k1: nat, p1: bool, k2: nat, p2: bool)
    requires KeyBinding(k1) != KeyBinding(k2)
    ensures KeyEvent(KeyEvent(d, k1, p1), k2, p2) == KeyEvent(KeyEvent(d, k2, p2), k1, p1)
  {
    if KeyBinding(k1).Some? && KeyBinding(k2).Some? {
      WithFlagCommutes(d, KeyBinding(k1).value, p1, KeyBinding(k2).value, p2);
    }
  }

  /** A mouse event overwrites rather than accumulates: the previous movement is forgotten. */
  lemma MouseOverwrites(m1: MouseRelativeMovement, m2: MouseRelativeMovement, raw: RawInput)
    requires raw.deviceType == RIM_TYPEMOUSE
    ensures MouseAfterInput(m1, raw) == MouseAfterInput(m2, raw)
  {
  }
}
