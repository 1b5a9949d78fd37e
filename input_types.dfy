/**
 * The input vocabulary, which the input crate and the application's `core`
 * module declare identically: button states, buttons, the mouse position
 * and the events the window feeds in. `f64` and `f32` coordinates are
 * reals.
 */
module InputTypes {
  newtype u16 = x: int | 0 <= x < 0x1_0000

  datatype ButtonState = Pressed | Released

  /** `MouseButton`. */
  datatype MouseButtonId = Left | Right | Middle | Other(code: u16)

  datatype Key = Shift

  /** `MousePosition` (the `Default` is the origin). */
  datatype Position = Position(x: real, y: real)

  /** `MouseDelta`. */
  datatype Delta = Delta(x: real, y: real)

  datatype MouseButtonState = MouseButtonState(state: ButtonState, button: MouseButtonId)

  datatype KeyState = KeyState(state: ButtonState, button: Key)

  datatype ScrollInfo = ScrollInfo(deltaX: real, deltaY: real)

  datatype InputEvent =
    | MousePosition(pos: Position)
    | MouseMove(delta: Delta)
    | MouseButton(mouse: MouseButtonState)
    | Button(key: KeyState)
    | Scroll(scroll: ScrollInfo)

  /** The `MouseMove` a new cursor position implies: the offset from the stored one. */
  function MoveTo(stored: Position, pos: Position): (e: InputEvent)
    ensures e.MouseMove?
    ensures stored.x + e.delta.x == pos.x && stored.y + e.delta.y == pos.y
  {
    MouseMove(Delta(pos.x - stored.x, pos.y - stored.y))
  }

  /** A button the map has no state for reads as released. */
  function StateOf<B>(buttons: map<B, ButtonState>, b: B): (s: ButtonState)
    ensures b !in buttons ==> s == Released
    ensures b in buttons ==> s == buttons[b]
  {
    if b in buttons then buttons[b] else Released
  }
}
