/** Translation of platform window events into the UI library's input events
    (`convert_event` and `convert_mouse_button`, support/mod.rs lines
    106-225 and 337-349). The window's logical size is passed in as `winW`
    and `winH`; every position and delta in a `RawEvents.Event` is already in
    logical pixels. */
module Translator {
  import opened Wrappers
  import R = RawEvents
  import opened CanonicalInput
  import Keys

  /** Scroll points per wheel line (`ARBITRARY_POINTS_PER_LINE_FACTOR`). */
  const PointsPerLine: real := 10.0

  /** `tx`: a horizontal window coordinate measured from the window centre. */
  function Tx(x: real, winW: real): (r: real)
    ensures r + winW / 2.0 == x
  {
    x - winW / 2.0
  }

  /** `ty`: a vertical window coordinate (downward from the top edge) turned
      into one measured upward from the window centre. The two coordinates
      lie symmetrically about half the window height. */
  function Ty(y: real, winH: real): (r: real)
    ensures (r + y) == winH / 2.0
  {
    -(y - winH / 2.0)
  }

  /** The inverse of `Tx`: back from centre-relative to window coordinates. */
  function UnTx(x: real, winW: real): (r: real)
    ensures Tx(r, winW) == x
  {
    x + winW / 2.0
  }

  /** The characters the translator refuses to surface as text: delete,
      escape, backspace, carriage return, line feed and tab. */
  predicate IsControl(ch: char)
  {
    ch == '\U{7f}' || ch == '\U{1b}' || ch == '\U{8}' || ch == '\r' || ch == '\n' || ch == '\t'
  }

  /** The text produced by one received character. */
  function ConvertText(ch: char): (s: string)
    ensures |s| <= 1
    ensures s == [] <==> IsControl(ch)
    ensures forall i :: 0 <= i < |s| ==> s[i] == ch
  {
    if IsControl(ch) then "" else [ch]
  }

  function ConvertTouchPhase(phase: R.TouchPhase): (p: Phase)
    ensures TouchPhaseOf(p) == phase
  {
    match phase
    case Started => Phase.Start
    case Moved => Phase.Move
    case Cancelled => Phase.Cancel
    case Ended => Phase.End
  }

  /** The platform phase each canonical phase is made from. */
  function TouchPhaseOf(p: Phase): R.TouchPhase
  {
    match p
    case Start => R.Started
    case Move => R.Moved
    case Cancel => R.Cancelled
    case End => R.Ended
  }

  /** The phase translation is onto: every canonical phase is produced. */
  lemma TouchPhaseOnto(p: Phase)
    ensures ConvertTouchPhase(TouchPhaseOf(p)) == p
  {
  }

  /** `convert_mouse_button`: the three main buttons keep their names,
      platform ordinals 0 to 4 become the five auxiliary buttons, and any
      other ordinal is `Unknown`. */
  function ConvertMouseButton(button: R.MouseButton): (m: MouseButton)
    ensures m == MouseButton.Unknown <==> button.Other? && button.ordinal >= 5
    ensures m != MouseButton.Unknown ==> MouseButtonOf(m) == button
  {
    match button
    case Left => MouseButton.Left
    case Right => MouseButton.Right
    case Middle => MouseButton.Middle
    case Other(n) =>
      if n == 0 then X1
      else if n == 1 then X2
      else if n == 2 then Button6
      else if n == 3 then Button7
      else if n == 4 then Button8
      else MouseButton.Unknown
  }

  /** The platform button each named canonical button is made from. */
  function MouseButtonOf(m: MouseButton): R.MouseButton
    requires m != MouseButton.Unknown
  {
    match m
    case Left => R.MouseButton.Left
    case Right => R.MouseButton.Right
    case Middle => R.MouseButton.Middle
    case X1 => R.Other(0)
    case X2 => R.Other(1)
    case Button6 => R.Other(2)
    case Button7 => R.Other(3)
    case Button8 => R.Other(4)
  }

  /** Every named canonical button is produced by some platform button. */
  lemma MouseButtonOnto(m: MouseButton)
    requires m != MouseButton.Unknown
    ensures ConvertMouseButton(MouseButtonOf(m)) == m
  {
  }

  /** A press or a release of `button`, following the platform state. */
  function ButtonInput(state: R.ElementState, button: Button): (i: Input)
    ensures i.Press? || i.Release?
    ensures i.button == button
    ensures i.Press? <==> state.Pressed?
  {
    match state
    case Pressed => Press(button)
    case Released => Release(button)
  }

  /** The events `convert_event` drops: everything that is not a window
      event, window events of kinds it does not handle, and keyboard input
      without a virtual key code. */
  predicate Dropped(e: R.Event)
  {
    !e.WindowEvent?
    || e.event.OtherWindowEvent?
    || (e.event.KeyboardInput? && e.event.virtualKeycode.None?)
  }

  /** `convert_event`, with the key table as written. */
  function ConvertEvent(e: R.Event, winW: real, winH: real): (r: Option<Input>)
    ensures r.None? <==> Dropped(e)
    ensures r.Some? && r.value.Text? ==> |r.value.text| <= 1
    ensures r.Some? && (r.value.Press? || r.value.Release?) && r.value.button.Keyboard? ==>
      r.value.button.key == Key.D0
  {
    match e
    case WindowEvent(event) =>
      (match event
      case Resized(width, height) => Some(Resize(width, height))
      case ReceivedCharacter(ch) => Some(Text(ConvertText(ch)))
      case Focused(focused) => Some(Focus(focused))
      case KeyboardInput(state, code) =>
        (match code
         case Some(key) => Some(ButtonInput(state, Keyboard(Keys.ConvertKey(key))))
         case None => None)
      case Touch(phase, x, y, id) =>
        Some(Input.Touch(Touch.Touch(ConvertTouchPhase(phase), id, Tx(x, winW), Ty(y, winH))))
      case CursorMoved(x, y) =>
        Some(Input.Motion(MouseCursor(Tx(x, winW), Ty(y, winH))))
      case MouseWheel(delta) =>
        (match delta
         case PixelDelta(x, y) => Some(Input.Motion(Scroll(x, -y)))
         case LineDelta(x, y) => Some(Input.Motion(Scroll(PointsPerLine * x, PointsPerLine * -y))))
      case MouseInput(state, button) =>
        Some(ButtonInput(state, Mouse(ConvertMouseButton(button))))
      case OtherWindowEvent => None)
    case _ => None
  }

  /** `convert_event` with the intended key table: it differs from
      `ConvertEvent` only on keyboard input that carries a key code. */
  function ConvertEventIntended(e: R.Event, winW: real, winH: real): (r: Option<Input>)
    ensures r.None? <==> Dropped(e)
    ensures !(e.WindowEvent? && e.event.KeyboardInput?) ==> r == ConvertEvent(e, winW, winH)
  {
    match e
    case WindowEvent(KeyboardInput(state, Some(code))) =>
      Some(ButtonInput(state, Keyboard(Keys.ConvertKeyIntended(code))))
    case _ => ConvertEvent(e, winW, winH)
  }

  // ---------------------------------------------------------------------
  // The coordinate transform

  /** The transform is invertible: `UnTx` undoes `Tx`, and `Ty` undoes
      itself. */
  lemma TransformRoundTrip(x: real, y: real, winW: real, winH: real)
    ensures UnTx(Tx(x, winW), winW) == x
    ensures Ty(Ty(y, winH), winH) == y
  {
  }

  /** The window centre is the canonical origin, and the top-left corner is
      half a window to the left and half a window up. */
  lemma TransformLandmarks(winW: real, winH: real)
    ensures Tx(winW / 2.0, winW) == 0.0 && Ty(winH / 2.0, winH) == 0.0
    ensures Tx(0.0, winW) == -winW / 2.0 && Ty(0.0, winH) == winH / 2.0
  {
  }

  // ---------------------------------------------------------------------
  // convert_event, kind by kind

  lemma ConvertResize(width: real, height: real, winW: real, winH: real)
    ensures ConvertEvent(R.WindowEvent(R.Resized(width, height)), winW, winH)
      == Some(Resize(width, height))
  {
  }

  lemma ConvertFocus(focused: bool, winW: real, winH: real)
    ensures ConvertEvent(R.WindowEvent(R.Focused(focused)), winW, winH) == Some(Focus(focused))
  {
  }

  /** A character becomes a one-character text, or the empty text for the
      six control characters. */
  lemma ConvertCharacter(ch: char, winW: real, winH: real)
    ensures ConvertEvent(R.WindowEvent(R.ReceivedCharacter(ch)), winW, winH)
      == Some(Text(if IsControl(ch) then "" else [ch]))
  {
  }

  /** Keyboard input with a key code becomes a press or release of the
      translated key; without one it is dropped. */
  lemma ConvertKeyboard(state: R.ElementState, code: Option<R.VirtualKeyCode>, winW: real, winH: real)
    ensures code.None? ==> ConvertEvent(R.WindowEvent(R.KeyboardInput(state, code)), winW, winH).None?
    ensures code.Some? && state.Pressed? ==>
      ConvertEvent(R.WindowEvent(R.KeyboardInput(state, code)), winW, winH)
        == Some(Press(Keyboard(Keys.ConvertKey(code.value))))
    ensures code.Some? && state.Released? ==>
      ConvertEvent(R.WindowEvent(R.KeyboardInput(state, code)), winW, winH)
        == Some(Release(Keyboard(Keys.ConvertKey(code.value))))
  {
  }

  /** A touch keeps its identifier, maps its phase one to one, and its
      position can be carried back to window coordinates. */
  lemma ConvertTouch(phase: R.TouchPhase, x: real, y: real, id: nat, winW: real, winH: real)
    ensures var r := ConvertEvent(R.WindowEvent(R.Touch(phase, x, y, id)), winW, winH);
      && r.Some? && r.value.Touch?
      && r.value.touch.id == id
      && TouchPhaseOf(r.value.touch.phase) == phase
      && UnTx(r.value.touch.x, winW) == x && Ty(r.value.touch.y, winH) == y
  {
  }

  /** A cursor position is moved to the centre-origin, y-up space, and can be
      carried back. */
  lemma ConvertCursor(x: real, y: real, winW: real, winH: real)
    ensures var r := ConvertEvent(R.WindowEvent(R.CursorMoved(x, y)), winW, winH);
      && r == Some(Input.Motion(MouseCursor(x - winW / 2.0, winH / 2.0 - y)))
      && UnTx(r.value.motion.x, winW) == x && Ty(r.value.motion.y, winH) == y
  {
  }

  /** Wheel deltas are relative: no origin shift, only the vertical sign
      flips, and line deltas are scaled by ten points per line. */
  lemma ConvertScroll(delta: R.MouseScrollDelta, winW: real, winH: real)
    ensures delta.PixelDelta? ==>
      ConvertEvent(R.WindowEvent(R.MouseWheel(delta)), winW, winH)
        == Some(Input.Motion(Scroll(delta.x, -delta.y)))
    ensures delta.LineDelta? ==>
      ConvertEvent(R.WindowEvent(R.MouseWheel(delta)), winW, winH)
        == Some(Input.Motion(Scroll(10.0 * delta.x, -10.0 * delta.y)))
  {
  }

  lemma ConvertMouse(state: R.ElementState, button: R.MouseButton, winW: real, winH: real)
    ensures ConvertEvent(R.WindowEvent(R.MouseInput(state, button)), winW, winH)
      == Some(ButtonInput(state, Mouse(ConvertMouseButton(button))))
  {
  }

  /** Worked values for an 800 by 600 window: the centre maps to the origin,
      the top-left corner to (-400, 300); a pixel scroll of (0, -5) becomes
      (0, 5) and a line scroll of (1, 1) becomes (10, -10). */
  lemma WorkedExamples()
    ensures ConvertEvent(R.WindowEvent(R.CursorMoved(400.0, 300.0)), 800.0, 600.0)
      == Some(Input.Motion(MouseCursor(0.0, 0.0)))
    ensures ConvertEvent(R.WindowEvent(R.CursorMoved(0.0, 0.0)), 800.0, 600.0)
      == Some(Input.Motion(MouseCursor(-400.0, 300.0)))
    ensures ConvertEvent(R.WindowEvent(R.MouseWheel(R.PixelDelta(0.0, -5.0))), 800.0, 600.0)
      == Some(Input.Motion(Scroll(0.0, 5.0)))
    ensures ConvertEvent(R.WindowEvent(R.MouseWheel(R.LineDelta(1.0, 1.0))), 800.0, 600.0)
      == Some(Input.Motion(Scroll(10.0, -10.0)))
  {
  }
}
