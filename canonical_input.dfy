/** The platform-independent input events of the UI library
    (`conrod_core::event::Input` and the types it carries), limited to the
    variants the translator can produce. Coordinates are centre-origin, y-up. */
module CanonicalInput {

  /** Abstract keys (`conrod_core::input::Key`): every key the translation
      table names, plus `Unknown` for codes it does not map. */
  datatype Key =
    | Unknown
    | D0 | D1 | D2 | D3 | D4 | D5 | D6 | D7 | D8 | D9
    | A | B | C | D | E | F | G | H | I | J | K | L | M
    | N | O | P | Q | R | S | T | U | V | W | X | Y | Z
    | Backslash | Backspace | Delete | Comma | Down | End | Return | Equals | Escape
    | F1 | F2 | F3 | F4 | F5 | F6 | F7 | F8 | F9 | F10 | F11 | F12 | F13 | F14 | F15
    | NumPad0 | NumPad1 | NumPad2 | NumPad3 | NumPad4
    | NumPad5 | NumPad6 | NumPad7 | NumPad8 | NumPad9
    | NumPadDecimal | NumPadDivide | NumPadMultiply | NumPadMinus | NumPadPlus
    | NumPadEnter | NumPadEquals
    | LShift | LCtrl | LAlt | RShift | RCtrl | RAlt
    | Home | Insert | Left | LeftBracket | Minus | NumLockClear
    | PageDown | PageUp | Pause | Period | Right | RightBracket
    | Semicolon | Slash | Space | Tab | Up

  /** Abstract mouse buttons (`conrod_core::input::MouseButton`). */
  datatype MouseButton =
    | Unknown | Left | Right | Middle | X1 | X2 | Button6 | Button7 | Button8

  datatype Button = Keyboard(key: Key) | Mouse(mouse: MouseButton)

  /** The phase of a touch (`conrod_core::input::touch::Phase`). */
  datatype Phase = Start | Move | Cancel | End

  /** One touch sample; `id` identifies the finger and is carried opaquely. */
  datatype Touch = Touch(phase: Phase, id: nat, x: real, y: real)

  /** Absolute cursor position or relative scroll, both in canonical units. */
  datatype Motion = MouseCursor(x: real, y: real) | Scroll(x: real, y: real)

  datatype Input =
    | Press(button: Button)
    | Release(button: Button)
    | Resize(width: real, height: real)
    | Touch(touch: Touch)
    | Motion(motion: Motion)
    | Text(text: string)
    | Focus(focused: bool)
}
