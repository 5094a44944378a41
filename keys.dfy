/** Translation of platform key codes into abstract keys
    (`convert_key`, support/mod.rs lines 227-335). */
module Keys {
  import R = RawEvents
  import opened Wrappers
  import opened CanonicalInput

  /** `convert_key` as written. Its first arm names `Key0` without the
      `VirtualKeyCode::` prefix, and no item of that name is in scope, so in
      Rust the arm is a fresh binding that matches every code: every key code
      becomes `D0` and the remaining arms of the table can never be reached.
      Every code therefore gets the translation the table meant for `Key0`. */
  function ConvertKey(keycode: R.VirtualKeyCode): Key
  {
    match keycode
    case key0 => Key.D0
  }

  /** The translation table `convert_key` evidently intends: its arms with
      the first one read as `VirtualKeyCode::Key0`. Only `Apostrophe` and the
      codes the table does not name give `Unknown`; `NumpadComma` and
      `NumpadDecimal` share `NumPadDecimal`; every other named code gives its
      own key. */
  function ConvertKeyIntended(keycode: R.VirtualKeyCode): Key
  {
    match keycode
    case Key0 => Key.D0
    case Key1 => Key.D1
    case Key2 => Key.D2
    case Key3 => Key.D3
    case Key4 => Key.D4
    case Key5 => Key.D5
    case Key6 => Key.D6
    case Key7 => Key.D7
    case Key8 => Key.D8
    case Key9 => Key.D9
    case A => Key.A
    case B => Key.B
    case C => Key.C
    case D => Key.D
    case E => Key.E
    case F => Key.F
    case G => Key.G
    case H => Key.H
    case I => Key.I
    case J => Key.J
    case K => Key.K
    case L => Key.L
    case M => Key.M
    case N => Key.N
    case O => Key.O
    case P => Key.P
    case Q => Key.Q
    case R => Key.R
    case S => Key.S
    case T => Key.T
    case U => Key.U
    case V => Key.V
    case W => Key.W
    case X => Key.X
    case Y => Key.Y
    case Z => Key.Z
    case Apostrophe => Key.Unknown
    case Backslash => Key.Backslash
    case Back => Key.Backspace
    case Delete => Key.Delete
    case Comma => Key.Comma
    case Down => Key.Down
    case End => Key.End
    case Return => Key.Return
    case Equals => Key.Equals
    case Escape => Key.Escape
    case F1 => Key.F1
    case F2 => Key.F2
    case F3 => Key.F3
    case F4 => Key.F4
    case F5 => Key.F5
    case F6 => Key.F6
    case F7 => Key.F7
    case F8 => Key.F8
    case F9 => Key.F9
    case F10 => Key.F10
    case F11 => Key.F11
    case F12 => Key.F12
    case F13 => Key.F13
    case F14 => Key.F14
    case F15 => Key.F15
    case Numpad0 => Key.NumPad0
    case Numpad1 => Key.NumPad1
    case Numpad2 => Key.NumPad2
    case Numpad3 => Key.NumPad3
    case Numpad4 => Key.NumPad4
    case Numpad5 => Key.NumPad5
    case Numpad6 => Key.NumPad6
    case Numpad7 => Key.NumPad7
    case Numpad8 => Key.NumPad8
    case Numpad9 => Key.NumPad9
    case NumpadComma | NumpadDecimal => Key.NumPadDecimal
    case NumpadDivide => Key.NumPadDivide
    case NumpadMultiply => Key.NumPadMultiply
    case NumpadSubtract => Key.NumPadMinus
    case NumpadAdd => Key.NumPadPlus
    case NumpadEnter => Key.NumPadEnter
    case NumpadEquals => Key.NumPadEquals
    case LShift => Key.LShift
    case LControl => Key.LCtrl
    case LAlt => Key.LAlt
    case RShift => Key.RShift
    case RControl => Key.RCtrl
    case RAlt => Key.RAlt
    case Home => Key.Home
    case Insert => Key.Insert
    case Left => Key.Left
    case LBracket => Key.LeftBracket
    case Minus => Key.Minus
    case Numlock => Key.NumLockClear
    case PageDown => Key.PageDown
    case PageUp => Key.PageUp
    case Pause => Key.Pause
    case Period => Key.Period
    case Right => Key.Right
    case RBracket => Key.RightBracket
    case Semicolon => Key.Semicolon
    case Slash => Key.Slash
    case Space => Key.Space
    case Tab => Key.Tab
    case Up => Key.Up
    case _ => Key.Unknown
  }

  /** The codes the intended table sends to `Unknown`: `Apostrophe`, named
      explicitly, and every code without an arm of its own. */
  predicate Unmapped(code: R.VirtualKeyCode)
  {
    code.Apostrophe? || code.F16? || code.F17? || code.F18? || code.F19?
    || code.F20? || code.F21? || code.F22? || code.F23? || code.F24?
    || code.Snapshot? || code.Scroll? || code.Compose? || code.Caret? || code.AbntC1?
    || code.AbntC2? || code.Apps? || code.Asterisk? || code.At? || code.Ax?
    || code.Calculator? || code.Capital? || code.Colon? || code.Convert? || code.Grave?
    || code.Kana? || code.Kanji? || code.LWin? || code.Mail? || code.MediaSelect?
    || code.MediaStop? || code.Mute? || code.MyComputer? || code.NavigateForward? || code.NavigateBackward?
    || code.NextTrack? || code.NoConvert? || code.OEM102? || code.PlayPause? || code.Plus?
    || code.Power? || code.PrevTrack? || code.RWin? || code.Sleep? || code.Stop?
    || code.Sysrq? || code.Underline? || code.Unlabeled? || code.VolumeDown? || code.VolumeUp?
    || code.Wake? || code.WebBack? || code.WebFavorites? || code.WebForward? || code.WebHome?
    || code.WebRefresh? || code.WebSearch? || code.WebStop? || code.Yen? || code.Copy?
    || code.Paste? || code.Cut?
  }

  /** The intended table gives `Unknown` only for the codes it does not
      map. */
  lemma ConvertKeyIntendedUnknownOnlyUnmapped(keycode: R.VirtualKeyCode)
    ensures ConvertKeyIntended(keycode) == Key.Unknown ==> Unmapped(keycode)
  {
  }

  /** The intended table keeps the first arm for `Key0` alone: `D0` comes
      from `Key0` and from no other code. */
  lemma ConvertKeyIntendedD0OnlyFromKey0(keycode: R.VirtualKeyCode)
    ensures ConvertKeyIntended(keycode) == Key.D0 <==> keycode == R.VirtualKeyCode.Key0
  {
  }

  /** As written, the translation ignores its input: every code gets the
      translation meant for `Key0`, so no two codes are told apart and no
      code yields `Unknown`. */
  lemma ConvertKeyIgnoresCode(k1: R.VirtualKeyCode, k2: R.VirtualKeyCode)
    ensures ConvertKey(k1) == ConvertKey(k2) == Key.D0
    ensures ConvertKey(k1) != Key.Unknown
  {
  }

  /** The discrepancy between the code as written and the intended table on
      a letter: `A` is meant to give `A`. */
  lemma ConvertKeyLosesLetters()
    ensures ConvertKey(R.VirtualKeyCode.A) == Key.D0
    ensures ConvertKeyIntended(R.VirtualKeyCode.A) == Key.A
  {
  }

  /** The explicit `Apostrophe => Unknown` arm is unreachable as written. */
  lemma ConvertKeyLosesApostropheArm()
    ensures ConvertKey(R.VirtualKeyCode.Apostrophe) == Key.D0
    ensures ConvertKeyIntended(R.VirtualKeyCode.Apostrophe) == Key.Unknown
  {
  }

  /** The shared `NumpadComma | NumpadDecimal` arm is unreachable as
      written. */
  lemma ConvertKeyLosesNumpadCommaArm()
    ensures ConvertKey(R.VirtualKeyCode.NumpadComma) == Key.D0
    ensures ConvertKeyIntended(R.VirtualKeyCode.NumpadComma) == Key.NumPadDecimal
  {
  }
}
