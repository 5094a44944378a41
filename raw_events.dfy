/** The platform (winit) events that reach the support module, reduced to the
    fields the module reads. Positions, sizes and deltas are given in logical
    pixels: the scale-factor division the module performs through the window
    library happens before these values are built. */
module RawEvents {

  import opened Wrappers

  /** Why the platform woke the loop (`event::StartCause`). */
  datatype StartCause = ResumeTimeReached | WaitCancelled | Poll | Init

  /** Top-level platform events (`event::Event`). Only `NewEvents`,
      `WindowEvent`, `MainEventsCleared` and `RedrawRequested` are looked at;
      the others are listed so that "any other event" has members. */
  datatype Event =
    | NewEvents(cause: StartCause)
    | WindowEvent(event: WindowEvent)
    | DeviceEvent
    | UserEvent
    | Suspended
    | Resumed
    | MainEventsCleared
    | RedrawRequested
    | RedrawEventsCleared
    | LoopDestroyed

  datatype ElementState = Pressed | Released

  datatype TouchPhase = Started | Moved | Ended | Cancelled

  /** A platform mouse button; `Other` carries the platform's ordinal. */
  datatype MouseButton = Left | Right | Middle | Other(ordinal: nat)

  /** A wheel movement: in pixels (already logical) or in lines. */
  datatype MouseScrollDelta =
    | LineDelta(x: real, y: real)
    | PixelDelta(x: real, y: real)

  /** The window events the translator distinguishes (`event::WindowEvent`);
      every other kind is `OtherWindowEvent`. */
  datatype WindowEvent =
    | Resized(width: real, height: real)
    | ReceivedCharacter(ch: char)
    | Focused(focused: bool)
    | KeyboardInput(state: ElementState, virtualKeycode: Option<VirtualKeyCode>)
    | Touch(phase: TouchPhase, x: real, y: real, id: nat)
    | CursorMoved(x: real, y: real)
    | MouseWheel(delta: MouseScrollDelta)
    | MouseInput(state: ElementState, button: MouseButton)
    | OtherWindowEvent

  /** The platform's virtual key codes (`event::VirtualKeyCode`). */
  datatype VirtualKeyCode =
    | Key1 | Key2 | Key3 | Key4 | Key5 | Key6 | Key7 | Key8 | Key9 | Key0
    | A | B | C | D | E | F | G | H | I | J | K | L | M
    | N | O | P | Q | R | S | T | U | V | W | X | Y | Z
    | Escape
    | F1 | F2 | F3 | F4 | F5 | F6 | F7 | F8 | F9 | F10 | F11 | F12
    | F13 | F14 | F15 | F16 | F17 | F18 | F19 | F20 | F21 | F22 | F23 | F24
    | Snapshot | Scroll | Pause
    | Insert | Home | Delete | End | PageDown | PageUp
    | Left | Up | Right | Down
    | Back | Return | Space
    | Compose | Caret
    | Numlock
    | Numpad0 | Numpad1 | Numpad2 | Numpad3 | Numpad4
    | Numpad5 | Numpad6 | Numpad7 | Numpad8 | Numpad9
    | NumpadAdd | NumpadDivide | NumpadDecimal | NumpadComma | NumpadEnter
    | NumpadEquals | NumpadMultiply | NumpadSubtract
    | AbntC1 | AbntC2 | Apostrophe | Apps | Asterisk | At | Ax | Backslash
    | Calculator | Capital | Colon | Comma | Convert | Equals | Grave
    | Kana | Kanji | LAlt | LBracket | LControl | LShift | LWin
    | Mail | MediaSelect | MediaStop | Minus | Mute | MyComputer
    | NavigateForward | NavigateBackward | NextTrack | NoConvert | OEM102
    | Period | PlayPause | Plus | Power | PrevTrack
    | RAlt | RBracket | RControl | RShift | RWin
    | Semicolon | Slash | Sleep | Stop | Sysrq | Tab | Underline | Unlabeled
    | VolumeDown | VolumeUp | Wake
    | WebBack | WebFavorites | WebForward | WebHome | WebRefresh | WebSearch | WebStop
    | Yen | Copy | Paste | Cut
}
