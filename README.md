# Conrod glium example support: redraw-rate loop and event translation

This project models the support module shared by the conrod examples for the
glium backend (`backends/conrod_glium/examples/support/mod.rs`). The module
has two parts.

- **The redraw-rate loop** (`run_loop`). The platform event loop runs the
  same closure for every event.
  - The closure asks the application whether the event needs a UI update or
    an exit.
  - It sets the UI (`SetUi`) on the first event and whenever a frame deadline
    passes. It also sets it at the end of a batch of events when an update is
    pending and no frame deadline is running.
  - It asks the window for a redraw when the application says the UI
    changed, and then keeps a deadline 16 ms ahead.
  - The 16 ms limit holds only while such a deadline runs. A UI set after
    which the application needs no redraw leaves no deadline. The next end of a batch
    with an update request then sets the UI again, however soon it comes
    (`NoLimitAfterSetWithoutRedraw`).
  - It tells the platform to wait until that deadline, or until the next
    event if no deadline runs.
  - It forwards the platform's redraw event to the application (`Redraw`).
- **The event translator** (`convert_event`, `convert_key`,
  `convert_mouse_button`). It turns platform window events into the UI
  library's `Input` values. Positions move from a top-left origin with y
  pointing down to a centre origin with y pointing up.

Files:

- `wrappers.dfy`: the `Option` type.
- `raw_events.dfy`: the platform events, limited to the fields the module
  reads.
- `canonical_input.dfy`: the UI library's input values.
- `keys.dfy`: the key table.
  - `ConvertKey` is the function as written.
  - `ConvertKeyIntended` is the evidently intended table (see Findings).
- `translator.dfy`: `convert_event` and `convert_mouse_button`.
- `scheduler.dfy`: the loop body in two forms.
  - A function on values, `StepSpec`.
  - A class, `RedrawScheduler`, whose `Step` method updates the two captured
    variables in place.
  - Both run over a trace of events: `Run` as a function and `RunLoop` as a
    method with a loop.

The loop takes its outside world as inputs.

- The clock is an integer millisecond count, `now`.
- The application's answers to `Event` are `shouldUpdateUi` and
  `shouldExit`.
- Its answer to `SetUi` is `needsRedraw`.
- The effects the loop has on the world are recorded in an `Effects` value:
  - the `SetUi` call;
  - the window redraw request;
  - the `Redraw` call;
  - the control flow handed back to the platform.

## Model

| member | source | states |
|---|---|---|
| Scheduler.StepSpec | backends/conrod_glium/examples/support/mod.rs:44-103 | one pass of the loop body on values, returning the new state and the effects. Its promises are proved in `ExitPreempts`, `PendingUntilSet`, `CommitCondition`, `AfterCommit`, `NoCommitKeepsDeadline`, `WakePolicy`, `RedrawPolicy`, `DeadlineBlocksEarlyFrame` and `IdleUpdateIsImmediate` |
| Scheduler.Commits | backends/conrod_glium/examples/support/mod.rs:63-70 | the condition for setting the UI. `CommitCondition` proves it is exactly when `StepSpec` reports a UI set, given no exit |
| Scheduler.RedrawScheduler.constructor | backends/conrod_glium/examples/support/mod.rs:41-43 | before the first event there is no frame deadline and no pending update |
| Scheduler.RedrawScheduler.Step | backends/conrod_glium/examples/support/mod.rs:44-103 | one pass of the closure updates the two captured variables in place. The new deadline, the new pending flag and the effects are exactly those of `StepSpec` on the old values |
| Scheduler.ExitPreempts | backends/conrod_glium/examples/support/mod.rs:56-60 | the control flow is `Exit` if and only if the application asked to exit. On exit there is no UI set, no redraw request, no `Redraw` call, and the deadline stays |
| Scheduler.PendingUntilSet | backends/conrod_glium/examples/support/mod.rs:56-72 | after a pass an update is pending exactly when the UI was not set and an update was pending before or was just requested |
| Scheduler.CommitCondition | backends/conrod_glium/examples/support/mod.rs:63-70 | the UI is set if and only if there is no exit and the event is one of: the initial wake-up; a passed deadline; the end of a batch with no deadline running and an update pending or just requested |
| Scheduler.AfterCommit | backends/conrod_glium/examples/support/mod.rs:71-86 | after a UI set no update is pending. The deadline is `now + 16` if the application needs a redraw, otherwise there is none. The window redraw is requested exactly when the application needs it |
| Scheduler.NoCommitKeepsDeadline | backends/conrod_glium/examples/support/mod.rs:56-89 | a pass that does not set the UI keeps the deadline, only adds the new request to the pending flag, and asks for no redraw |
| Scheduler.WakePolicy | backends/conrod_glium/examples/support/mod.rs:90-94 | without an exit, the control flow is `WaitUntil(deadline)` when a deadline runs and `Wait` otherwise. It is never `Poll` |
| Scheduler.RedrawPolicy | backends/conrod_glium/examples/support/mod.rs:71-102 | a window redraw is requested only together with a UI set. After a set, a deadline runs exactly when a redraw was requested. `Redraw` is sent exactly on the platform's redraw event when there is no exit |
| Scheduler.DeadlineBlocksEarlyFrame | backends/conrod_glium/examples/support/mod.rs:63-70 | while a deadline runs, the end of a batch never sets the UI, and the platform is told to wake at that deadline |
| Scheduler.IdleUpdateIsImmediate | backends/conrod_glium/examples/support/mod.rs:63-70 | with no deadline running, an update requested in a batch is made at the end of that batch |
| Scheduler.Run | backends/conrod_glium/examples/support/mod.rs:44-103 | the loop over a trace makes at most one pass per event. It stops early only by exiting, and only its last pass exits |
| Scheduler.RunLoop | backends/conrod_glium/examples/support/mod.rs:37-104 | a fresh scheduler fed the trace one event at a time until exit gives exactly the final state and effects of `Run` from the initial state |
| Scheduler.QuietLoopOnlyWaits | backends/conrod_glium/examples/support/mod.rs:63-94 | from idle, events that request no update and are not wake-ups never set the UI or ask for a redraw. The loop only waits, or exits, and the state stays idle |
| Scheduler.DeadlineHoldsUntilWakeUp | backends/conrod_glium/examples/support/mod.rs:63-94 | the rate limit: while a deadline runs and no wake-up arrives, no pass sets the UI or asks for a redraw, the deadline does not move, and every pass waits until it (or exits) |
| Scheduler.PendingUpdateIsSticky | backends/conrod_glium/examples/support/mod.rs:56-72 | over events that cannot set the UI, the pending flag becomes the old flag or-ed with any request in the trace. The deadline stays, and every event gets a pass |
| Scheduler.NoLimitAfterSetWithoutRedraw | backends/conrod_glium/examples/support/mod.rs:63-86 | the frame limit is conditional: after an initial UI set that needs no redraw, a request at the next end of a batch sets the UI again at once |
| Scheduler.FirstEventSetsUi | backends/conrod_glium/examples/support/mod.rs:68-72 | the initial wake-up sets the UI at once, unless the application exits |
| Translator.Tx | backends/conrod_glium/examples/support/mod.rs:111 | the horizontal coordinate is shifted by half the window width, so adding the half-width back gives the input |
| Translator.Ty | backends/conrod_glium/examples/support/mod.rs:112 | the vertical input and output coordinates sum to half the window height: the axis is flipped about the centre |
| Translator.UnTx | backends/conrod_glium/examples/support/mod.rs:111 | the inverse of the horizontal transform: `Tx` of its result is the input |
| Translator.TransformRoundTrip | backends/conrod_glium/examples/support/mod.rs:110-112 | the coordinate transform is invertible: `UnTx` undoes `Tx`, and `Ty` is its own inverse |
| Translator.TransformLandmarks | backends/conrod_glium/examples/support/mod.rs:110-112 | the window centre maps to (0, 0) and the top-left corner to (-w/2, h/2) |
| Translator.IsControl | backends/conrod_glium/examples/support/mod.rs:127-130 | the six characters dropped from text: delete, escape, backspace, carriage return, line feed and tab. `ConvertText` is empty exactly on them |
| Translator.ConvertText | backends/conrod_glium/examples/support/mod.rs:124-133 | the text has at most one character. It is empty exactly for delete, escape, backspace, carriage return, line feed and tab. Otherwise it is the received character |
| Translator.ConvertCharacter | backends/conrod_glium/examples/support/mod.rs:124-134 | a received character always becomes a `Text` input |
| Translator.ConvertTouchPhase | backends/conrod_glium/examples/support/mod.rs:158-163 | the phase map is injective: `TouchPhaseOf` gives back the platform phase |
| Translator.TouchPhaseOnto | backends/conrod_glium/examples/support/mod.rs:158-163 | every canonical phase is produced, so the phase map is a bijection |
| Translator.ConvertMouseButton | backends/conrod_glium/examples/support/mod.rs:337-349 | the result is `Unknown` exactly for `Other(n)` with n >= 5. Every other button is recovered by `MouseButtonOf`: left, right and middle keep their names, and `Other(0..4)` become X1, X2, Button6, Button7, Button8 |
| Translator.MouseButtonOnto | backends/conrod_glium/examples/support/mod.rs:337-349 | every named canonical button is produced by some platform button |
| Translator.ButtonInput | backends/conrod_glium/examples/support/mod.rs:206-219 | a pressed state gives `Press` and a released state gives `Release`, carrying the given button |
| Translator.Dropped | backends/conrod_glium/examples/support/mod.rs:139-223 | the events `convert_event` maps to `None`. `ConvertEvent` and `ConvertEventIntended` return `None` exactly on them |
| Translator.ConvertEvent | backends/conrod_glium/examples/support/mod.rs:106-225 | the result is `None` exactly for non-window events, unhandled window events, and keyboard input without a key code. Text has at most one character. Every keyboard press or release carries `D0` (the table as written) |
| Translator.ConvertEventIntended | backends/conrod_glium/examples/support/mod.rs:106-225 | the same events are dropped as by `ConvertEvent`. On every event other than keyboard input it equals `ConvertEvent` |
| Translator.ConvertResize | backends/conrod_glium/examples/support/mod.rs:120-123 | a resize keeps its width and height |
| Translator.ConvertFocus | backends/conrod_glium/examples/support/mod.rs:135-137 | focus changes pass through unchanged |
| Translator.ConvertKeyboard | backends/conrod_glium/examples/support/mod.rs:138-149 | keyboard input without a key code is dropped. With one it becomes a press or release, following the state, of the translated key |
| Translator.ConvertTouch | backends/conrod_glium/examples/support/mod.rs:151-172 | a touch keeps its id. Its phase is mapped one to one, and its transformed position can be carried back to window coordinates |
| Translator.ConvertCursor | backends/conrod_glium/examples/support/mod.rs:174-180 | the cursor position becomes (x - w/2, h/2 - y) and can be carried back |
| Translator.ConvertScroll | backends/conrod_glium/examples/support/mod.rs:182-204 | a pixel delta (x, y) becomes a scroll of (x, -y). A line delta becomes (10x, -10y). There is no origin shift |
| Translator.ConvertMouse | backends/conrod_glium/examples/support/mod.rs:206-219 | mouse input becomes a press or release of the converted mouse button |
| Translator.WorkedExamples | backends/conrod_glium/examples/support/mod.rs:174-204 | for an 800 by 600 window: (400, 300) becomes (0, 0) and (0, 0) becomes (-400, 300). A pixel scroll (0, -5) becomes (0, 5), and a line scroll (1, 1) becomes (10, -10) |
| Keys.ConvertKey | backends/conrod_glium/examples/support/mod.rs:227-335 | `convert_key` as written, with the first arm a binding pattern. `ConvertKeyIgnoresCode`, `ConvertKeyLosesLetters`, `ConvertKeyLosesApostropheArm` and `ConvertKeyLosesNumpadCommaArm` state what it does |
| Keys.ConvertKeyIntended | backends/conrod_glium/examples/support/mod.rs:227-335 | the corrected table. `ConvertKeyIntendedD0OnlyFromKey0` and `ConvertKeyIntendedUnknownOnlyUnmapped` state its promises, and the `ConvertKeyLoses…` lemmas give its values for `A`, `Apostrophe` and `NumpadComma` |
| Keys.ConvertKeyIgnoresCode | backends/conrod_glium/examples/support/mod.rs:227-335 | as written, every key code translates to `D0`: no two codes are told apart, and no code gives `Unknown` |
| Keys.ConvertKeyLosesLetters | backends/conrod_glium/examples/support/mod.rs:229-239 | as written, `A` gives `D0`. The intended table gives `A` |
| Keys.ConvertKeyLosesApostropheArm | backends/conrod_glium/examples/support/mod.rs:229-265 | as written, `Apostrophe` gives `D0`. The intended table gives `Unknown` |
| Keys.ConvertKeyLosesNumpadCommaArm | backends/conrod_glium/examples/support/mod.rs:229-303 | as written, `NumpadComma` gives `D0`. The intended table gives `NumPadDecimal` |
| Keys.ConvertKeyIntendedD0OnlyFromKey0 | backends/conrod_glium/examples/support/mod.rs:227-335 | in the intended table `D0` comes from `Key0` and from no other code |
| Keys.ConvertKeyIntendedUnknownOnlyUnmapped | backends/conrod_glium/examples/support/mod.rs:265-333 | in the intended table `Unknown` comes only from `Apostrophe` and from the codes the table does not name |

## Left out

- Platform and window plumbing is left out: `EventLoop::run`, the `Display`, and the actual `request_redraw` call. The loop body's effects on them are recorded as booleans and a control-flow value.
- The callback bodies belong to each example; their answers are inputs to each step.
- `Instant::now()` is the input `now`, an integer count of milliseconds. The 16 ms `Duration` is the constant `FrameIntervalMs`.
- Winit delivers events after `ControlFlow::Exit` until the loop is destroyed. `Run` and `RunLoop` stop after the first pass that exits.
- Window scale factors and the physical-to-logical conversions (`to_logical`) are not modelled. Sizes, positions and pixel deltas reach the translator already in logical units, and the window's logical size is given as `winW` and `winH`.
- `f64` arithmetic is modelled with exact `real`s, so rounding is not captured.
- The touch identifier is carried as a `nat`. The UI library's `touch::Id` wrapper is not part of this model.
- `.into()` conversions from `Input` to the caller's event type are identities here.
- `ConvertKeyIntended`: besides the arm values for `Key0`, `A`, `Apostrophe` and `NumpadComma`, the only all-input facts proved are: `D0` comes only from `Key0`, and `Unknown` comes only from unmapped codes. Distinctness of the other arms, and that every unmapped code gives `Unknown`, are not proved. Proofs that range over the whole 163-code enumeration at once exceed the verifier's resource bound.
- `ConvertEventIntended`: no contract states its keyboard results beyond their being `Some`. That they are `ButtonInput(state, Keyboard(ConvertKeyIntended(code)))` holds by definition only.

## Findings

| source | as written | input that shows it | evidently intended | confidence | as-written member | corrected member |
|---|---|---|---|---|---|---|
| backends/conrod_glium/examples/support/mod.rs:229 | the first arm of `convert_key` is `Key0 => Key::D0`, without the `VirtualKeyCode::` path. No `Key0` item is in scope, so the pattern binds a fresh variable and matches every code. Every key translates to `D0` and the other 100-odd arms are unreachable. Recent Rust compilers reject this pattern by default (lint `bindings_with_variant_name`); older ones only warn | key code `A` (or `Apostrophe`, `NumpadComma`): gives `D0` instead of `A` (`Unknown`, `NumPadDecimal`) | the arm is `VirtualKeyCode::Key0 => Key::D0`, so each code gets its own key | high; not executed | Keys.ConvertKey (Keys.ConvertKeyIgnoresCode, Keys.ConvertKeyLosesLetters) | Keys.ConvertKeyIntended (Keys.ConvertKeyIntendedD0OnlyFromKey0, Keys.ConvertKeyIntendedUnknownOnlyUnmapped) |

`ConvertEvent` uses the table as written, which is what the module does.
`ConvertEventIntended` is the same translation with the corrected table.
