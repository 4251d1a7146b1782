# Focusless keyboard router of the overlay panel

`src/main.rs` builds a small always-on-top macOS panel with a text field that
can be typed into without the panel ever becoming the key window. Typing works
through a *focusless keyboard router*:

- a click on the text field sets the capture flag `TEXT_FIELD_ACTIVE`; a click
  on the draggable background clears it;
- two key-down monitors (one global, one local to the process) run the same
  closure: while capturing, they swallow every key-down except the
  pass-through keys (arrows, Escape, Tab, and any chord with Command, Option
  or Control) and edit the text field's string: Delete removes the last
  character, Return clears it, anything else appends the event's characters;
- every active-space change notification adds one to `DESKTOP_CHANGE_COUNT`;
- the panel class and its two views answer NO to every request for key,
  main or first-responder status.

The project has four modules:

- `Keys` (`keys.dfy`): key codes, modifier flags and `ShouldPassThrough`, the
  key filter, with its contract given through an independent bit-by-bit reading
  of the modifier mask.
- `RouterSpec` (`router_spec.dfy`): the router as a pure state machine.
  `RouterState` holds the flag, whether the text field has been published, the
  string and the counter. `HandleKeyDown` is the monitor closure.
  `Step` and `Run` handle one event and a run of events. The lemmas cover single
  key-downs and whole runs.
- `Overlay` (`router.dfy`): class `Router`, whose fields are the source's
  globals. Its methods are the handlers, written imperatively as the source
  does. Each method's postcondition ties the new state to `RouterSpec.Step`, so
  the run lemmas apply to any sequence of calls.
- `Panel` (`panel.dfy`): the constant overrides of the panel and its views.

## Model

| member | source | states |
|---|---|---|
| `Keys.ShouldPassThrough` | src/main.rs:252-271 | passes exactly when the key is one of the six navigation keys or bit 20, 19 or 18 (Command, Option, Control) of the mask is set |
| `Keys.NavigationKeysPass` | src/main.rs:253-261 | Up, Down, Left, Right, Escape and Tab pass whatever the modifiers |
| `Keys.ShortcutChordsPass` | src/main.rs:263-268 | any key with Command, Option or Control held passes |
| `Keys.PlainKeysCaptured` | src/main.rs:252-271 | every other key is captured, Return and Delete included, when none of the three modifiers is held |
| `Keys.OtherModifiersIgnored` | src/main.rs:263-270 | modifier bits other than the three (Shift, Caps Lock, Function) never change the decision |
| `RouterSpec.DeleteLast` | src/main.rs:426-431 | on a non-empty string the result plus the old last character is the old string; on an empty string the result is empty (no underflow) |
| `RouterSpec.HandleKeyDown` | src/main.rs:406-446 | forwards iff not capturing or the key passes through; a forwarded event never edits the text; the text changes only while capturing with a text field and non-nil characters; "Submitted!" is logged iff the global monitor swallows a Return that has characters and a text field, and then the text is empty |
| `RouterSpec.Increment` | src/main.rs:71 | the counter goes up by one modulo 2^64, and by exactly one below the top value |
| `RouterSpec.Step` | src/main.rs:70-134 | a text-field click sets the flag, a background click clears it, no other event touches it; only key-downs edit the text; only space changes move the counter, by one modulo 2^64; only publishing sets the text-field presence |
| `RouterSpec.MonitorsAgree` | src/main.rs:452-491 | the global and local monitors forward the same events and leave the same text; only the global one logs "Submitted!" |
| `RouterSpec.InactiveForwards` | src/main.rs:407-409 | while not capturing, the event is forwarded and the text is unchanged |
| `RouterSpec.PassThroughForwards` | src/main.rs:414-416 | while capturing, a pass-through key is forwarded and the text is unchanged |
| `RouterSpec.NoTargetSwallows` | src/main.rs:418-421 | a captured key with no text field or nil characters is swallowed and changes nothing |
| `RouterSpec.DeleteRemovesLast` | src/main.rs:426-431 | captured Delete is swallowed and removes exactly the last character, leaving an empty string empty |
| `RouterSpec.ReturnClears` | src/main.rs:432-436 | captured Return with characters is swallowed and clears the text |
| `RouterSpec.OtherKeyAppends` | src/main.rs:437-441 | any other captured key with characters is swallowed and its characters are appended at the end |
| `RouterSpec.Examples` | src/main.rs:426-441 | "abc" with Delete gives "ab", "" with Delete gives "", "hello" with Return gives "" and is swallowed, Command-A is forwarded untouched |
| `RouterSpec.ActiveFollowsLastClick` | src/main.rs:93-124 | after any run of events the capture flag is set by the run's last click (text field: true, background: false), or is the initial flag when there is none |
| `RouterSpec.CounterCountsSpaceChanges` | src/main.rs:70-71 | after any run the counter is the old counter plus the number of space-change notifications, modulo 2^64 |
| `RouterSpec.CounterFromInitial` | src/main.rs:24-71 | from the initial statics, below 2^64 notifications, the counter equals the number of notifications |
| `RouterSpec.InactiveRunForwardsAll` | src/main.rs:406-409 | a run that starts without capture and has no text-field click forwards every key-down, leaves the text unchanged and ends without capture |
| `RouterSpec.TextGrowthBounded` | src/main.rs:437-441 | a run never lengthens the text by more than the characters its key-downs carry |
| `Overlay.Router.constructor` | src/main.rs:22-24 | starts not capturing, with no text field, an empty string and counter 0 |
| `Overlay.Router.PublishTextField` | src/main.rs:400 | the text field becomes present; nothing else changes |
| `Overlay.Router.ClickTextField` | src/main.rs:123-124 | the flag becomes true; nothing else changes |
| `Overlay.Router.ClickBackground` | src/main.rs:93-95 | the flag becomes false; nothing else changes |
| `Overlay.Router.OnSpaceChange` | src/main.rs:70-72 | the counter goes up by one modulo 2^64 and the returned count is the new value; nothing else changes |
| `Overlay.Router.OnKeyDown` | src/main.rs:406-446 | returns the decision and new text of `HandleKeyDown` on the old state; forwards iff not capturing or the key passes through; the flag, presence and counter are unchanged |
| `Panel.NeverTakesFocus` | src/main.rs:83-142 | the panel never becomes key or main window, neither view accepts first-responder status, and both accept the first click |

## Left out

- The text is a sequence of Dafny characters (Unicode scalar values). The source's `length` and `deleteCharactersInRange` work on UTF-16 code units, so Delete after a character outside the Basic Multilingual Plane removes only half of its surrogate pair there; the model removes the whole character.
- The panel, window and view construction, the Objective-C class registration (`ClassDecl`, `Once`), colours, frames and window dragging are foreign calls and floating-point geometry.
- The text field's background colour change on each click is a colour and is not modelled; only the flag update is.
- The thread spawned by `space_did_change` only sleeps and prints, and is not modelled. The other log lines are output only. Of the `println!` calls, only "Submitted!" is kept, as `announcedSubmit`, because it is the one difference between the two monitors.
- `Overlay.Router.OnSpaceChange`: the returned count wraps to 0 at 2^64. That is the release-build behaviour of `fetch_add(1) + 1`. A debug build panics on that `+ 1` instead.
- The atomics and their `SeqCst` ordering are plain fields, and concurrent handlers are not modelled.
- The close and test buttons (`terminate:`, `println!`) are application lifecycle and output.
- Whether the operating system honours a nil return from the global monitor is the system's concern. Only the forward or swallow decision is modelled.
- The window level is a single fixed constant set at creation. No level arbitration or z-order escalation exists in this code, so none is modelled.
- Return does not hand the submitted text to anyone. It only clears the field and, in the global monitor, prints "Submitted!". A design that sends the prior contents along is not what this code does.
