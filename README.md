# Rich-text example driver: input mapper and redraw protocol

This project models the event loop of cosmic-text's `rich-text` example
(`examples/rich-text/src/main.rs`). The loop owns three pointer variables,
`mouse_x`, `mouse_y` and `mouse_left`. It starts them at `(-1, -1, false)`.
Each iteration does three things:

- It shapes the buffer (`editor.shape_as_needed()`).
- It draws the buffer when the buffer's redraw flag is set, then clears the flag.
- It feeds every pending orbclient window event through one `match`, which
  turns the event into calls on the editor.

Those calls are the editor actions (`Left` … `Delete`, `Insert(c)`,
`Click{x,y}`, `Drag{x,y}`) and the buffer's size setter. A Quit event ends the
process with status 0.

Modules:

- `Events` (`events.dfy`): orbclient's event kinds, the action vocabulary,
  the eleven scancodes, and the key table as `KeyAction`. `Binding` is the
  inverse table, and the lemmas prove the two agree.
- `InputMapper` (`input_mapper.dfy`): the pure specification.
  - `Dispatch` is one arm of the match. It gives the next pointer state, the
    calls made, and whether the process quit.
  - `Process` is that match folded over a stream of events in arrival order,
    stopping at a Quit.
  - The lemmas state the per-event rules, the rules across event kinds, and
    facts about streams: concatenation, finality of Quit, startup.
- `EditorSink` (`editor_sink.dfy`): class `Editor`, the cosmic_text editor
  as the driver sees it. It records every call it receives (actions, size
  changes, shaping passes) and holds the buffer width, height and redraw flag.
- `Driver` (`render_loop.dfy`): class `RenderLoop`. It holds the pointer
  variables, the count of completed draws and the process status. Its methods
  are imperative:
  - `HandleEvent` is one match arm.
  - `DispatchEvents` is the `for event in window.events()` loop.
  - `DrawIfNeeded` is the flag check and clear.
  - `Frame` is one loop iteration.
  - `Run` runs the outer loop over a finite sequence of polls, one
    `RunIteration` per poll.
  
  Each method is proved against `Dispatch`, `Process`, `Received` and
  `DrawCount`. `Received` is the sequence of calls the editor gets over the
  iterations; `ReceivedActions` and `ReceivedSize` prove that, shaping passes
  aside, it carries the same actions and the same final size as all the
  events handled as one stream.

The editor's reaction to a call belongs to the cosmic_text library, whose
source is not part of this model. That includes whether a call sets the redraw
flag. The model therefore takes this as a parameter: the editor's policy
`marks: (seq<Call>, Call) -> bool`. It is given every call the editor received
before the current one, so it can depend on the editor's state (text, cursor,
size), which that history determines. After a call `c` with history `h` the
flag is `flag || marks(h, c)`. This covers the shaping pass as well. The flag's
value when the loop starts is also a constructor parameter.

The eleven scancode values are orbclient's constants (`K_LEFT = 0x4B` and so
on). orbclient is not part of this model. The proofs use only the fact that
the eleven values are distinct (`BindingsDistinct`).

Two facts about the code worth noting:

- A Click is issued on every button event whose `left` field is true,
  including when the left button was already held (main.rs:117-124;
  `ButtonClicks` has no condition on the previous button state).
- Whether a resize marks the buffer for redraw depends only on the library's
  `set_size`, here on `marks`.

## Model

| member | source | states |
|---|---|---|
| Events.KeyAction | examples/rich-text/src/main.rs:92-104 | A key event yields an action exactly when it is a key-down of one of the eleven bound scancodes, and that action is the one bound to the scancode |
| Events.Binding | examples/rich-text/src/main.rs:93-103 | Each navigation or editing action is bound to one of the eleven scancodes; Insert, Click and Drag are bound to none |
| Events.KeyReleaseIgnored | examples/rich-text/src/main.rs:93-104 | A key release yields no action, whatever its scancode |
| Events.BindingInverse | examples/rich-text/src/main.rs:93-104 | Key-down on scancode k yields action a if and only if a is bound to k |
| Events.BindingsDistinct | examples/rich-text/src/main.rs:93-103 | The eleven scancodes are pairwise distinct, so the guarded arms cannot overlap |
| InputMapper.Dispatch | examples/rich-text/src/main.rs:91-133 | Handling one event makes at most one call, and it quits exactly on a Quit event |
| InputMapper.KeyEventMapped | examples/rich-text/src/main.rs:92-105 | A key event leaves the pointer state alone; a release or an unbound scancode makes no call; a key-down on a bound key makes exactly one call, the bound action |
| InputMapper.TextInputInserts | examples/rich-text/src/main.rs:106 | Text input always makes exactly one call, Insert of the event's character, with no filtering, and leaves the pointer state unchanged |
| InputMapper.MouseMoves | examples/rich-text/src/main.rs:107-116 | A pointer move stores its coordinates and keeps the button state; it calls Drag at the new coordinates if and only if the button was already held |
| InputMapper.ButtonClicks | examples/rich-text/src/main.rs:117-125 | A button event sets the held state to its left field and keeps the coordinates; it calls Click at the previously stored coordinates if and only if left is true; a release makes no call |
| InputMapper.ResizeQuitOther | examples/rich-text/src/main.rs:126-132 | Resize only calls the size setter with the event's width and height; Quit makes no call and ends the process; any other event kind does nothing |
| InputMapper.DragOnlyWhileHeld | examples/rich-text/src/main.rs:107-125 | Of all event kinds, only a pointer move while the button is held produces a Drag, and the Drag carries that move's coordinates |
| InputMapper.ClickOnlyOnPress | examples/rich-text/src/main.rs:107-125 | Of all event kinds, only a button event with left set produces a Click, and the Click carries the stored coordinates |
| InputMapper.StateChangesByKind | examples/rich-text/src/main.rs:91-133 | Only a pointer move changes the stored coordinates, only a button event changes the held state, and only a resize calls the size setter |
| InputMapper.Process | examples/rich-text/src/main.rs:90-134 | A stream of events quits exactly when it contains a Quit, and makes at most one call per event |
| InputMapper.ProcessOne | examples/rich-text/src/main.rs:90-134 | A stream of one event is handled exactly as that event |
| InputMapper.ProcessAppend | examples/rich-text/src/main.rs:90-134 | Events are handled strictly in arrival order: handling a + b gives the calls of a followed by those of b, with b handled from the state a left, unless a quit |
| InputMapper.QuitIsFinal | examples/rich-text/src/main.rs:131 | No event after a Quit has any effect, and the stream ends in the quit state |
| InputMapper.FinalSize | examples/rich-text/src/main.rs:126-130 | The buffer size after some calls is the starting size or the arguments of one of the size-setter calls, and it is the starting size when no size was set |
| InputMapper.LastSizeWins | examples/rich-text/src/main.rs:126-130 | The buffer size is the one set by the last resize: calls after it that set no size keep it |
| InputMapper.MarkedAppend | examples/rich-text/src/main.rs:72-133 | A sequence of calls a + b marks the buffer exactly when a does, or b does once the editor has also received a |
| InputMapper.NoDragBeforePress | examples/rich-text/src/main.rs:107-125 | Starting with the button up, no Drag is produced until some button event sets left |
| InputMapper.ClicksAtStoredPointer | examples/rich-text/src/main.rs:107-125 | Until the next pointer move, every Click is at the coordinates stored before the stream |
| InputMapper.StartupBehaviour | examples/rich-text/src/main.rs:65-125 | From the startup state, no Drag is produced before the first left press, and a Click before the first pointer move is at (-1, -1) |
| InputMapper.InsertsFromTextInput | examples/rich-text/src/main.rs:106 | Every character inserted while handling a stream came from a text-input event carrying it; no key, pointer or button event inserts text |
| InputMapper.StopAtPoll | examples/rich-text/src/main.rs:68-137 | Once the events of the first k polls contain a Quit, later polls make no difference |
| Driver.DrawCount | examples/rich-text/src/main.rs:68-88 | The loop draws at most once per iteration, and draws in the first iteration when the flag was set at startup or the first shaping pass marked the buffer |
| Driver.DrawsOnlyWhenMarked | examples/rich-text/src/main.rs:72-88 | If the library never marks a call, whatever the editor received before it, the loop draws once at most: in its first iteration, when the flag was set at startup |
| Driver.ReceivedActions | examples/rich-text/src/main.rs:68-134 | Shaping passes aside, the calls the editor receives over the iterations carry exactly the actions of all the events handled as one stream, in order |
| Driver.ReceivedSize | examples/rich-text/src/main.rs:68-134 | The buffer size the editor ends with over the iterations is the one of all the events handled as one stream |
| Driver.ReceivedStop | examples/rich-text/src/main.rs:68-137 | Once the events of the first k polls contain a Quit, later polls send the editor nothing |
| Driver.RenderLoop.constructor | examples/rich-text/src/main.rs:65-67 | The loop starts with pointer (-1, -1), button up, no draws, process running |
| Driver.RenderLoop.HandleEvent | examples/rich-text/src/main.rs:91-133 | One match arm: the pointer variables, buffer size and process status become what Dispatch gives, and the editor receives exactly its calls; the redraw flag is raised exactly when the library marks one of those calls given what the editor received before; draws are unchanged |
| Driver.RenderLoop.DispatchEvents | examples/rich-text/src/main.rs:90-134 | The event loop leaves the state that Process gives for the whole poll: the calls are received in arrival order, the flag is raised exactly when the library marks one of them, and a Quit stops the loop with exit status 0 |
| Driver.RenderLoop.DrawIfNeeded | examples/rich-text/src/main.rs:73-88 | It draws exactly when the redraw flag is set, the flag is false afterwards, and nothing else changes |
| Driver.RenderLoop.Frame | examples/rich-text/src/main.rs:68-134 | One iteration shapes the buffer, then draws exactly when the flag was set at its start or shaping marked it; it then handles the poll as Process does; afterwards the flag is set exactly when a call of this poll marked it |
| Driver.RenderLoop.RunIteration | examples/rich-text/src/main.rs:68-136 | One iteration of the main loop keeps Run's progress: the state is that of the events handled so far as one stream, the editor has received Received of the polls so far, and the remaining polls account for the rest of the draws and for the final redraw flag |
| Driver.RenderLoop.Run | examples/rich-text/src/main.rs:68-137 | Over successive polls, the pointer state, size and exit status are those of all the events handled as one stream; the editor receives exactly Received, whose actions are those of the stream; the number of draws is exactly DrawCount; the redraw flag left pending for the next iteration is exactly FinalDirty: set when the last iteration's calls marked the buffer |
| EditorSink.Editor.constructor | examples/rich-text/src/main.rs:39-45 | The editor starts with no calls received and the window's size as the buffer size |
| EditorSink.Editor.Apply | examples/rich-text/src/main.rs:93-124 | `editor.action(a)`: the action is appended to the received calls, the size is unchanged, and the flag is raised when the library marks the call given the earlier calls |
| EditorSink.Editor.SetSize | examples/rich-text/src/main.rs:126-130 | The buffer width and height become exactly the given values, the size call is appended to the received calls, and the flag is raised when the library marks it given the earlier calls |
| EditorSink.Editor.ShapeAsNeeded | examples/rich-text/src/main.rs:72 | The shaping pass is appended to the received calls, the size is unchanged, and the flag is raised when the library marks it given the earlier calls |
| EditorSink.Editor.SetRedraw | examples/rich-text/src/main.rs:84 | The redraw flag becomes the given value and nothing else changes |

## Left out

- Display-scale computation and the initial window size (lines 18-37): floating point and the windowing backend.
- Window creation, `window.set`, `window.rect` and `window.sync`: display I/O. A draw is modelled only as an increment of `RenderLoop.draws`.
- `editor.draw`, `SwashCache`, `FontSystem` and `set_text`: library calls whose source is not part of this model. Shaping is modelled only as a call the editor receives, which may raise the flag under `marks`. The model assumes that drawing leaves the flag alone; the driver clears it right after drawing anyway.
- What each `Action` does inside the editor (cursor movement, insertion, selection): editing semantics belong to cosmic_text. The editor is a recorder of the calls it receives.
- Whether a call sets the redraw flag: library behaviour. It is the parameter `marks`, a function of the call and of every call received before it. The editor's state before the loop (the text set up at lines 39-59) is fixed, so that history determines the state. The initial flag is a constructor argument.
- Timing and pacing (`Instant::now`, `elapsed`, `thread::sleep`) and logging (`env_logger`, `log::…`, `dbg!`).
- `process::exit(0)` as a real process effect: Quit sets `status` to `Exited(0)` and no later event or iteration runs.
- The `as f32` conversion in `set_size`: sizes are kept as `u32` integers. Precision lost above 2^24 is not modelled.
- The loop itself never ends without a Quit. `Run` covers any finite prefix of its iterations, one poll per iteration.
- Driver.DrawCount: its own postconditions state only bounds. The exact draw behaviour is in its definition and in `Frame`, whose postconditions state per iteration that a draw happens exactly when the flag is set.
