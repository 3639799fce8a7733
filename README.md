# Conway's Game of Life on compute shaders: event channel, dispatch and ping-pong model

This project models the control logic of `cgol_compute/main.cpp`, a Game of Life that runs each
generation in a bgfx compute shader. It does not model the rendering. Two threads talk through
one queue:

- **The control thread** runs GLFW's message pump in `main`. Each turn `glfwPollEvents` runs the
  key and scroll callbacks, which push one Key or Scroll event per input. Then the turn pushes an
  Exit event when the window should close, and a Resize event when the window's size has changed.
- **The API thread** runs `runApiThread`. Each frame it first drains the queue and applies one
  handler per event to its view state: `showStats`, `exit`, `scroll`, `width` and `height`.
  Then it runs one compute pass that samples one texture and writes the other. It draws the
  texture just written and toggles `flip`.

The model is split into modules that follow those parts:

- `Events` (events.dfy): the four event kinds as one datatype. It also holds the GLFW key and
  action codes the dispatch tests, and C's `int` to `uint32_t` conversion.
- `View` (view.dfy): the per-event handler `Handle` as a pure function and the drain as its
  left fold `Drain`. `ViewAfter` gives the view state after `n` frames. The lemmas cover
  toggling, the scroll range, exit, resize and FIFO handling.
- `PingPong` (pingpong.dfy): the two textures and the roles `flip` gives them in each frame.
  A texture's content is abstracted to the number of generations since the seed, which gives
  the lock-step property.
- `Channel` (channel.dfy): the queue `s_apiThreadEvents` as a class over a `seq`.
- `ApiThread` (apithread.dfy): `runApiThread` as the class `ApiThreadLoop`, whose fields are its locals. The
  methods mirror the source loops: `DrainEvents` is the inner pop loop, `Dispatch` is one
  handler run, `Frame` is the compute-and-draw step and `Run` is the outer `while (!exit)`.
  Ghost logs record the roles of the textures in each frame, what each texture holds and the
  sizes passed to `bgfx::reset`.
- `ControlThread` (controlthread.dfy): the input callbacks (`RunCallback`) and the pump loop as
  methods (`Pump`, `Turn`). The spec function `PumpEvents` lists what the pump pushes. The lemmas
  cover what is pushed, and `PumpThenDrain` describes what the API thread ends up with after
  draining it.

## Model

| member | source | states |
|---|---|---|
| Events.ToU32 | cgol_compute/main.cpp:339-340 | `(uint32_t)` of an `int` keeps non-negative values and adds 2^32 to negative ones |
| Events.SizeOfInjective | cgol_compute/main.cpp:335-341 | two polled `int` sizes convert to the same `uint32_t` size only when they are equal |
| View.Initial | cgol_compute/main.cpp:192-197 | the API thread starts with the window size it was given, statistics off, no exit request and `scroll` 0, which is in range |
| View.Handle | cgol_compute/main.cpp:208-245 | handling one event keeps `scroll` among the tenths in [-1.8, 0], never clears `exit`, and moves `scroll` by at most one 0.1 step |
| View.Drain | cgol_compute/main.cpp:208-246 | a full drain keeps `scroll` in range and never clears `exit` |
| View.ViewAfter | cgol_compute/main.cpp:206-246 | the view state after any number of frames keeps `scroll` in range |
| View.ShowStatsFlipsIffF1Release | cgol_compute/main.cpp:212-213 | `showStats` changes if and only if the event is an F1 release, which flips it and changes nothing else |
| View.ToggleTwice | cgol_compute/main.cpp:212-213 | two F1 releases restore the view state |
| View.UpStep | cgol_compute/main.cpp:214-218 | Up-release adds 0.1 when the result is at most 0 and otherwise changes nothing: the step is refused, not saturated |
| View.DownStep | cgol_compute/main.cpp:219-223 | Down-release subtracts 0.1 when the result is at least -1.8 and otherwise changes nothing |
| View.ScrollBoundsAreNoOps | cgol_compute/main.cpp:214-223 | Up at 0 and Down at -1.8 leave the view state unchanged |
| View.ExitIffRequested | cgol_compute/main.cpp:225-228 | after one event `exit` is set if and only if it was already set or the event is Exit or Escape-release |
| View.ResizeStoresSize | cgol_compute/main.cpp:236-241 | a Resize stores the event's width and height and nothing else; a repeated Resize, or one carrying the current size, leaves the view state unchanged |
| View.SizeChangesOnlyOnResize | cgol_compute/main.cpp:209-244 | no event other than Resize changes `width` or `height` |
| View.InertEventsChangeNothing | cgol_compute/main.cpp:209-234 | Scroll events, unrecognised keys and actions other than release leave the whole view state unchanged |
| View.HandleIgnoresExit | cgol_compute/main.cpp:209-244 | a set `exit` flag does not change how the other fields react to an event |
| View.ExitOnlySetsExit | cgol_compute/main.cpp:225-243 | an Exit or an Escape release sets `exit` and leaves every other field of the view state unchanged |
| View.ResetsComeFromResizes | cgol_compute/main.cpp:236-238 | every size a drain passes to `bgfx::reset` is the size of a Resize event among those drained |
| View.NoResizeNoReset | cgol_compute/main.cpp:236-238 | a drain with no Resize event calls `bgfx::reset` nowhere |
| View.DrainAppend | cgol_compute/main.cpp:208-246 | draining `a + b` equals draining `a` and then `b`, so the drain is the left fold of the handler in FIFO order |
| View.DrainSnoc | cgol_compute/main.cpp:208-246 | the event popped last is handled last, on the state the earlier events left |
| View.ResetsAppend | cgol_compute/main.cpp:236-238 | the sizes passed to `bgfx::reset` by a concatenation of events are those of each part in order |
| View.DrainShowStats | cgol_compute/main.cpp:208-213 | after a drain `showStats` has flipped if and only if an odd number of F1 releases were drained |
| View.DrainExit | cgol_compute/main.cpp:208-246 | a drain ends with `exit` set if and only if it was set before or some drained event was Exit or Escape-release |
| View.DrainIgnoresExit | cgol_compute/main.cpp:208-246 | setting `exit` before a drain only adds `exit` to its result |
| View.ExitDoesNotStopDrain | cgol_compute/main.cpp:225-246 | events queued behind an exit request are still handled in the same drain, with the same result as without the request except for `exit` |
| View.DrainSize | cgol_compute/main.cpp:236-241 | after a drain `width` and `height` are those of the last Resize drained, or unchanged when there was none |
| View.RepeatedDown | cgol_compute/main.cpp:219-223 | from `k` tenths below 0, `n` Down releases reach `min(k + n, 18)` tenths below 0 and change nothing else |
| View.RepeatedUp | cgol_compute/main.cpp:214-218 | from `k` tenths below 0, `n` Up releases reach `max(k - n, 0)` tenths below 0 and change nothing else |
| View.ViewAfterIsDrain | cgol_compute/main.cpp:206-246 | the view state after `n` frames equals one drain of all the events the first `n` frames' drains saw, in order |
| View.ResetsAfterIsResets | cgol_compute/main.cpp:206-246 | the resets of the first `n` frames equal those of one drain of all the events those frames saw, in order |
| View.ExitStaysSet | cgol_compute/main.cpp:206-246 | once a frame's drain has set `exit`, it stays set in every later frame's view |
| PingPong.Roles | cgol_compute/main.cpp:263-277 | each frame writes a texture other than the one it samples and displays the one it writes; A is written exactly when `flip` is false |
| PingPong.StepBuffers | cgol_compute/main.cpp:263-277 | a compute pass leaves the sampled texture as it was |
| PingPong.FlipAfter | cgol_compute/main.cpp:205-283 | `flip` starts false and toggles once per frame, so it is true exactly after an odd number of frames |
| PingPong.Schedule | cgol_compute/main.cpp:263-283 | frame `k` (from 0) writes A and samples B when `k` is even and the reverse when it is odd; every frame displays the texture it writes |
| PingPong.BuffersAfter | cgol_compute/main.cpp:201-283 | after `k` frames neither texture holds a generation later than `k` |
| PingPong.Handoff | cgol_compute/main.cpp:263-283 | the texture written in frame `k` is the one sampled in frame `k + 1`, and the reverse |
| PingPong.FirstFrameReadsSeed | cgol_compute/main.cpp:201-205 | the first frame samples B, which holds the blitted copy of the seed written into A |
| PingPong.LockStep | cgol_compute/main.cpp:201-283 | after `k` frames the texture the next frame samples holds generation `k` and the other holds generation `k - 1`; the texture displayed by frame `k - 1` is the one sampled next |
| Channel.EventChannel.constructor | cgol_compute/main.cpp:32 | the queue starts empty |
| Channel.EventChannel.Push | cgol_compute/main.cpp:117 | a push appends the event at the back of the queue |
| Channel.EventChannel.PushAll | cgol_compute/main.cpp:117 | pushing a batch one event after another appends the whole batch, in order, at the back of the queue |
| Channel.EventChannel.Pop | cgol_compute/main.cpp:208 | a pop returns and removes the oldest event, or reports that none is pending and changes nothing |
| ApiThread.ApiThreadLoop.constructor | cgol_compute/main.cpp:192-205 | the thread starts from the initial view state, with A seeded, B a copy of it, `flip` false and no frames run |
| ApiThread.ApiThreadLoop.DispatchKey | cgol_compute/main.cpp:209-229 | the four key tests change the view state as `Handle` says for that Key event and leave the reset log, the textures and `flip` alone |
| ApiThread.ApiThreadLoop.Dispatch | cgol_compute/main.cpp:209-245 | handling the popped event changes the view state as `Handle` says, logs a `bgfx::reset` for a Resize and leaves the textures and `flip` alone |
| ApiThread.ApiThreadLoop.DrainEvents | cgol_compute/main.cpp:208-246 | the pop loop empties the queue, leaves the view state as the fold `Drain` of the queued events, logs one reset per Resize and keeps the invariant |
| ApiThread.ApiThreadLoop.Frame | cgol_compute/main.cpp:263-283 | one frame logs the roles `Roles(flip)`, toggles `flip`, leaves the displayed texture holding the newest generation and does not touch the view state |
| ApiThread.ApiThreadLoop.RunFrame | cgol_compute/main.cpp:206-283 | one iteration of the outer loop takes the view state and the reset log from their values after `n` frames to their values after `n + 1`, empties the queue and logs the frame's roles |
| ApiThread.ApiThreadLoop.Run | cgol_compute/main.cpp:206-286 | the outer loop runs one drain and one compute pass per frame. It stops after the first frame whose drain set `exit`, and that frame still computes. Without an exit request it runs every frame the input allows; with `exit` already set it runs none. The reset log grows by the resets of the frames run, and the queue is empty after any frame |
| ControlThread.Callback | cgol_compute/main.cpp:112-125 | the key callback makes a Key event and the scroll callback a Scroll event |
| ControlThread.Callbacks | cgol_compute/main.cpp:112-125 | one poll's callbacks push one event per input |
| ControlThread.CallbacksFromInput | cgol_compute/main.cpp:112-125 | the callbacks push Key and Scroll events only |
| ControlThread.RunCallback | cgol_compute/main.cpp:112-125 | a callback pushes the event built from its arguments at the back of the queue |
| ControlThread.TurnEvents | cgol_compute/main.cpp:328-342 | a turn pushes one event per callback input plus at most two of its own |
| ControlThread.TurnEventsSpec | cgol_compute/main.cpp:330-342 | a turn pushes Exit if and only if the window should close. It pushes a Resize with the new size converted to `uint32_t` if and only if the size differs from the previous turn's |
| ControlThread.Turn | cgol_compute/main.cpp:328-342 | one pump turn pushes the callbacks' events in input order, then Exit when the window should close, then a Resize when the size changed (`TurnEvents`), and reports whether the loop ends |
| ControlThread.Pump | cgol_compute/main.cpp:326-345 | the pump pushes every turn's events in turn order (`PumpEvents`) and ends with the last size it saw. It stops right after the turn that sees the close request, and no turn before that one sees it |
| ControlThread.OpenBeforeMeans | cgol_compute/main.cpp:327-333 | the turn-by-turn record that no close request was seen holds exactly when none of the first `k` polls reports one |
| ControlThread.PumpStep | cgol_compute/main.cpp:327-345 | the pump's events are the first turn's callback and check events, followed by the later turns' unless the first turn sees the close request |
| ControlThread.PumpUnrolls | cgol_compute/main.cpp:327-345 | while no turn has seen the close request, the pump's events are those of the turns run so far followed by those of the remaining turns, started from the size last seen |
| ControlThread.FinalSizeUnrolls | cgol_compute/main.cpp:335-336 | while no turn has seen the close request, the last size the pump sees is the one the remaining turns end with |
| ControlThread.PumpEnds | cgol_compute/main.cpp:327-345 | when the loop stops, the turns it ran pushed all of `PumpEvents` and the size last seen is `FinalSize` |
| ControlThread.ClosesStep | cgol_compute/main.cpp:330-333 | some poll asks to close if and only if the first one does or some later one does |
| ControlThread.ExitPushedIffClose | cgol_compute/main.cpp:330-333 | an Exit event is pushed if and only if some poll reports that the window should close |
| ControlThread.ExitLastOfClosingTurn | cgol_compute/main.cpp:328-342 | in the turn that sees the close request, the callbacks' events come before the Exit and only that turn's Resize can follow it |
| ControlThread.ExitComesLast | cgol_compute/main.cpp:330-342 | an Exit event is the last event pushed, or is followed only by the Resize of the same turn, so at most one is pushed |
| ControlThread.NoRepeatsCons | cgol_compute/main.cpp:335-342 | a size different from the start, followed by sizes each different from the one before, has no repeats |
| ControlThread.NoRedundantResize | cgol_compute/main.cpp:335-342 | every Resize pushed carries a size different from the previous one, the first from the starting size |
| ControlThread.LastSizeAppend | cgol_compute/main.cpp:335-342 | the last Resize size in a concatenation is the second part's, falling back to the first part's |
| ControlThread.CallbacksKeepSize | cgol_compute/main.cpp:112-125 | the callbacks' events do not change the size the API thread last learned |
| ControlThread.LastResizeIsFinalSize | cgol_compute/main.cpp:335-342 | the last Resize pushed carries the last size the pump saw, or there is none and the size never changed |
| ControlThread.InputEventsMembers | cgol_compute/main.cpp:112-125 | an event survives the filter if and only if it is among the events and is a Key or a Scroll |
| ControlThread.InputEventsAppend | cgol_compute/main.cpp:112-125 | the filter of a concatenation is the concatenation of the filters |
| ControlThread.InputEventsNone | cgol_compute/main.cpp:330-342 | the pump's own Exit and Resize events leave nothing after the filter |
| ControlThread.CallbacksAppend | cgol_compute/main.cpp:112-125 | the callbacks of two input runs push the first run's events, then the second's |
| ControlThread.InputEventsOfCallbacks | cgol_compute/main.cpp:112-125 | every event a callback pushes survives the filter |
| ControlThread.InputPassesThrough | cgol_compute/main.cpp:326-345 | the Key and Scroll events in the queue are exactly the callbacks' events for the input reported up to the closing turn, in order |
| ControlThread.PumpThenDrain | cgol_compute/main.cpp:319-345 | if the API thread drains everything the pump pushed, it then holds the last size the pump saw, and its `exit` is set if and only if the window was asked to close or an Escape release was among the reported input |
| ControlThread.ClosingResizeCanBeLost | cgol_compute/main.cpp:206-208 | a drain that pops the closing turn's Exit before that turn's Resize arrives sets `exit`, and the thread ends without the last size the pump saw |
| ControlThread.EscapeStopsOnlyTheApiThread | cgol_compute/main.cpp:225-228 | an Escape release with no close request sets the API thread's `exit` while the pump, which stops only on the close request, goes on |

## Left out

- bgfx and GLFW calls (`init`, `createTexture2D`, `dispatch`, `setImage`, `setTexture`, `submit`, `frame`, `renderFrame`, `reset`, `glfwPollEvents`, `glfwGetWindowSize`, `glfwWindowShouldClose`) are foreign calls. The model does not make them. What GLFW reports becomes the `Poll` parameter: the input the key and scroll callbacks receive during `glfwPollEvents`, then the close flag and the window size, and what bgfx is asked to do goes into ghost logs (`frames`, `buffers`, `resets`).
- The Game of Life transition rule and the seed pattern live in compiled shaders (`compute.bin`, `start.bin`) that are not part of this model. A texture's content is therefore abstracted to its generation number, and no cell-level behaviour is stated.
- The failure of `bgfx::init`, which makes the thread return 1 before any frame, is not modelled. It depends on a foreign call, and the model starts after a successful initialisation.
- The lock-free single-producer single-consumer queue and the two OS threads are not modelled. The queue is a sequential `seq`. The concurrent pushes that land between two drains are a parameter of `ApiThread.Run` (`arrivals`, one batch per frame).
- The outer loops of both threads run until exit in the source. `ApiThread.Run` and `ControlThread.Pump` stop when their input sequences run out, so a run with no exit request is modelled up to a finite number of frames or turns.
- `loadShader`'s file input and its defects are not modelled. When the open fails nothing is read, and `bgfx::copy(data, size+1)` then copies from the uninitialised pointer `data` with the uninitialised `size`, and `delete[]` frees that pointer. When the open succeeds, the copy reads one byte past the buffer.
- The projection and view matrices, the quad's vertices and the debug text are floating-point graphics that feed only the GPU.
- `scroll` is a `double` in the source and a `real` here. The bound invariant is exact either way, because each guard tests the value it then assigns. The claim that the reachable values are exactly the nineteen tenths holds only for the `real` model, since sums of the `double` 0.1 are inexact.
- View.RepeatedDown, View.RepeatedUp: stated for exact tenths, not for IEEE 754 binary64. In the source's `double` arithmetic, Down from 0 steps only 17 times and stops at -1.7000000000000004, because the 18th candidate, -1.8000000000000005, fails the guard `>= -1.8`. Up from there steps 17 times and ends at about -2.8e-17 rather than 0. So the floor -1.8 is never reached, and the model's 18 steps to it are a `real` result only.
- PingPong.FirstFrameReadsSeed, PingPong.LockStep: they take the bgfx calls in program order. The source submits the seeding (`setImage`, `dispatch` and `blit` at cgol_compute/main.cpp:201-203) on view 1, and each frame's compute and draw on view 0 (lines 267, 275 and 281). bgfx executes a frame's work by view id, so view 0 runs before view 1 within the first frame. The lemmas hold only under the program-order assumption the model makes.
- Inputs other than keys and scrolling have no callback in the source, and the model has none. The key callback drops the scancode and the modifiers, and the scroll callback drops the vertical offset; the model drops them the same way (ControlThread.Callback).
- ControlThread.PumpThenDrain: its conclusion holds only for a complete drain of everything the pump pushed. The API thread stops after the first frame whose drain set `exit` (cgol_compute/main.cpp:206). A drain that pops the closing turn's Exit before that turn's Resize arrives ends the thread without that size (ControlThread.ClosingResizeCanBeLost), and nothing pushed after an Escape release is drained. View.ViewAfterIsDrain connects what `ApiThread.ApiThreadLoop.Run` ensures to a drain of the events the frames it ran actually saw.
- The pump's loop stops only on the close request, while the API thread also stops on an Escape release (ControlThread.EscapeStopsOnlyTheApiThread). The pump's turns after that point are modelled; what the API thread does not consume is not.
- The Scroll event's payload is carried but unused, as in the source, where its handler is commented out.
- The seeding blit copies a `width` by `height` region rather than the whole `size` by `size` texture, and the viewport casts to `uint16_t`. Both are GPU-side arguments, and the model treats B as a full copy of the seed.
- A Resize whose size equals the stored one still calls `bgfx::reset` in the code. The model follows the code: `resets` grows by one entry per Resize event, and only the stored fields are idempotent (View.ResizeStoresSize). The producer never sends such a Resize anyway (ControlThread.NoRedundantResize).
- The Up and Down keys refuse a step that would leave [-1.8, 0]; they do not clamp to the bound. The model follows the code. On exact tenths the two rules agree (View.RepeatedDown, View.RepeatedUp), but on `double` values they do not, as stated above.
- Heap allocation and `delete` of events and the casts from `EventType*` are replaced by a value datatype, so events cannot leak or be freed twice.
