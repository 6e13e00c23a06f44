# Manual jogging runtime, modelled in Dafny

`ManualRuntime` drives a CNC tool by hand. A pendant or the dashboard sends `start`,
`maint`, `stop` and `fixed` commands, and the runtime turns them into G-code for the G2
motion driver. The model covers four pieces of logic:

- **A dead-man's-switch lease.** `startMotion` opens a motion stream. Every 250 ms
  `renewMoves` writes one block of nine lines, a `G91 F<speed>` line and then eight
  segment moves, but only if a `maintainMotion` has renewed the lease since the last
  tick. A tick that finds the lease lapsed stops the motion.
- **A single-stream rule.** A stream is opened only when none is held.
- **A queue of fixed moves.** These are deferred while the tool moves and re-issued
  one per completion.
- **A status classifier.** Fatal codes kill the machine. Limit exception 203 moves
  the runtime to `stopped`. Any other report is merged into the machine's status
  record.

The project has five modules.

- `Strings` models the three string operations the runtime applies:
  - `toUpperCase` on ASCII;
  - `indexOf`;
  - the one-shot replace `msg.replace(/\[[^\[\]]*\]/, '')`, with the leftmost
    bracketed token and its uniqueness stated exactly.
- `ManualSpec` holds the state of one runtime as a `Session` value.
  - The driver, the machine and the event loop are one `Env` value inside it. What the
    runtime reads from them is held there: the state name, the status record, the
    driver's last exception and its status codes. So are the continuations still
    pending.
  - What the runtime asks of the driver and machine is appended to an effect log:
    `Write(line)`, `Prime`, `Quit`, `EndStream`, `RunList(lines)`, `SetState(name,
    error)`, `Die`, `Emit` and the others.
  - Each JavaScript function, and each asynchronous continuation, is one transition
    function:
    - the `zl` acknowledgement of `driver.set('zl', 0, …)`;
    - the completion of `runStream`;
    - the completion of `runList`;
    - the `setTimeout` tick;
    - the `setImmediate` re-issue;
    - the driver recording an exception (`Fault`), which `_limit` later reads.
  - Each continuation can only happen while it is pending (`Enabled`). A command,
    `pause`, `resume` or `quit`, or a driver exception can only happen once `connect`
    has attached a machine and a driver (`Env.attached`). `disconnect` keeps them
    attached.
  - A JavaScript `throw` is a `Step` that carries the error; the state changes made
    before the throw are kept.
  - Moves are the datatype `Move(kind, axis, dist, feed)` with `real` distances, not
    formatted strings.
- `Manual` holds the class `ManualRuntime`.
  - Its fields are the runtime's own fields plus `env`.
  - Each method updates those fields in place, the way the source does: the eight
    segments are written in a `for` loop, and the status merge walks the keys in a
    `while` loop.
  - Each method is proved to leave exactly the state that the `ManualSpec`
    transition computes.
- `ManualProperties` proves what the runtime promises about those transitions:
  - the lease;
  - the single stream;
  - the fixed-move queue;
  - limit handling, status merging, dispatch and disconnection;
  - invariants that every event keeps.
- `ManualScenarios` follows concrete runs:
  - a 600 mm/min jog;
  - a soft-limit report;
  - four event orders that the source's code does not guard against.

Behaviour of the code that a reader might not expect, which the model keeps as
written:

- `connect` sets the machine state to `manual` through `machine.setState` directly,
  not through `_changeState`. So after connecting `ok_to_disconnect` is still true
  (`runtime/manual/index.js:22-23`).
- On the change to `idle`, `completeCallback` is cleared but never called
  (`runtime/manual/index.js:53-54`).
- The limit message is not trimmed: `"[G1] soft limit"` becomes `" soft limit"`.
- `startMotion` with a different heading while moving does nothing
  (`runtime/manual/index.js:152-154`).
- `connect` initialises `current_axis` and `current_speed`. The rest of the code uses
  `currentAxis` and `currentSpeed`, and the model uses those, so connecting does not
  reset the heading.
- The fixed-move queue keeps its order under every event but one. When a re-issue
  finds the runtime moving, the re-issued move goes back to the tail of the queue
  (`PendingMovesStayInOrder`, `FixedMovesOvertake`). So the queue does not always
  drain in the order the moves were requested.
- `fixedMove` accepts an axis when its upper-cased name occurs anywhere in
  "XYZABCUVW" (`runtime/manual/index.js:226`), so "" and "XY" pass, and an axis that
  fails leaves `moving` set with no list to clear it. The model runs this check as
  written (`ManualSpec.FixedMove`); the single-letter check is `FixedMoveCorrected`,
  used only by the Findings lemmas.
- The stopped state stops commands and stream writes, not queued fixed moves. The
  `setImmediate` re-issue calls `fixedMove` directly, past the stopped check of
  `executeCode`, so a move queued before a limit is submitted after it
  (`QueuedMoveRunsAfterLimit`).

## Model

| member | source | states |
|---|---|---|
| `Strings.ToUpper` | runtime/manual/index.js:225 | the upper-cased name has the same length, each lower-case letter becomes its capital and every other character is kept |
| `Strings.ToUpperIdempotent` | runtime/manual/index.js:225 | upper-casing an upper-cased name changes nothing |
| `Strings.IndexOf` | runtime/manual/index.js:226 | `indexOf` returns the first position where the needle occurs, and -1 exactly when it occurs nowhere |
| `Strings.FindToken` | runtime/manual/index.js:67 | the scan finds the leftmost match of `\[[^\[\]]*\]`, or reports correctly that there is none |
| `Strings.StripFirstToken` | runtime/manual/index.js:67 | the replace cuts out exactly the leftmost bracketed token and keeps the rest in order without trimming; a string without a token is returned unchanged |
| `Manual.ManualRuntime.constructor` | runtime/manual/index.js:9-13 | a new runtime is not connected, not moving, holds no stream and has an empty fixed-move queue |
| `Manual.ManualRuntime.Connect` | runtime/manual/index.js:19-37 | connecting records the driver codes and the status record, sets the state to manual, allows disconnecting, clears `moving`, the lease and the callback, and subscribes to status reports |
| `Manual.ManualRuntime.Disconnect` | runtime/manual/index.js:39-47 | disconnecting unsubscribes and goes idle when allowed and no stream is held; otherwise it throws and changes nothing |
| `Manual.ManualRuntime.ChangeState` | runtime/manual/index.js:49-62 | the change to idle allows disconnecting, drops the callback and ends any stream; any other state forbids disconnecting |
| `Manual.ManualRuntime.Limit` | runtime/manual/index.js:64-75 | returns true exactly when the last exception has code 203, and then leaves the stopped state that `_limit` produces |
| `Manual.ManualRuntime.OnG2Status` | runtime/manual/index.js:78-99 | the key-by-key `for…in` merge loop leaves the status record equal to the merge, followed by the emit; fatal and limit cases as in `OnStatus` |
| `Manual.ManualRuntime.ExecuteCode` | runtime/manual/index.js:102-133 | stores the callback, ignores every command while stopped, and dispatches `start`, `stop`, `maint` and `fixed` |
| `Manual.ManualRuntime.MaintainMotion` | runtime/manual/index.js:135-138 | sets the lease and nothing else |
| `Manual.ManualRuntime.StartMotion` | runtime/manual/index.js:144-165 | records the heading and asks for the Z lift to be zeroed when not moving; while moving, renews the lease only for the same heading |
| `Manual.ManualRuntime.ZlAcknowledged` | runtime/manual/index.js:165-186 | the acknowledgement opens the stream, goes to manual, sets `moving` and the lease and renews at once; with a stream already held it throws |
| `Manual.ManualRuntime.StreamFinished` | runtime/manual/index.js:171-181 | the end of the stream clears `moving`, the lease and the stream, goes idle and restores the Z lift |
| `Manual.ManualRuntime.RenewMoves` | runtime/manual/index.js:190-206 | the feed line and the eight segments written by the loop are the renewal block, followed by a prime and a re-armed timer; with the lease lapsed it stops the motion instead |
| `Manual.ManualRuntime.TimerFired` | runtime/manual/index.js:202 | the armed `setTimeout` fires and runs one renewal |
| `Manual.ManualRuntime.StopMotion` | runtime/manual/index.js:208-217 | the limit check comes first; otherwise a moving runtime drops the lease, ends the stream and quits |
| `Manual.ManualRuntime.FixedMove` | runtime/manual/index.js:219-232 | a move requested while moving is queued; otherwise `moving` is set, and an upper-cased axis that occurs in "XYZABCUVW" (the source's substring test) gets its two-line list |
| `Manual.ManualRuntime.ListFinished` | runtime/manual/index.js:233-241 | list completion clears `moving` and schedules the oldest queued move |
| `Manual.ManualRuntime.RunImmediate` | runtime/manual/index.js:239 | the scheduled re-issue runs `fixedMove` on the oldest scheduled request |
| `Manual.ManualRuntime.Pause` | runtime/manual/index.js:246-248 | asks the driver for a feed hold and touches no runtime field |
| `Manual.ManualRuntime.Quit` | runtime/manual/index.js:250-252 | asks the driver to quit and touches no runtime field |
| `Manual.ManualRuntime.Resume` | runtime/manual/index.js:254-256 | asks the driver to resume and touches no runtime field |
| `ManualProperties.RenewDistanceIsSpeedOver48` | runtime/manual/index.js:164 | `speed*(T_RENEW/60000)*SAFETY_FACTOR` is speed / 48, with T_RENEW = 250 and SAFETY_FACTOR = 5 |
| `ManualProperties.RepeatedMoveTravel` | runtime/manual/index.js:197-200 | n copies of one move travel n times its distance |
| `ManualProperties.RenewalBlockShape` | runtime/manual/index.js:195-200 | a renewal is a feed line at the jog speed, then RENEW_SEGMENTS = 8 identical moves on the jog axis, which together travel `currentDirection * renewDistance` |
| `ManualProperties.LeaseTick` | runtime/manual/index.js:192-202 | a tick that holds the lease consumes it, appends exactly the 9 writes of the block and a prime, re-arms the timer and changes nothing else |
| `ManualProperties.LeaseLapse` | runtime/manual/index.js:203-205 | a tick without the lease writes nothing, arms no timer and is `stopMotion` |
| `ManualProperties.TwoTicksWithoutMaintainEndMotion` | runtime/manual/index.js:190-217 | two ticks in a row, with no event at all between them, end the jog: no timer, no lease, and the stream ends and the driver quits (or the limit stops it) |
| `ManualProperties.LeaseOnlyRenewedByCommand` | runtime/manual/index.js:135-138 | over every event, only a `maint` or `start` command sets a lapsed lease again |
| `ManualProperties.LeaseStaysLapsed` | runtime/manual/index.js:135-138 | a lapsed lease stays lapsed through any run of events that holds no `maint` or `start` command |
| `ManualProperties.DeadMansSwitch` | runtime/manual/index.js:190-206 | after a renewing tick, whatever events follow, if none is a `maint` or `start` command the next tick writes nothing, arms no timer and is `stopMotion` |
| `ManualProperties.MaintainedLeaseRenews` | runtime/manual/index.js:190-206 | with a maintain between two ticks, the second tick writes another full block |
| `ManualProperties.FreshStart` | runtime/manual/index.js:144-165 | a start while not moving sets the direction to the sign and the speed to the magnitude, sets the renewal distance to magnitude / 48, and only asks for the Z lift; no stream, write or change to `moving` |
| `ManualProperties.StartWhileMoving` | runtime/manual/index.js:148-154 | a start while moving is exactly `maintainMotion` for the same axis and speed magnitude, and changes nothing otherwise |
| `ManualProperties.AckOpensSingleStream` | runtime/manual/index.js:165-186 | the acknowledgement throws and changes nothing when a stream is held; otherwise it opens one, goes to manual, is moving and writes one block |
| `ManualProperties.StreamOpenedOnlyByAck` | runtime/manual/index.js:167-184 | no event but a Z-lift acknowledgement that finds no stream ever opens one |
| `ManualProperties.StreamFinishEndsJog` | runtime/manual/index.js:171-181 | the end of the stream leaves the runtime idle, not moving, without a lease or a stream, with the queue untouched |
| `ManualProperties.FixedMoveWhileMoving` | runtime/manual/index.js:220-222 | a fixed move while moving appends to the queue and changes nothing else |
| `ManualProperties.FixedMoveWhenStill` | runtime/manual/index.js:223-232 | a fixed move while still sets `moving`; an axis whose upper-cased name occurs in "XYZABCUVW" gets exactly `[G91, G1 …]` for a nonzero speed and `[G91, G0 …]` otherwise; any other axis gets nothing and `moving` stays set |
| `ManualProperties.ListFinishedSchedulesHead` | runtime/manual/index.js:233-241 | completion clears `moving`, moves the head of the queue to the re-issue schedule, and keeps the pending moves in order |
| `ManualProperties.PendingMovesStayInOrder` | runtime/manual/index.js:219-244 | every event keeps the pending fixed moves in order, appends one at the tail or runs the oldest; the one exception is a re-issue that finds the runtime moving, which rotates the oldest move to the tail |
| `ManualProperties.LimitHandling` | runtime/manual/index.js:64-75 | on code 203: no lease, not moving, exception cleared, stopped with the stripped message, disconnecting forbidden; otherwise nothing changes |
| `ManualProperties.LimitHandledOnce` | runtime/manual/index.js:70 | once the exception is cleared, handling the limit again does nothing |
| `ManualProperties.StopMotionCases` | runtime/manual/index.js:208-217 | `stopMotion` is the limit handling when a limit is pending, does nothing when not moving, and otherwise drops the lease, ends the stream and quits |
| `ManualProperties.MergeOverwritesOnlyKnownKeys` | runtime/manual/index.js:92-96 | the merge adds or removes no key, takes the report's value for keys present in both, and keeps the others |
| `ManualProperties.MergeLaterWins` | runtime/manual/index.js:92-96 | merging two reports in turn equals merging their union with the later one winning, so the merge is idempotent |
| `ManualProperties.StatusClassification` | runtime/manual/index.js:78-99 | a fatal report only asks the machine to die; an alarm with a limit is only the limit handling; anything else merges and emits the merged record |
| `ManualProperties.StoppedIgnoresCommands` | runtime/manual/index.js:103-110 | while stopped, every command only stores the callback |
| `ManualProperties.UnrecognisedCommandIgnored` | runtime/manual/index.js:129-131 | an unknown command only stores the callback |
| `ManualProperties.MachineAttachedByConnect` | runtime/manual/index.js:9-21 | the machine and driver are null until `connect` sets them and nothing clears them, so a command, pause, resume or quit happens only after a `connect` |
| `ManualProperties.DisconnectGuard` | runtime/manual/index.js:39-47 | disconnect throws exactly when disconnecting is not allowed or a stream is held; otherwise it unsubscribes and goes idle |
| `ManualProperties.DisconnectAllowedExactlyWhenIdle` | runtime/manual/index.js:49-62 | after a state change, disconnecting is allowed exactly when the new state is idle, and the change to idle drops the callback |
| `ManualProperties.LogOnlyGrows` | runtime/manual/index.js:102-244 | no event rewrites an effect already performed |
| `ManualProperties.HeadingStaysValid` | runtime/manual/index.js:146-164 | every event keeps the heading consistent: speed a magnitude, direction ±1, renewal distance speed / 48 |
| `ManualProperties.SegmentLength` | runtime/manual/index.js:195 | under a consistent heading every segment is speed / 384 long |
| `ManualProperties.StoppedHoldsNoLeaseKept` | runtime/manual/index.js:64-75 | every event keeps the invariant that the stopped state holds no lease |
| `ManualProperties.StoppedWritesNothing` | runtime/manual/index.js:106-110 | while stopped, no event except a pending Z-lift acknowledgement writes into a stream (stream writes only: a re-issued fixed move still submits its list, see `QueuedMoveRunsAfterLimit`) |
| `ManualProperties.AxisCheckAcceptsSubstrings` | runtime/manual/index.js:226 | as written, the axis check accepts "" and "XY", which name no axis |
| `ManualProperties.FixedMoveOnTwoLettersDiffers` | runtime/manual/index.js:225-231 | as written, a fixed move on "xy" submits a move on axis "XY"; the corrected one submits nothing |
| `ManualProperties.AxisChecksAgreeOnOneCharacter` | runtime/manual/index.js:226 | on one-character names the written check and the corrected check agree |
| `ManualProperties.FixedMoveNamesOneAxis` | runtime/manual/index.js:224-232 | every list the corrected fixed move (`FixedMoveCorrected`) submits moves exactly one axis, named by one of X Y Z A B C U V W |
| `ManualScenarios.JogAt600` | runtime/manual/index.js:144-202 | a 600 mm/min jog on X renews 12.5 mm as a feed line and eight 1.5625 mm segments |
| `ManualScenarios.JogBackwards` | runtime/manual/index.js:146-164 | a jog at -300 mm/min on Y has direction -1, speed 300 and segments of -0.78125 mm |
| `ManualScenarios.SoftLimitReport` | runtime/manual/index.js:86-87 | an alarm with exception 203 "[G1] soft limit" stops the runtime with " soft limit" and leaves the status record alone |
| `ManualScenarios.StripLimitMessage` | runtime/manual/index.js:67 | the replace turns "[G1] soft limit" into " soft limit" |
| `ManualScenarios.OrphanedStream` | runtime/manual/index.js:165-241 | a fixed move sent before the Z-lift acknowledgement leaves a stream with no motion and no timer; disconnecting and the next jog's acknowledgement both throw |
| `ManualScenarios.FixedCommandStarts` | runtime/manual/index.js:219-232 | a `fixed` command, through `executeCode`, for one upper-case axis letter, neither stopped nor moving, stores the callback, sets `moving` and submits `[G91, move]` as one list, changing nothing else |
| `ManualScenarios.FixedCommandWaits` | runtime/manual/index.js:219-222 | a `fixed` command, through `executeCode`, while moving and not stopped stores the callback and appends the request to the queue, changing nothing else |
| `ManualScenarios.FixedMovesOvertake` | runtime/manual/index.js:219-244 | a move requested between a completion and its re-issue runs first, and the re-issued move is queued behind a later one |
| `ManualScenarios.LateAckLeavesStopped` | runtime/manual/index.js:165-170 | an acknowledgement still pending when a limit stops the runtime moves it back to manual and opens a stream |
| `ManualScenarios.QueuedMoveRunsAfterLimit` | runtime/manual/index.js:233-241 | a move queued before a limit is re-issued after it and submits its list while the runtime is stopped, where a `fixed` command would be ignored |
| `ManualScenarios.ConnectThenDisconnect` | runtime/manual/index.js:19-47 | a connected runtime may disconnect, and disconnecting unsubscribes and goes idle |

## Left out

- Real time is not modelled. `setTimeout` and `setImmediate` become pending
  continuations (a tick count and a FIFO of re-issues) that may fire in any order
  relative to other events; the 250 ms period is only the constant T_RENEW.
- Node streams, `runStream`, `runList` and `driver.set` are not modelled as objects.
  Each is an effect in the log plus a completion event that the driver may deliver
  at any later time.
- The driver's own exception bookkeeping is not modelled. The `Fault` event records
  an exception at any time, and only `_limit` clears it; when the driver itself
  replaces or clears one is not part of this model.
- `config.driver.restoreSome(['zl'])` is foreign configuration I/O. It appears only as
  the effect `RestoreParams(["zl"])`, and its callback is not modelled.
- Number formatting is not modelled: `toFixed(3)` and `toFixed(5)` render floats as
  decimals. Speeds and distances stay `real` values in the `Line` datatype, and
  floating-point rounding is not modelled.
- `toUpperCase` is modelled on ASCII letters only; other characters are kept as they
  are.
- Logging and `console.log` are not modelled.
- The `machine` and `driver` objects are not modelled beyond the values the runtime
  reads from them and the calls it makes on them. In particular, a second `connect`
  registers a second status listener, which the model does not capture; it holds
  only a `listening` flag.
- Missing or non-numeric arguments are not modelled: `undefined` or `NaN` speeds, or
  a `null` axis given to `fixedMove`, which would throw in `toUpperCase`. Commands
  carry typed fields.
- A write into a stream that has already ended, which Node reports as an error, is
  not modelled. A renewal that finds no stream throws `NullReference` before writing
  anything, as `this.stream.write` does on `null`.
- `debug.js` is not part of this model: it only sets up a file watcher and its reload
  body does nothing.
- `runtime/opensbp/parser.js` is not part of this model: it wraps a generated parser
  that is not available.
- The machine state name is only `idle`, `manual` or `stopped`; other states are
  never set by this runtime.
- `ManualSpec.Enabled`: a command, `pause`, `resume` or `quit` before `connect` is not
  an event of the model. In the source `this.machine` and `this.driver` are still
  `null` then, so the call throws a TypeError (`executeCode` after storing the
  callback); that throw is not modelled.
- `ManualSpec.ExecuteCode`: the stopped check reads `env.state`. That field stands
  for `machine.status.state`, and the model assumes two things about it. First, it
  holds the name last passed to `machine.setState`. Second, no driver status report
  carries a `state` key, because the merge in `_onG2Status` would overwrite it
  (`runtime/manual/index.js:92-96`). The merged record `env.status` is kept apart
  from `env.state`, so a report cannot change what the stopped check sees.
  `StoppedIgnoresCommands`, `StoppedHoldsNoLeaseKept` and `StoppedWritesNothing`
  rest on these two assumptions.

## Findings

| source | as written | input that shows it | evidently intended | confidence | as-written member | corrected member |
|---|---|---|---|---|---|---|
| runtime/manual/index.js:226 | `'XYZABCUVW'.indexOf(axis) >= 0` is a substring test, so it accepts the empty name and runs of adjacent letters | `fixedMove("xy", 100, 5)` while not moving submits `G1 XY5.00000 F100.000` | accept exactly one of the axis letters X Y Z A B C U V W | high; not executed | `ManualProperties.FixedMoveOnTwoLettersDiffers` (on `ManualSpec.FixedMove`, which the model runs, with `ManualProperties.AxisCheckAcceptsSubstrings`) | `ManualProperties.FixedMoveNamesOneAxis` (on `ManualSpec.FixedMoveCorrected`, which uses `ManualSpec.IsAxisLetter`) |
