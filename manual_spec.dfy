/** The manual jogging runtime as a pure state machine.

    `Session` holds every field of a connected `ManualRuntime` together with the parts
    of the driver and the machine the runtime reads or writes (the recorded state name,
    the machine's status record, the driver's last exception), the continuations that
    are still pending (acknowledgements, timers, list completions, re-issues) and a log
    of the effects the runtime asked the driver and the machine to perform.
    Each JavaScript function and each asynchronous continuation of the runtime is one
    transition function below; `Manual.ManualRuntime` implements the same transitions
    imperatively and is proved against them. */
module ManualSpec {

  import opened Wrappers
  import opened Strings

  // ---------------------------------------------------------------------------
  // Constants
  // ---------------------------------------------------------------------------

  /** Renewal period in milliseconds. */
  const T_RENEW: int := 250
  /** How many renewal periods of travel each renewal queues. */
  const SAFETY_FACTOR: int := 5
  /** How many equal moves each renewal is split into. */
  const RENEW_SEGMENTS: int := 8
  /** Exception code the motion controller reports for a soft or hard limit. */
  const LIMIT_CODE: int := 203
  /** The axis letters a fixed move accepts. */
  const AXES: string := "XYZABCUVW"
  /** Reason passed to `machine.die` on a fatal controller state. */
  const DIE_REASON: string := "A G2 exception has occurred. You must reboot your tool."
  /** The controller parameter (Z lift) zeroed before a jog and restored after it. */
  const Z_LIFT: string := "zl"

  // ---------------------------------------------------------------------------
  // Data
  // ---------------------------------------------------------------------------

  datatype StateName = Idle | Manual | Stopped

  /** G0 (rapid) or G1 (feed-rate controlled) motion. */
  datatype MoveKind = Rapid | Linear

  /** One G-code directive. `Relative` is `G91`; `RelativeFeed(f)` is `G91 F<f>`;
      `Move(k, a, d, f)` is `G0`/`G1` on axis `a` by `d`, with ` F<f>` when `f` is given.
      Numbers stay exact: the decimal rendering is not modelled. */
  datatype Line =
    | Relative
    | RelativeFeed(rate: real)
    | Move(kind: MoveKind, axis: string, dist: real, feed: Option<real>)

  /** A value of the machine's status record or of a driver status report. */
  datatype Value = Number(n: real) | Text(t: string) | Flag(b: bool)

  /** The numeric `stat` values the driver names STAT_INTERLOCK, STAT_SHUTDOWN,
      STAT_PANIC and STAT_ALARM; they belong to the driver and are fixed at connect. */
  datatype DriverCodes = DriverCodes(interlock: real, shutdown: real, panic: real, alarm: real)

  /** The driver's last recorded exception: its status code and message. */
  datatype DriverException = DriverException(st: int, msg: string)

  /** What the runtime asks the driver or the machine to do, in order. */
  datatype Effect =
    | SetParam(key: string, value: real)       // driver.set(key, value, ack)
    | RunStream                                // driver.runStream(stream)
    | Write(line: Line)                        // stream.write(line)
    | Prime                                    // driver.prime()
    | EndStream                                // stream.end()
    | Quit                                     // driver.quit()
    | FeedHold                                 // driver.feedHold()
    | Resume                                   // driver.resume()
    | RunList(lines: seq<Line>)                // driver.runList(lines)
    | ClearException                           // driver.clearLastException()
    | SetState(name: StateName, error: Option<string>)  // machine.setState(this, name, {error})
    | Die(reason: string)                      // machine.die(reason)
    | Emit(status: map<string, Value>)         // machine.emit('status', status)
    | RestoreParams(keys: seq<string>)         // config.driver.restoreSome(keys)

  datatype FixedRequest = FixedRequest(axis: string, speed: real, distance: real)

  /** `executeCode`'s `code` argument, by its `cmd` tag. */
  datatype Command =
    | Start(axis: string, speed: real)
    | Stop
    | Maint
    | Fixed(axis: string, speed: real, dist: real)
    | Unrecognised(cmd: string)

  /** Errors the runtime throws. */
  datatype RuntimeError =
    | StreamExists       // "Trying to create a new motion stream when one already exists!"
    | CannotDisconnect   // "Cannot disconnect while manually driving the tool."
    | NullReference      // a TypeError: writing to an absent stream, or no heading set

  /** The driver, the machine and the event loop as the runtime sees them. */
  datatype Env = Env(
    listening: bool,                 // the status handler is registered with the driver
    attached: bool,                  // connect has set this.machine and this.driver
    codes: DriverCodes,
    state: StateName,                // the state name last recorded with machine.setState
    status: map<string, Value>,      // machine.status
    lastException: Option<DriverException>,
    pendingAcks: nat,                // driver.set('zl', 0) acknowledgements not yet delivered
    pendingTicks: nat,               // renewal timers armed and not yet fired
    pendingLists: nat,               // driver.runList completions not yet delivered
    immediates: seq<FixedRequest>,   // fixed moves re-issued with setImmediate, in order
    log: seq<Effect>)                // effects performed so far

  /** The fields of a `ManualRuntime` and its environment. */
  datatype Session = Session(
    okToDisconnect: bool,
    moving: bool,
    keepMoving: bool,
    stream: bool,                    // an open motion stream is held
    currentAxis: Option<string>,
    currentSpeed: real,
    currentDirection: real,
    renewDistance: real,
    fixedQueue: seq<FixedRequest>,
    completeCallback: Option<nat>,   // an opaque callback token
    env: Env)

  /** The result of a transition that may throw: the state it leaves and the error. */
  datatype Step = Step(next: Session, thrown: Option<RuntimeError>)

  // ---------------------------------------------------------------------------
  // Derived quantities
  // ---------------------------------------------------------------------------

  function Abs(x: real): (r: real) { if x < 0.0 then -x else x }

  /** Distance queued per renewal at `speed` units per minute. */
  function RenewDistance(speed: real): (r: real)
  {
    speed * (T_RENEW as real / 60000.0) * SAFETY_FACTOR as real
  }

  /** The directives one renewal writes: the feed line, then RENEW_SEGMENTS equal moves. */
  function RenewalBlock(speed: real, axis: string, direction: real, distance: real): (r: seq<Line>)
  {
    [RelativeFeed(speed)] +
    seq(RENEW_SEGMENTS, _ => Move(Linear, axis, direction * (distance / RENEW_SEGMENTS as real), None))
  }

  /** Each line written into the stream, as effects. */
  function Writes(lines: seq<Line>): (r: seq<Effect>)
    ensures |r| == |lines|
    ensures forall k :: 0 <= k < |lines| ==> r[k] == Write(lines[k])
  {
    seq(|lines|, k requires 0 <= k < |lines| => Write(lines[k]))
  }

  /** The two-line program of a fixed move on an already upper-cased axis. */
  function FixedProgram(axis: string, speed: real, distance: real): (r: seq<Line>)
  {
    [Relative, Move(if speed != 0.0 then Linear else Rapid, axis, distance, Some(speed))]
  }

  /** The axis check `fixedMove` evidently intends: exactly one known axis letter. */
  predicate IsAxisLetter(axis: string)
  {
    |axis| == 1 && axis[0] in AXES
  }

  /** The axis check as written: `'XYZABCUVW'.indexOf(axis) >= 0`, which holds for every
      substring of the axis letters, the empty string included. */
  predicate AxisAcceptedAsWritten(axis: string)
  {
    IndexOf(AXES, axis, 0) >= 0
  }

  datatype StatusKind = Fatal | Alarm | Informational

  /** The `stat` field of a status report, when it is a number. */
  function Stat(report: map<string, Value>): (r: Option<real>)
  {
    if "stat" in report && report["stat"].Number? then Some(report["stat"].n) else None
  }

  /** The `switch(status.stat)` of `_onG2Status`: interlock, shutdown and panic first,
      then alarm; everything else is informational. */
  function Classify(codes: DriverCodes, report: map<string, Value>): (r: StatusKind)
  {
    match Stat(report)
    case None => Informational
    case Some(st) =>
      if st == codes.interlock || st == codes.shutdown || st == codes.panic then Fatal
      else if st == codes.alarm then Alarm
      else Informational
  }

  /** The `for (key in machine.status)` loop: every key of the status record that the
      report also carries takes the report's value; no key is added or removed. */
  function Merge(status: map<string, Value>, report: map<string, Value>): (r: map<string, Value>)
  {
    map k | k in status :: if k in report then report[k] else status[k]
  }

  // ---------------------------------------------------------------------------
  // Transitions
  // ---------------------------------------------------------------------------

  /** Append effects to the log. */
  function Perform(s: Session, effects: seq<Effect>): (r: Session)
  {
    s.(env := s.env.(log := s.env.log + effects))
  }

  /** `new ManualRuntime()`: an empty fixed-move queue; everything else unset. */
  function Initial(): (r: Session)
  {
    Session(false, false, false, false, None, 0.0, 0.0, 0.0, [], None,
            Env(false, false, DriverCodes(0.0, 0.0, 0.0, 0.0), Idle, map[], None, 0, 0, 0, [], []))
  }

  /** `connect(machine)`: records state "manual" directly with the machine, so
      `okToDisconnect` stays true; subscribes to status reports. */
  function Connect(s: Session, codes: DriverCodes, status: map<string, Value>): (r: Session)
  {
    s.(okToDisconnect := true, moving := false, keepMoving := false, completeCallback := None,
       env := s.env.(codes := codes, status := status, state := Manual, listening := true, attached := true,
                     log := s.env.log + [SetState(Manual, None)]))
  }

  /** `_changeState(name, message)`. */
  function ChangeState(s: Session, name: StateName, error: Option<string>): (r: Session)
    ensures r.env.attached == s.env.attached
  {
    if name == Idle then
      s.(okToDisconnect := true, completeCallback := None,
         env := s.env.(state := Idle,
                       log := s.env.log + (if s.stream then [EndStream] else []) + [SetState(Idle, error)]))
    else
      s.(okToDisconnect := false, env := s.env.(state := name, log := s.env.log + [SetState(name, error)]))
  }

  /** `disconnect()`: allowed only when disconnecting is allowed and no stream is held. */
  function Disconnect(s: Session): (r: Step)
  {
    if s.okToDisconnect && !s.stream then
      Step(ChangeState(s.(env := s.env.(listening := false)), Idle, None), None)
    else
      Step(s, Some(CannotDisconnect))
  }

  /** The driver's last exception is a limit. */
  predicate LimitFires(s: Session)
  {
    s.env.lastException.Some? && s.env.lastException.value.st == LIMIT_CODE
  }

  /** `_limit()`: on a limit exception, stop, clear the exception and go to Stopped with
      the cleaned message; otherwise nothing. Whether it acted is `LimitFires(s)`. */
  function Limit(s: Session): (r: Session)
  {
    if LimitFires(s) then
      var msg := StripFirstToken(s.env.lastException.value.msg);
      ChangeState(s.(keepMoving := false, moving := false,
                     env := s.env.(lastException := None, log := s.env.log + [ClearException])),
                  Stopped, Some(msg))
    else s
  }

  /** Merge a report into the status record and broadcast the result. */
  function Publish(s: Session, report: map<string, Value>): (r: Session)
  {
    var merged := Merge(s.env.status, report);
    s.(env := s.env.(status := merged, log := s.env.log + [Emit(merged)]))
  }

  /** `_onG2Status(report)`. */
  function OnStatus(s: Session, report: map<string, Value>): (r: Session)
  {
    match Classify(s.env.codes, report)
    case Fatal => Perform(s, [Die(DIE_REASON)])
    case Alarm => if LimitFires(s) then Limit(s) else Publish(s, report)
    case Informational => Publish(s, report)
  }

  /** `maintainMotion()`. */
  function Maintain(s: Session): (r: Session)
  {
    s.(keepMoving := true)
  }

  /** `startMotion(axis, speed)`. When already moving only the identical heading renews
      the lease; a fresh start sets the heading and asks the driver to zero the Z lift. */
  function StartMotion(s: Session, axis: string, speed: real): (r: Session)
  {
    var direction := if speed < 0.0 then -1.0 else 1.0;
    var magnitude := Abs(speed);
    if s.moving then
      if s.currentAxis == Some(axis) && s.currentSpeed == magnitude then Maintain(s) else s
    else
      s.(currentAxis := Some(axis), currentSpeed := magnitude, currentDirection := direction,
         renewDistance := RenewDistance(magnitude),
         env := s.env.(pendingAcks := s.env.pendingAcks + 1, log := s.env.log + [SetParam(Z_LIFT, 0.0)]))
  }

  /** `renewMoves()`: consume the lease and queue one more renewal, or stop. */
  function RenewMoves(s: Session): (r: Step)
    ensures r.next.env.attached == s.env.attached
  {
    if s.keepMoving then
      if !s.stream || s.currentAxis.None? then
        Step(s.(keepMoving := false), Some(NullReference))
      else
        var block := RenewalBlock(s.currentSpeed, s.currentAxis.value, s.currentDirection, s.renewDistance);
        Step(s.(keepMoving := false,
                env := s.env.(pendingTicks := s.env.pendingTicks + 1,
                              log := s.env.log + Writes(block) + [Prime])),
             None)
    else
      Step(StopMotion(s), None)
  }

  /** The renewal timer fires. */
  function TimerFired(s: Session): (r: Step)
    requires s.env.pendingTicks > 0
  {
    RenewMoves(s.(env := s.env.(pendingTicks := s.env.pendingTicks - 1)))
  }

  /** The `driver.set('zl', 0)` acknowledgement: open the single stream, or throw. */
  function ZlAcknowledged(s: Session): (r: Step)
    requires s.env.pendingAcks > 0
  {
    var s0 := s.(env := s.env.(pendingAcks := s.env.pendingAcks - 1));
    if s0.stream then Step(s0, Some(StreamExists))
    else
      var s1 := ChangeState(s0.(stream := true), Manual, None);
      RenewMoves(Perform(s1.(moving := true, keepMoving := true), [RunStream]))
  }

  /** The driver reports that the stream has finished running. */
  function StreamFinished(s: Session): (r: Session)
    requires s.stream
  {
    var s1 := ChangeState(s.(moving := false, keepMoving := false, stream := false), Idle, None);
    Perform(s1, [RestoreParams([Z_LIFT])])
  }

  /** `stopMotion()`. */
  function StopMotion(s: Session): (r: Session)
    ensures r.env.attached == s.env.attached
  {
    if LimitFires(s) then Limit(s)
    else if s.moving then
      Perform(s.(keepMoving := false), (if s.stream then [EndStream] else []) + [Quit])
    else s
  }

  /** `fixedMove(axis, speed, distance)` with the axis test `accepts`: queued while
      anything moves; otherwise `moving` is set and the move is submitted as a two-line
      list when the upper-cased axis passes the test. */
  function FixedMoveWith(accepts: string -> bool, s: Session, axis: string, speed: real, distance: real): (r: Session)
  {
    if s.moving then
      s.(fixedQueue := s.fixedQueue + [FixedRequest(axis, speed, distance)])
    else
      var name := ToUpper(axis);
      if accepts(name) then
        s.(moving := true,
           env := s.env.(pendingLists := s.env.pendingLists + 1,
                         log := s.env.log + [RunList(FixedProgram(name, speed, distance))]))
      else
        s.(moving := true)
  }

  /** `fixedMove` as written: the axis passes when `AXES.indexOf(name) >= 0`. */
  function FixedMove(s: Session, axis: string, speed: real, distance: real): (r: Session)
  {
    FixedMoveWith(AxisAcceptedAsWritten, s, axis, speed, distance)
  }

  /** `fixedMove` with the axis test it evidently intends: exactly one axis letter. */
  function FixedMoveCorrected(s: Session, axis: string, speed: real, distance: real): (r: Session)
  {
    FixedMoveWith(IsAxisLetter, s, axis, speed, distance)
  }

  /** A fixed move's list has finished: stop moving and re-issue the oldest queued move. */
  function ListFinished(s: Session): (r: Session)
    requires s.env.pendingLists > 0
  {
    var s1 := s.(moving := false, env := s.env.(pendingLists := s.env.pendingLists - 1));
    if |s1.fixedQueue| > 0 then
      s1.(fixedQueue := s1.fixedQueue[1..], env := s1.env.(immediates := s1.env.immediates + [s1.fixedQueue[0]]))
    else s1
  }

  /** A `setImmediate` re-issue runs. */
  function RunImmediate(s: Session): (r: Session)
    requires |s.env.immediates| > 0
    ensures r.env.attached == s.env.attached
  {
    var req := s.env.immediates[0];
    FixedMove(s.(env := s.env.(immediates := s.env.immediates[1..])), req.axis, req.speed, req.distance)
  }

  /** `executeCode(code, callback)`. */
  function ExecuteCode(s: Session, code: Command, callback: Option<nat>): (r: Session)
    ensures r.env.attached == s.env.attached
  {
    var s1 := s.(completeCallback := callback);
    if s1.env.state == Stopped then s1
    else
      match code
      case Start(axis, speed) => StartMotion(s1, axis, speed)
      case Stop => StopMotion(s1)
      case Maint => Maintain(s1)
      case Fixed(axis, speed, dist) => FixedMove(s1, axis, speed, dist)
      case Unrecognised(_) => s1
  }

  // ---------------------------------------------------------------------------
  // Everything that can happen to a session
  // ---------------------------------------------------------------------------

  /** The driver records an exception (what `driver.getLastException()` later returns). */
  function DriverFault(s: Session, ex: DriverException): (r: Session)
  {
    s.(env := s.env.(lastException := Some(ex)))
  }

  datatype Event =
    | Connecting(codes: DriverCodes, status: map<string, Value>)
    | Disconnecting
    | Exec(code: Command, callback: Option<nat>)
    | Report(report: map<string, Value>)
    | ZlAck
    | StreamDone
    | ListDone
    | Tick
    | Immediate
    | Pausing
    | Resuming
    | Quitting
    | Fault(ex: DriverException)

  /** An event can happen: a continuation only once it was registered, a status report
      only while the handler is subscribed, and a command, a pause, resume or quit or a
      driver exception only once `connect` has attached a machine and a driver (before
      that `this.machine` and `this.driver` are null and those calls throw). */
  predicate Enabled(s: Session, e: Event)
  {
    match e
    case Exec(_, _) => s.env.attached
    case Pausing => s.env.attached
    case Resuming => s.env.attached
    case Quitting => s.env.attached
    case Fault(_) => s.env.attached
    case Report(_) => s.env.listening
    case ZlAck => s.env.pendingAcks > 0
    case StreamDone => s.stream
    case ListDone => s.env.pendingLists > 0
    case Tick => s.env.pendingTicks > 0
    case Immediate => |s.env.immediates| > 0
    case _ => true
  }

  function Next(s: Session, e: Event): (r: Step)
    requires Enabled(s, e)
  {
    match e
    case Connecting(codes, status) => Step(Connect(s, codes, status), None)
    case Disconnecting => Disconnect(s)
    case Exec(code, callback) => Step(ExecuteCode(s, code, callback), None)
    case Report(report) => Step(OnStatus(s, report), None)
    case ZlAck => ZlAcknowledged(s)
    case StreamDone => Step(StreamFinished(s), None)
    case ListDone => Step(ListFinished(s), None)
    case Tick => TimerFired(s)
    case Immediate => Step(RunImmediate(s), None)
    case Pausing => Step(Perform(s, [FeedHold]), None)
    case Resuming => Step(Perform(s, [Resume]), None)
    case Quitting => Step(Perform(s, [Quit]), None)
    case Fault(ex) => Step(DriverFault(s, ex), None)
  }
}
