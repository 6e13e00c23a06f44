/** What the manual runtime guarantees, stated over the transitions of `ManualSpec`:
    the dead-man's-switch lease, the single motion stream, the fixed-move queue,
    limit handling, status merging, command dispatch and disconnection, and the
    invariants every event keeps. */
module ManualProperties {

  import opened Wrappers
  import opened Strings
  import opened ManualSpec

  // ---------------------------------------------------------------------------
  // Renewal geometry
  // ---------------------------------------------------------------------------

  /** Total signed travel that `lines` command on `axis`. */
  function TravelOn(lines: seq<Line>, axis: string): real
  {
    if lines == [] then 0.0
    else (if lines[0].Move? && lines[0].axis == axis then lines[0].dist else 0.0) + TravelOn(lines[1..], axis)
  }

  /** `renewDistance` is a fifth of a minute's travel divided by 48: speed / 48. */
  lemma RenewDistanceIsSpeedOver48(speed: real)
    ensures RenewDistance(speed) == speed / 48.0
    ensures RenewDistance(speed) == SAFETY_FACTOR as real * (speed * T_RENEW as real / 60000.0)
  {
  }

  lemma {:induction false} RepeatedMoveTravel(m: Line, n: nat, axis: string)
    requires m.Move? && m.axis == axis
    ensures TravelOn(seq(n, _ => m), axis) == n as real * m.dist
  {
    if n > 0 {
      var ms := seq(n, _ => m);
      assert ms[0] == m;
      assert ms[1..] == seq(n - 1, _ => m);
      assert TravelOn(ms, axis) == m.dist + TravelOn(ms[1..], axis);
      RepeatedMoveTravel(m, n - 1, axis);
      assert m.dist + (n - 1) as real * m.dist == n as real * m.dist;
    }
  }

  /** One renewal is a feed line at the jog speed followed by RENEW_SEGMENTS identical
      moves on the jog axis, and together the moves travel exactly
      `direction * distance` along that axis. */
  lemma RenewalBlockShape(speed: real, axis: string, direction: real, distance: real)
    ensures var block := RenewalBlock(speed, axis, direction, distance);
      && |block| == 1 + RENEW_SEGMENTS
      && block[0] == RelativeFeed(speed)
      && (forall k :: 1 <= k < |block| ==>
            block[k] == Move(Linear, axis, direction * (distance / RENEW_SEGMENTS as real), None))
      && TravelOn(block, axis) == direction * distance
  {
    var m := Move(Linear, axis, direction * (distance / RENEW_SEGMENTS as real), None);
    var block := RenewalBlock(speed, axis, direction, distance);
    assert block[1..] == seq(RENEW_SEGMENTS, _ => m);
    RepeatedMoveTravel(m, RENEW_SEGMENTS, axis);
  }

  // ---------------------------------------------------------------------------
  // The lease
  // ---------------------------------------------------------------------------

  /** `after` extends `before` with no stream write. */
  predicate WritesNothing(before: seq<Effect>, after: seq<Effect>)
  {
    before <= after && forall k :: |before| <= k < |after| ==> !after[k].Write?
  }

  /** A tick that finds the lease held consumes it, writes one renewal block into the
      stream, primes the driver and re-arms the timer; nothing else changes. */
  lemma LeaseTick(s: Session)
    requires s.keepMoving && s.stream && s.currentAxis.Some?
    ensures var t := RenewMoves(s);
      && t.thrown == None
      && !t.next.keepMoving
      && t.next.env.log
         == s.env.log + Writes(RenewalBlock(s.currentSpeed, s.currentAxis.value, s.currentDirection, s.renewDistance)) + [Prime]
      && |t.next.env.log| == |s.env.log| + 1 + RENEW_SEGMENTS + 1
      && t.next.env.pendingTicks == s.env.pendingTicks + 1
      && t.next == s.(keepMoving := false, env := s.env.(log := t.next.env.log, pendingTicks := t.next.env.pendingTicks))
  {
    RenewalBlockShape(s.currentSpeed, s.currentAxis.value, s.currentDirection, s.renewDistance);
  }

  /** A tick that finds the lease lapsed writes nothing, does not re-arm the timer and
      stops the motion instead. */
  lemma LeaseLapse(s: Session)
    requires !s.keepMoving
    ensures var t := RenewMoves(s);
      && t == Step(StopMotion(s), None)
      && WritesNothing(s.env.log, t.next.env.log)
      && t.next.env.pendingTicks == s.env.pendingTicks
  {
  }

  /** Dead-man's switch: after a renewing tick, a second tick with no maintain in
      between ends the jog. The timer is not re-armed and the lease stays clear; a
      moving jog has its stream ended and the driver told to quit (or, on a pending
      limit, is stopped by the limit handling). */
  lemma TwoTicksWithoutMaintainEndMotion(s: Session)
    requires s.keepMoving && s.stream && s.currentAxis.Some?
    ensures var t := RenewMoves(s).next;
      var u := TimerFired(t);
      && u.thrown == None
      && u.next.env.pendingTicks == s.env.pendingTicks
      && !u.next.keepMoving
      && WritesNothing(t.env.log, u.next.env.log)
      && (s.moving && !LimitFires(s) ==> u.next.env.log == t.env.log + [EndStream, Quit])
      && (LimitFires(s) ==> u.next.env.state == Stopped && !u.next.moving)
  {
    LeaseTick(s);
  }

  /** A maintain between two ticks keeps the jog alive: the second tick writes another
      full renewal block and re-arms the timer. */
  lemma MaintainedLeaseRenews(s: Session)
    requires s.keepMoving && s.stream && s.currentAxis.Some?
    ensures var t := RenewMoves(s).next;
      var u := TimerFired(Maintain(t));
      && u.thrown == None
      && u.next.env.log
         == t.env.log + Writes(RenewalBlock(s.currentSpeed, s.currentAxis.value, s.currentDirection, s.renewDistance)) + [Prime]
      && u.next.env.pendingTicks == t.env.pendingTicks
      && u.next.stream && !u.next.keepMoving
  {
    LeaseTick(s);
  }

  /** A `maint` or a `start` command: the only events that may renew the lease. */
  predicate Renews(e: Event)
  {
    e.Exec? && (e.code.Maint? || e.code.Start?)
  }

  /** No event but a `maint` or `start` command sets a lapsed lease again. */
  lemma LeaseOnlyRenewedByCommand(s: Session, e: Event)
    requires Enabled(s, e) && !s.keepMoving && Next(s, e).next.keepMoving
    ensures Renews(e)
  {
  }

  /** The session after `events` are applied in order, or None once one of them is not
      enabled. */
  function Run(s: Session, events: seq<Event>): Option<Session>
    decreases |events|
  {
    if events == [] then Some(s)
    else if Enabled(s, events[0]) then Run(Next(s, events[0]).next, events[1..])
    else None
  }

  /** A lapsed lease stays lapsed through any run of events that holds no `maint` or
      `start` command. */
  lemma {:induction false} LeaseStaysLapsed(s: Session, events: seq<Event>)
    requires !s.keepMoving
    requires forall k :: 0 <= k < |events| ==> !Renews(events[k])
    requires Run(s, events).Some?
    ensures !Run(s, events).value.keepMoving
    decreases |events|
  {
    if events != [] {
      var t := Next(s, events[0]).next;
      if t.keepMoving {
        LeaseOnlyRenewedByCommand(s, events[0]);
      }
      LeaseStaysLapsed(t, events[1..]);
    }
  }

  /** Dead-man's switch: after a renewing tick, whatever events follow (status reports,
      completions, re-issues, stop or fixed commands), as long as none is a `maint` or
      `start` command the next tick writes nothing into the stream, arms no timer and
      is `stopMotion`. */
  lemma DeadMansSwitch(s: Session, events: seq<Event>)
    requires s.keepMoving && s.stream && s.currentAxis.Some?
    requires forall k :: 0 <= k < |events| ==> !Renews(events[k])
    requires Run(RenewMoves(s).next, events).Some?
    requires Run(RenewMoves(s).next, events).value.env.pendingTicks > 0
    ensures var u := Run(RenewMoves(s).next, events).value;
      var v := TimerFired(u);
      && v.thrown == None
      && !v.next.keepMoving
      && WritesNothing(u.env.log, v.next.env.log)
      && v.next.env.pendingTicks == u.env.pendingTicks - 1
      && v.next == StopMotion(u.(env := u.env.(pendingTicks := u.env.pendingTicks - 1)))
  {
    LeaseTick(s);
    var u := Run(RenewMoves(s).next, events).value;
    LeaseStaysLapsed(RenewMoves(s).next, events);
    LeaseLapse(u.(env := u.env.(pendingTicks := u.env.pendingTicks - 1)));
  }

  // ---------------------------------------------------------------------------
  // Starting a jog and the single stream
  // ---------------------------------------------------------------------------

  /** A start while not moving records the heading (direction = sign, speed = magnitude,
      renewal distance = magnitude / 48) and only asks for the Z-lift to be zeroed: no
      stream, no write and no change of `moving` until the acknowledgement. */
  lemma FreshStart(s: Session, axis: string, speed: real)
    requires !s.moving
    ensures var t := StartMotion(s, axis, speed);
      && t.currentAxis == Some(axis)
      && t.currentDirection == (if speed < 0.0 then -1.0 else 1.0)
      && t.currentSpeed >= 0.0
      && t.currentDirection * t.currentSpeed == speed
      && t.renewDistance == t.currentSpeed / 48.0
      && t.stream == s.stream && t.moving == s.moving && t.keepMoving == s.keepMoving
      && t.env.log == s.env.log + [SetParam(Z_LIFT, 0.0)]
      && t.env.pendingAcks == s.env.pendingAcks + 1
  {
    RenewDistanceIsSpeedOver48(Abs(speed));
  }

  /** A start while moving renews the lease when axis and speed magnitude match the jog
      in progress, and changes nothing at all otherwise. */
  lemma StartWhileMoving(s: Session, axis: string, speed: real)
    requires s.moving
    ensures s.currentAxis == Some(axis) && s.currentSpeed == Abs(speed) ==>
      StartMotion(s, axis, speed) == Maintain(s)
    ensures !(s.currentAxis == Some(axis) && s.currentSpeed == Abs(speed)) ==>
      StartMotion(s, axis, speed) == s
  {
  }

  /** The acknowledgement opens a stream only when none is held, and then moves to the
      Manual state, holds the stream, is moving and performs one renewal at once; when a
      stream is already held it throws and changes nothing but the acknowledgement. */
  lemma AckOpensSingleStream(s: Session)
    requires s.env.pendingAcks > 0
    ensures var t := ZlAcknowledged(s);
      && (s.stream ==>
            t == Step(s.(env := s.env.(pendingAcks := s.env.pendingAcks - 1)), Some(StreamExists)))
      && (!s.stream && s.currentAxis.Some? ==>
            && t.thrown == None
            && t.next.stream && t.next.moving && !t.next.keepMoving
            && t.next.env.state == Manual && !t.next.okToDisconnect
            && t.next.env.pendingTicks == s.env.pendingTicks + 1
            && t.next.env.log
               == s.env.log + [SetState(Manual, None), RunStream]
                  + Writes(RenewalBlock(s.currentSpeed, s.currentAxis.value, s.currentDirection, s.renewDistance))
                  + [Prime])
  {
  }

  /** Only the acknowledgement ever opens a stream, and only when none is held. */
  lemma StreamOpenedOnlyByAck(s: Session, e: Event)
    requires Enabled(s, e)
    requires !s.stream && Next(s, e).next.stream
    ensures e == ZlAck && Next(s, e).thrown != Some(StreamExists)
  {
  }

  /** When the stream finishes the jog is over: not moving, no lease, no stream, state
      Idle, disconnecting allowed, the Z lift restored; the fixed-move queue is kept. */
  lemma StreamFinishEndsJog(s: Session)
    requires s.stream
    ensures var t := StreamFinished(s);
      && !t.moving && !t.keepMoving && !t.stream
      && t.env.state == Idle && t.okToDisconnect && t.completeCallback == None
      && t.fixedQueue == s.fixedQueue
      && t.env.log == s.env.log + [SetState(Idle, None), RestoreParams([Z_LIFT])]
  {
  }

  // ---------------------------------------------------------------------------
  // Fixed moves
  // ---------------------------------------------------------------------------

  /** A fixed move requested while moving is appended to the queue; nothing else changes. */
  lemma FixedMoveWhileMoving(s: Session, axis: string, speed: real, distance: real)
    requires s.moving
    ensures FixedMove(s, axis, speed, distance)
            == s.(fixedQueue := s.fixedQueue + [FixedRequest(axis, speed, distance)])
  {
  }

  /** A fixed move requested while not moving marks the runtime as moving; when the
      upper-cased axis occurs in "XYZABCUVW" it submits exactly `G91` and one move, G1
      when a speed is given and G0 otherwise; for any other axis it submits nothing and
      `moving` stays set. */
  lemma FixedMoveWhenStill(s: Session, axis: string, speed: real, distance: real)
    requires !s.moving
    ensures var t := FixedMove(s, axis, speed, distance);
      && t.moving && t.fixedQueue == s.fixedQueue
      && (AxisAcceptedAsWritten(ToUpper(axis)) ==>
            && t.env.log == s.env.log + [RunList([Relative, Move(if speed != 0.0 then Linear else Rapid,
                                                               ToUpper(axis), distance, Some(speed))])]
            && t.env.pendingLists == s.env.pendingLists + 1)
      && (!AxisAcceptedAsWritten(ToUpper(axis)) ==> t == s.(moving := true))
  {
  }

  /** The fixed moves still to run, oldest first: re-issues already scheduled, then
      the queue. */
  function Pending(s: Session): seq<FixedRequest>
  {
    s.env.immediates + s.fixedQueue
  }

  /** A finished list stops the motion and schedules the oldest queued move; the order
      of the pending moves is unchanged. */
  lemma ListFinishedSchedulesHead(s: Session)
    requires s.env.pendingLists > 0
    ensures var t := ListFinished(s);
      && !t.moving
      && Pending(t) == Pending(s)
      && (|s.fixedQueue| > 0 ==>
            t.fixedQueue == s.fixedQueue[1..] && t.env.immediates == s.env.immediates + [s.fixedQueue[0]])
  {
  }

  // ---------------------------------------------------------------------------
  // Limits
  // ---------------------------------------------------------------------------

  /** On a limit exception `_limit` clears the lease and the motion, clears the driver's
      exception, records Stopped with the message stripped of its first bracketed token
      and forbids disconnecting; without one it changes nothing. */
  lemma LimitHandling(s: Session)
    ensures LimitFires(s) ==>
      var t := Limit(s);
      && !t.keepMoving && !t.moving && t.env.lastException == None
      && t.env.state == Stopped && !t.okToDisconnect
      && t.env.log == s.env.log + [ClearException, SetState(Stopped, Some(StripFirstToken(s.env.lastException.value.msg)))]
      && t.stream == s.stream && t.fixedQueue == s.fixedQueue
    ensures !LimitFires(s) ==> Limit(s) == s
  {
  }

  /** A limit is handled once: the exception is cleared, so handling again does nothing. */
  lemma LimitHandledOnce(s: Session)
    ensures !LimitFires(Limit(s))
    ensures Limit(Limit(s)) == Limit(s)
  {
  }

  /** `stopMotion` defers to the limit handling; otherwise, when moving, it drops the
      lease, ends the stream (if one is held) and tells the driver to quit; when not
      moving it does nothing. */
  lemma StopMotionCases(s: Session)
    ensures LimitFires(s) ==> StopMotion(s) == Limit(s)
    ensures !LimitFires(s) && !s.moving ==> StopMotion(s) == s
    ensures !LimitFires(s) && s.moving ==>
      StopMotion(s) == Perform(s.(keepMoving := false), (if s.stream then [EndStream] else []) + [Quit])
  {
  }

  // ---------------------------------------------------------------------------
  // Status reports
  // ---------------------------------------------------------------------------

  /** Merging never adds or removes a key; a key the report carries takes its value,
      every other key keeps its own. */
  lemma MergeOverwritesOnlyKnownKeys(status: map<string, Value>, report: map<string, Value>)
    ensures Merge(status, report).Keys == status.Keys
    ensures forall k :: k in status && k in report ==> Merge(status, report)[k] == report[k]
    ensures forall k :: k in status && k !in report ==> Merge(status, report)[k] == status[k]
  {
  }

  /** Merging two reports in turn is merging their union, the later report winning;
      in particular merging the same report twice is merging it once. */
  lemma MergeLaterWins(status: map<string, Value>, first: map<string, Value>, second: map<string, Value>)
    ensures Merge(Merge(status, first), second) == Merge(status, first + second)
    ensures Merge(Merge(status, first), first) == Merge(status, first)
  {
    assert first + first == first;
  }

  /** A fatal report (interlock, shutdown, panic) only asks the machine to die: no state
      change, no merge, no broadcast. An alarm with a limit exception is the limit
      handling alone. Anything else is merged and broadcast. */
  lemma StatusClassification(s: Session, report: map<string, Value>)
    ensures Classify(s.env.codes, report) == Fatal ==>
      OnStatus(s, report) == s.(env := s.env.(log := s.env.log + [Die(DIE_REASON)]))
    ensures Classify(s.env.codes, report) == Alarm && LimitFires(s) ==>
      OnStatus(s, report) == Limit(s)
    ensures Classify(s.env.codes, report) == Informational || (Classify(s.env.codes, report) == Alarm && !LimitFires(s)) ==>
      var t := OnStatus(s, report);
      && t.env.status == Merge(s.env.status, report)
      && t.env.log == s.env.log + [Emit(t.env.status)]
      && t == s.(env := s.env.(status := t.env.status, log := t.env.log))
  {
  }

  // ---------------------------------------------------------------------------
  // Commands, state changes and disconnection
  // ---------------------------------------------------------------------------

  /** While Stopped every command is ignored: only the callback is stored. */
  lemma StoppedIgnoresCommands(s: Session, code: Command, callback: Option<nat>)
    requires s.env.state == Stopped
    ensures ExecuteCode(s, code, callback) == s.(completeCallback := callback)
  {
  }

  /** An unrecognised command only stores the callback. */
  lemma UnrecognisedCommandIgnored(s: Session, name: string, callback: Option<nat>)
    ensures ExecuteCode(s, Unrecognised(name), callback) == s.(completeCallback := callback)
  {
  }

  /** A machine and a driver are attached by `connect` and by nothing else, and stay
      attached, through `disconnect` too; commands, pause, resume and quit are only
      possible once they are. */
  lemma MachineAttachedByConnect(s: Session, e: Event)
    requires Enabled(s, e)
    ensures Next(s, e).next.env.attached <==> s.env.attached || e.Connecting?
    ensures (e.Exec? || e.Pausing? || e.Resuming? || e.Quitting?) ==> s.env.attached
  {
    if e.Report? {
      ReportKeepsMachine(s, e.report);
    }
  }

  /** A status report neither attaches nor detaches the machine. */
  lemma ReportKeepsMachine(s: Session, report: map<string, Value>)
    ensures OnStatus(s, report).env.attached == s.env.attached
  {
  }

  /** Disconnecting is allowed exactly when the runtime is in a state that allows it and
      holds no stream; it then unsubscribes and records Idle, and otherwise throws and
      changes nothing. */
  lemma DisconnectGuard(s: Session)
    ensures var t := Disconnect(s);
      && (t.thrown.Some? <==> !(s.okToDisconnect && !s.stream))
      && (t.thrown.Some? ==> t == Step(s, Some(CannotDisconnect)))
      && (t.thrown.None? ==>
            !t.next.env.listening && t.next.env.state == Idle && t.next.okToDisconnect
            && t.next.env.log == s.env.log + [SetState(Idle, None)])
  {
  }

  /** A state change allows disconnecting exactly when the new state is Idle, and a
      change to Idle drops the completion callback without calling it. */
  lemma DisconnectAllowedExactlyWhenIdle(s: Session, name: StateName, error: Option<string>)
    ensures var t := ChangeState(s, name, error);
      && (t.okToDisconnect <==> name == Idle)
      && t.env.state == name
      && (name == Idle ==> t.completeCallback == None)
      && (name != Idle ==> t.completeCallback == s.completeCallback)
  {
  }


  // ---------------------------------------------------------------------------
  // What each transition leaves alone
  // ---------------------------------------------------------------------------

  /** The jog heading: axis, speed, direction and renewal distance. */
  function Heading(s: Session): (Option<string>, real, real, real)
  {
    (s.currentAxis, s.currentSpeed, s.currentDirection, s.renewDistance)
  }

  /** In the Stopped state no lease is held. */
  predicate StoppedHoldsNoLease(s: Session)
  {
    s.env.state == Stopped ==> !s.keepMoving
  }

  /** `t` follows `s` without writing into a stream, without touching the heading and
      without touching the pending fixed moves. */
  predicate Quiet(s: Session, t: Session)
  {
    WritesNothing(s.env.log, t.env.log) && Heading(t) == Heading(s) && Pending(t) == Pending(s)
  }

  lemma QuietTransitive(s: Session, t: Session, u: Session)
    requires Quiet(s, t) && Quiet(t, u)
    ensures Quiet(s, u)
  {
    forall k | |s.env.log| <= k < |u.env.log|
      ensures !u.env.log[k].Write?
    {
      if k < |t.env.log| {
        assert u.env.log[k] == t.env.log[k];
      }
    }
  }

  lemma ChangeStateQuiet(s: Session, name: StateName, error: Option<string>)
    ensures var t := ChangeState(s, name, error);
      Quiet(s, t) && t.env.state == name && t.keepMoving == s.keepMoving
  {
  }

  lemma LimitQuiet(s: Session)
    ensures Quiet(s, Limit(s))
    ensures StoppedHoldsNoLease(s) ==> StoppedHoldsNoLease(Limit(s))
  {
    if LimitFires(s) {
      var s1 := s.(keepMoving := false, moving := false,
                   env := s.env.(lastException := None, log := s.env.log + [ClearException]));
      ChangeStateQuiet(s1, Stopped, Some(StripFirstToken(s.env.lastException.value.msg)));
      QuietTransitive(s, s1, Limit(s));
    }
  }

  lemma StopMotionQuiet(s: Session)
    ensures Quiet(s, StopMotion(s))
    ensures StoppedHoldsNoLease(s) ==> StoppedHoldsNoLease(StopMotion(s))
  {
    LimitQuiet(s);
  }

  /** A renewal only writes when it finds the lease held. */
  lemma RenewMovesFrame(s: Session)
    ensures var t := RenewMoves(s).next;
      && s.env.log <= t.env.log && Heading(t) == Heading(s) && Pending(t) == Pending(s)
      && (StoppedHoldsNoLease(s) ==> StoppedHoldsNoLease(t))
      && (!s.keepMoving ==> Quiet(s, t))
  {
    StopMotionQuiet(s);
  }

  lemma FixedMoveQuietWhenStill(s: Session, axis: string, speed: real, distance: real)
    requires !s.moving
    ensures var t := FixedMove(s, axis, speed, distance);
      Quiet(s, t) && t.env.state == s.env.state && t.keepMoving == s.keepMoving
  {
  }

  lemma StartMotionFrame(s: Session, axis: string, speed: real)
    ensures var t := StartMotion(s, axis, speed);
      && WritesNothing(s.env.log, t.env.log) && Pending(t) == Pending(s)
      && t.env.state == s.env.state
      && (HeadingValid(s) ==> HeadingValid(t))
  {
  }

  lemma OnStatusQuiet(s: Session, report: map<string, Value>)
    ensures Quiet(s, OnStatus(s, report))
    ensures StoppedHoldsNoLease(s) ==> StoppedHoldsNoLease(OnStatus(s, report))
  {
    LimitQuiet(s);
  }

  /** A command writes nothing into a stream, keeps a valid heading valid and the
      Stopped state lease-free, and leaves the pending fixed moves alone unless it is a
      fixed move that finds the runtime moving. */
  lemma ExecuteCodeFrame(s: Session, code: Command, callback: Option<nat>)
    ensures var t := ExecuteCode(s, code, callback);
      && WritesNothing(s.env.log, t.env.log)
      && (HeadingValid(s) ==> HeadingValid(t))
      && (StoppedHoldsNoLease(s) ==> StoppedHoldsNoLease(t))
      && (!(code.Fixed? && s.moving && s.env.state != Stopped) ==> Pending(t) == Pending(s))
      && (code.Fixed? && s.moving && s.env.state != Stopped ==>
            Pending(t) == Pending(s) + [FixedRequest(code.axis, code.speed, code.dist)])
  {
    var s1 := s.(completeCallback := callback);
    if s1.env.state != Stopped {
      match code
      case Start(axis, speed) => StartMotionFrame(s1, axis, speed);
      case Stop => StopMotionQuiet(s1);
      case Maint =>
      case Fixed(axis, speed, dist) =>
        if !s.moving {
          FixedMoveQuietWhenStill(s1, axis, speed, dist);
        }
      case Unrecognised(_) =>
    }
  }

  lemma ZlAcknowledgedFrame(s: Session)
    requires s.env.pendingAcks > 0
    ensures var t := ZlAcknowledged(s).next;
      && s.env.log <= t.env.log && Heading(t) == Heading(s) && Pending(t) == Pending(s)
      && (StoppedHoldsNoLease(s) ==> StoppedHoldsNoLease(t))
  {
    if !s.stream {
      var s0 := s.(env := s.env.(pendingAcks := s.env.pendingAcks - 1));
      var s1 := ChangeState(s0.(stream := true), Manual, None);
      ChangeStateQuiet(s0.(stream := true), Manual, None);
      RenewMovesFrame(Perform(s1.(moving := true, keepMoving := true), [RunStream]));
    }
  }

  lemma RunImmediatePending(s: Session)
    requires |s.env.immediates| > 0
    ensures var t := RunImmediate(s);
      && WritesNothing(s.env.log, t.env.log) && Heading(t) == Heading(s)
      && t.env.state == s.env.state && t.keepMoving == s.keepMoving
      && (!s.moving ==> Pending(t) == Pending(s)[1..])
      && (s.moving ==> Pending(t) == Pending(s)[1..] + [Pending(s)[0]])
  {
    var r := s.env.immediates[0];
    var s1 := s.(env := s.env.(immediates := s.env.immediates[1..]));
    assert Pending(s)[0] == r;
    assert Pending(s)[1..] == Pending(s1);
    if !s.moving {
      FixedMoveQuietWhenStill(s1, r.axis, r.speed, r.distance);
    }
  }

  // ---------------------------------------------------------------------------
  // Invariants kept by every event
  // ---------------------------------------------------------------------------

  /** Every event leaves the pending fixed moves in order: it adds a request at the tail,
      or runs the oldest one, or changes nothing, except that a re-issue that finds the
      runtime moving sends the oldest request to the tail. */
  lemma PendingMovesStayInOrder(s: Session, e: Event)
    requires Enabled(s, e)
    ensures var t := Next(s, e).next;
      || Pending(t) == Pending(s)
      || (e.Exec? && e.code.Fixed? && s.moving && s.env.state != Stopped
          && Pending(t) == Pending(s) + [FixedRequest(e.code.axis, e.code.speed, e.code.dist)])
      || (e.Immediate? && !s.moving && Pending(t) == Pending(s)[1..])
      || (e.Immediate? && s.moving && Pending(t) == Pending(s)[1..] + [Pending(s)[0]])
  {
    match e
    case Exec(code, callback) => ExecuteCodeFrame(s, code, callback);
    case Report(report) => OnStatusQuiet(s, report);
    case ZlAck => ZlAcknowledgedFrame(s);
    case Tick => RenewMovesFrame(s.(env := s.env.(pendingTicks := s.env.pendingTicks - 1)));
    case Immediate => RunImmediatePending(s);
    case _ =>
  }

  /** No event rewrites effects already performed. */
  lemma LogOnlyGrows(s: Session, e: Event)
    requires Enabled(s, e)
    ensures s.env.log <= Next(s, e).next.env.log
  {
    match e
    case Exec(code, callback) => ExecuteCodeFrame(s, code, callback);
    case Report(report) => OnStatusQuiet(s, report);
    case ZlAck => ZlAcknowledgedFrame(s);
    case Tick => RenewMovesFrame(s.(env := s.env.(pendingTicks := s.env.pendingTicks - 1)));
    case Immediate => RunImmediatePending(s);
    case _ =>
  }

  /** The recorded heading is consistent: speed is a magnitude, direction a sign, and the
      renewal distance is the one computed from the speed. */
  predicate HeadingValid(s: Session)
  {
    s.currentAxis.Some? ==>
      && s.currentSpeed >= 0.0
      && (s.currentDirection == 1.0 || s.currentDirection == -1.0)
      && s.renewDistance == RenewDistance(s.currentSpeed)
  }

  lemma HeadingStaysValid(s: Session, e: Event)
    requires Enabled(s, e) && HeadingValid(s)
    ensures HeadingValid(Next(s, e).next)
  {
    match e
    case Exec(code, callback) => ExecuteCodeFrame(s, code, callback);
    case Report(report) => OnStatusQuiet(s, report);
    case ZlAck => ZlAcknowledgedFrame(s);
    case Tick => RenewMovesFrame(s.(env := s.env.(pendingTicks := s.env.pendingTicks - 1)));
    case Immediate => RunImmediatePending(s);
    case _ =>
  }

  /** Under a valid heading every segment a renewal writes has length speed / 384. */
  lemma SegmentLength(s: Session)
    requires HeadingValid(s) && s.currentAxis.Some?
    ensures var block := RenewalBlock(s.currentSpeed, s.currentAxis.value, s.currentDirection, s.renewDistance);
      forall k :: 1 <= k < |block| ==> Abs(block[k].dist) == s.currentSpeed / 384.0
  {
    RenewDistanceIsSpeedOver48(s.currentSpeed);
  }

  lemma StoppedHoldsNoLeaseKept(s: Session, e: Event)
    requires Enabled(s, e) && StoppedHoldsNoLease(s)
    ensures StoppedHoldsNoLease(Next(s, e).next)
  {
    match e
    case Exec(code, callback) => ExecuteCodeFrame(s, code, callback);
    case Report(report) => OnStatusQuiet(s, report);
    case ZlAck => ZlAcknowledgedFrame(s);
    case Tick => RenewMovesFrame(s.(env := s.env.(pendingTicks := s.env.pendingTicks - 1)));
    case Immediate => RunImmediatePending(s);
    case _ =>
  }

  /** While Stopped without a lease, no event but a pending Z-lift acknowledgement writes
      into a motion stream. */
  lemma StoppedWritesNothing(s: Session, e: Event)
    requires Enabled(s, e) && s.env.state == Stopped && StoppedHoldsNoLease(s)
    requires !e.ZlAck?
    ensures WritesNothing(s.env.log, Next(s, e).next.env.log)
  {
    match e
    case Exec(code, callback) => ExecuteCodeFrame(s, code, callback);
    case Report(report) => OnStatusQuiet(s, report);
    case Tick => RenewMovesFrame(s.(env := s.env.(pendingTicks := s.env.pendingTicks - 1)));
    case Immediate => RunImmediatePending(s);
    case _ =>
  }

  // ---------------------------------------------------------------------------
  // The axis check of fixed moves
  // ---------------------------------------------------------------------------

  /** As written, the axis check is a substring test on the axis letters: the empty name
      and runs of adjacent letters pass it although they name no axis. */
  lemma AxisCheckAcceptsSubstrings()
    ensures AxisAcceptedAsWritten("") && !IsAxisLetter("")
    ensures AxisAcceptedAsWritten("XY") && !IsAxisLetter("XY")
  {
    assert OccursAt(AXES, "", 0);
    assert OccursAt(AXES, "XY", 0);
  }

  /** As written, a fixed move on axis "xy" submits a list whose move names "XY"; the
      corrected fixed move submits nothing for it. */
  lemma FixedMoveOnTwoLettersDiffers(s: Session)
    requires !s.moving
    ensures FixedMove(s, "xy", 100.0, 5.0).env.log
            == s.env.log + [RunList([Relative, Move(Linear, "XY", 5.0, Some(100.0))])]
    ensures FixedMoveCorrected(s, "xy", 100.0, 5.0).env.log == s.env.log
  {
    assert ToUpper("xy") == "XY";
    AxisCheckAcceptsSubstrings();
  }

  /** On one-character names the two checks agree, so the correction only rejects names
      that are not a single axis letter. */
  lemma AxisChecksAgreeOnOneCharacter(axis: string)
    requires |axis| == 1
    ensures IsAxisLetter(axis) <==> AxisAcceptedAsWritten(axis)
  {
    if IsAxisLetter(axis) {
      var i :| 0 <= i < |AXES| && AXES[i] == axis[0];
      assert AXES[i..i + 1] == axis;
      assert OccursAt(AXES, axis, i);
    }
    if AxisAcceptedAsWritten(axis) {
      var r := IndexOf(AXES, axis, 0);
      assert AXES[r..r + 1] == axis;
      assert axis[0] == AXES[r];
    }
  }

  /** Every list the corrected fixed move submits moves exactly one axis, named by one of
      the letters X, Y, Z, A, B, C, U, V, W. */
  lemma FixedMoveNamesOneAxis(s: Session, axis: string, speed: real, distance: real)
    requires !s.moving
    ensures var t := FixedMoveCorrected(s, axis, speed, distance);
      |t.env.log| > |s.env.log| ==>
        && t.env.log[|s.env.log|].RunList?
        && |t.env.log[|s.env.log|].lines| == 2
        && var m := t.env.log[|s.env.log|].lines[1];
           m.Move? && |m.axis| == 1 && m.axis[0] in AXES
  {
  }
}
