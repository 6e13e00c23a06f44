/** Concrete runs of the manual runtime: a jog and its renewal, a limit report, and
    four event orders whose outcome the runtime's code does not guard against. The
    driver's status codes are example values; the runtime only compares them. */
module ManualScenarios {

  import opened Wrappers
  import opened ManualSpec
  import opened ManualProperties

  const CODES := DriverCodes(5.0, 4.0, 13.0, 2.0)

  /** The exception the driver records when a soft limit is hit. */
  const SOFT_LIMIT := DriverException(LIMIT_CODE, "[G1] soft limit")

  /** A runtime connected to a machine whose status record holds `stat` and `posx`. */
  function Connected(): (s: Session)
    ensures s.env.state == Manual && s.env.listening && s.okToDisconnect && s.env.codes == CODES
    ensures !s.moving && !s.stream && s.fixedQueue == []
    ensures s.env.pendingLists == 0 && s.env.pendingAcks == 0 && s.env.immediates == []
  {
    Connect(Initial(), CODES, map["stat" := Number(3.0), "posx" := Number(0.0)])
  }

  /** Jogging X at 600 mm/min: the renewal distance is 12.5 mm, written as a feed line
      and eight 1.5625 mm segments, and the driver is primed once. */
  lemma JogAt600()
    ensures var s1 := ExecuteCode(Connected(), Start("X", 600.0), None);
      var s2 := ZlAcknowledged(s1);
      && s1.renewDistance == 12.5
      && s1.env.log == [SetState(Manual, None), SetParam(Z_LIFT, 0.0)]
      && s2.thrown == None
      && s2.next.stream && s2.next.moving
      && s2.next.env.log
         == s1.env.log + [SetState(Manual, None), RunStream, Write(RelativeFeed(600.0))]
            + seq(8, _ => Write(Move(Linear, "X", 1.5625, None))) + [Prime]
  {
    assert Writes(RenewalBlock(600.0, "X", 1.0, 12.5))
           == [Write(RelativeFeed(600.0))] + seq(8, _ => Write(Move(Linear, "X", 1.5625, None)));
  }

  /** Jogging backwards along Y at 300 mm/min writes segments of -0.78125 mm. */
  lemma JogBackwards()
    ensures var s := ExecuteCode(Connected(), Start("Y", -300.0), None);
      && s.currentDirection == -1.0 && s.currentSpeed == 300.0
      && RenewalBlock(s.currentSpeed, "Y", s.currentDirection, s.renewDistance)[1]
         == Move(Linear, "Y", -0.78125, None)
  {
  }

  /** An alarm while the driver holds limit exception 203 "[G1] soft limit" stops the
      runtime with the message " soft limit": the token goes, the space stays. */
  lemma SoftLimitReport()
    ensures var s := DriverFault(Connected(), SOFT_LIMIT);
      var t := OnStatus(s, map["stat" := Number(2.0)]);
      && t.env.state == Stopped
      && t.env.log == s.env.log + [ClearException, SetState(Stopped, Some(" soft limit"))]
      && t.env.status == s.env.status
  {
    StripLimitMessage();
  }

  lemma StripLimitMessage()
    ensures Strings.StripFirstToken("[G1] soft limit") == " soft limit"
  {
    assert Strings.FirstTokenSpan("[G1] soft limit", 0, 3);
  }

  /** A fixed move started before the Z-lift acknowledgement arrives leaves an orphaned
      stream: the stream opens while the fixed move runs, the list's completion clears
      `moving`, and the next tick finds neither lease nor motion, so it ends nothing and
      arms no timer. The stream stays held: disconnecting throws, and the next jog's
      acknowledgement throws StreamExists. */
  lemma OrphanedStream()
    ensures AxisAcceptedAsWritten(Strings.ToUpper("Y"))
    ensures var s1 := ExecuteCode(Connected(), Start("X", 600.0), None);
      var s2 := ExecuteCode(s1, Fixed("Y", 0.0, 10.0), None);
      var s3 := ZlAcknowledged(s2).next;
      var s4 := ListFinished(s3);
      var s5 := TimerFired(s4).next;
      var s6 := ExecuteCode(s5, Start("X", 600.0), None);
      && s5.stream && !s5.moving && !s5.keepMoving
      && s5.env.pendingTicks == 0 && s5.env.pendingAcks == 0 && s5.env.pendingLists == 0
      && Disconnect(s5).thrown == Some(CannotDisconnect)
      && ZlAcknowledged(s6).thrown == Some(StreamExists)
  {
    assert Strings.ToUpper("Y") == "Y";
    AxisChecksAgreeOnOneCharacter("Y");
    var s1 := ExecuteCode(Connected(), Start("X", 600.0), None);
    assert !s1.moving && !s1.stream && s1.env.pendingAcks == 1 && s1.env.pendingLists == 0;
    var s2 := ExecuteCode(s1, Fixed("Y", 0.0, 10.0), None);
    assert s2.moving && !s2.stream && s2.env.pendingAcks == 1 && s2.env.pendingLists == 1;
    var s3 := ZlAcknowledged(s2).next;
    LeaseTick(Perform(ChangeState(s2.(stream := true, env := s2.env.(pendingAcks := 0)), Manual, None)
                        .(moving := true, keepMoving := true), [RunStream]));
    assert s3.stream && s3.moving && !s3.keepMoving && s3.env.pendingTicks == 1 && s3.env.pendingLists == 1;
    var s4 := ListFinished(s3);
    assert s4.stream && !s4.moving && !s4.keepMoving && s4.env.pendingTicks == 1 && s4.fixedQueue == [];
  }

  /** A `fixed` command for an upper-case axis letter, while the runtime is neither
      stopped nor moving, submits its list at once. */
  lemma FixedCommandStarts(s: Session, axis: string, speed: real, distance: real, cb: Option<nat>)
    requires s.env.state != Stopped && !s.moving
    requires Strings.ToUpper(axis) == axis && IsAxisLetter(axis)
    ensures ExecuteCode(s, Fixed(axis, speed, distance), cb)
            == s.(completeCallback := cb, moving := true,
                  env := s.env.(pendingLists := s.env.pendingLists + 1,
                                log := s.env.log + [RunList(FixedProgram(axis, speed, distance))]))
  {
    AxisChecksAgreeOnOneCharacter(axis);
    assert ExecuteCode(s, Fixed(axis, speed, distance), cb) == FixedMove(s.(completeCallback := cb), axis, speed, distance);
  }

  /** With the driver holding a limit exception, an alarm report hands over to `limit`. */
  lemma AlarmWithLimit(s: Session)
    requires s.env.codes == CODES && s.env.lastException == Some(SOFT_LIMIT)
    ensures LimitFires(s)
    ensures OnStatus(s, map["stat" := Number(2.0)]) == Limit(s)
  {
    assert Stat(map["stat" := Number(2.0)]) == Some(2.0);
  }

  /** A `fixed` command while the runtime is moving, and not stopped, waits in the queue. */
  lemma FixedCommandWaits(s: Session, axis: string, speed: real, distance: real, cb: Option<nat>)
    requires s.env.state != Stopped && s.moving
    ensures ExecuteCode(s, Fixed(axis, speed, distance), cb)
            == s.(completeCallback := cb, fixedQueue := s.fixedQueue + [FixedRequest(axis, speed, distance)])
  {
  }

  /** The queue of fixed moves is not first-in first-out: Y and Z wait behind a running
      move X; when X finishes Y is scheduled (`s3`), but a move A requested before Y's
      re-issue runs starts at once (`s4`), and Y, finding the runtime moving, is queued
      behind Z. */
  lemma FixedMovesOvertake() returns (s2: Session, s3: Session, s4: Session)
    ensures s2 == ExecuteCode(ExecuteCode(ExecuteCode(Connected(), Fixed("X", 100.0, 1.0), None),
                                          Fixed("Y", 100.0, 1.0), None),
                              Fixed("Z", 100.0, 1.0), None)
    ensures s2.fixedQueue == [FixedRequest("Y", 100.0, 1.0), FixedRequest("Z", 100.0, 1.0)]
    ensures s2.env.pendingLists == 1
    ensures s3 == ListFinished(s2)
    ensures s3.env.immediates == [FixedRequest("Y", 100.0, 1.0)] && s3.fixedQueue == [FixedRequest("Z", 100.0, 1.0)]
    ensures s4 == ExecuteCode(s3, Fixed("A", 100.0, 1.0), None)
    ensures s4.env.log == s3.env.log + [RunList(FixedProgram("A", 100.0, 1.0))]
    ensures s4.env.immediates == s3.env.immediates
    ensures RunImmediate(s4).fixedQueue == [FixedRequest("Z", 100.0, 1.0), FixedRequest("Y", 100.0, 1.0)]
    ensures RunImmediate(s4).env.immediates == []
  {
    var y := FixedRequest("Y", 100.0, 1.0);
    var z := FixedRequest("Z", 100.0, 1.0);
    assert Strings.ToUpper("X") == "X" && IsAxisLetter("X");
    assert Strings.ToUpper("A") == "A" && IsAxisLetter("A");
    var s0 := Connected();
    FixedCommandStarts(s0, "X", 100.0, 1.0, None);
    var s1 := ExecuteCode(s0, Fixed("X", 100.0, 1.0), None);
    FixedCommandWaits(s1, "Y", 100.0, 1.0, None);
    var s1y := ExecuteCode(s1, Fixed("Y", 100.0, 1.0), None);
    FixedCommandWaits(s1y, "Z", 100.0, 1.0, None);
    s2 := ExecuteCode(s1y, Fixed("Z", 100.0, 1.0), None);
    assert s2.fixedQueue == [y, z];
    s3 := ListFinished(s2);
    assert s3 == s2.(moving := false, fixedQueue := [z],
                     env := s2.env.(pendingLists := 0, immediates := [y]));
    FixedCommandStarts(s3, "A", 100.0, 1.0, None);
    s4 := ExecuteCode(s3, Fixed("A", 100.0, 1.0), None);
    FixedMoveWhileMoving(s4.(env := s4.env.(immediates := [])), "Y", 100.0, 1.0);
  }

  /** A Z-lift acknowledgement still pending when a limit stops the runtime moves it
      back to the Manual state and opens a stream. */
  lemma LateAckLeavesStopped()
    ensures var s1 := ExecuteCode(Connected(), Start("X", 600.0), None);
      var s2 := DriverFault(s1, SOFT_LIMIT);
      var s3 := OnStatus(s2, map["stat" := Number(2.0)]);
      var s4 := ZlAcknowledged(s3).next;
      && s3.env.state == Stopped
      && s4.env.state == Manual && s4.stream && s4.moving
  {
  }

  /** Connected, the runtime may disconnect; disconnecting unsubscribes and goes Idle. */
  lemma ConnectThenDisconnect()
    ensures Connected().okToDisconnect && Connected().env.state == Manual
    ensures var t := Disconnect(Connected());
      t.thrown == None && !t.next.env.listening && t.next.env.state == Idle
  {
  }

  /** The stopped state does not hold back a queued fixed move: Y waits behind a running
      move X, a limit alarm stops the runtime (`s3`), X's list completes (`s4`), and the
      re-issue of Y submits its list although the runtime is stopped, where a `fixed`
      command would be ignored. */
  lemma QueuedMoveRunsAfterLimit() returns (s3: Session, s4: Session)
    ensures s3 == OnStatus(DriverFault(ExecuteCode(ExecuteCode(Connected(), Fixed("X", 100.0, 1.0), None),
                                                   Fixed("Y", 100.0, 5.0), None),
                                       SOFT_LIMIT),
                           map["stat" := Number(2.0)])
    ensures s3.env.state == Stopped && !s3.moving && s3.env.pendingLists == 1
    ensures s4 == ListFinished(s3)
    ensures s4.env.immediates == [FixedRequest("Y", 100.0, 5.0)] && s4.env.state == Stopped
    ensures ExecuteCode(s4, Fixed("Z", 100.0, 5.0), None) == s4
    ensures RunImmediate(s4).env.state == Stopped && RunImmediate(s4).moving
    ensures RunImmediate(s4).env.log == s4.env.log + [RunList([Relative, Move(Linear, "Y", 5.0, Some(100.0))])]
  {
    assert Strings.ToUpper("X") == "X" && IsAxisLetter("X");
    assert Strings.ToUpper("Y") == "Y" && IsAxisLetter("Y");
    AxisChecksAgreeOnOneCharacter("Y");
    var s0 := Connected();
    FixedCommandStarts(s0, "X", 100.0, 1.0, None);
    var s1 := ExecuteCode(s0, Fixed("X", 100.0, 1.0), None);
    FixedCommandWaits(s1, "Y", 100.0, 5.0, None);
    var s2 := ExecuteCode(s1, Fixed("Y", 100.0, 5.0), None);
    assert s2.fixedQueue == [FixedRequest("Y", 100.0, 5.0)] && s2.moving && s2.env.pendingLists == 1;
    var f := DriverFault(s2, SOFT_LIMIT);
    AlarmWithLimit(f);
    LimitHandling(f);
    s3 := OnStatus(f, map["stat" := Number(2.0)]);
    s4 := ListFinished(s3);
    assert s4.env.immediates == [FixedRequest("Y", 100.0, 5.0)] && !s4.moving;
    FixedMoveWhenStill(s4.(env := s4.env.(immediates := [])), "Y", 100.0, 5.0);
  }
}
