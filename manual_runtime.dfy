/** `ManualRuntime`, the manual jogging runtime, as a class whose methods update its
    fields in place. The driver, the machine and the event loop are one value, `env`:
    what the runtime reads from them is held there (recorded state name, status record,
    last driver exception, driver codes, pending continuations) and what it asks of them
    is appended to `env.log`. Every asynchronous continuation of the source (the Z-lift
    acknowledgement, stream and list completion, the renewal timer, the `setImmediate`
    re-issue) is a method of its own, callable once it is pending. Each method leaves the
    state that the `ManualSpec` transition of the same name computes from the old state. */
module Manual {

  import opened Wrappers
  import opened Strings
  import opened ManualSpec

  class ManualRuntime {
    var okToDisconnect: bool
    var moving: bool
    var keepMoving: bool
    var stream: bool
    var currentAxis: Option<string>
    var currentSpeed: real
    var currentDirection: real
    var renewDistance: real
    var fixedQueue: seq<FixedRequest>
    var completeCallback: Option<nat>
    var env: Env

    /** The runtime's fields as a `ManualSpec.Session` value. */
    function Snapshot(): Session
      reads this
    {
      Session(okToDisconnect, moving, keepMoving, stream, currentAxis, currentSpeed,
              currentDirection, renewDistance, fixedQueue, completeCallback, env)
    }

    constructor ()
      ensures Snapshot() == Initial()
    {
      okToDisconnect, moving, keepMoving, stream := false, false, false, false;
      currentAxis, currentSpeed, currentDirection, renewDistance := None, 0.0, 0.0, 0.0;
      fixedQueue := [];
      completeCallback := None;
      env := Env(false, false, DriverCodes(0.0, 0.0, 0.0, 0.0), Idle, map[], None, 0, 0, 0, [], []);
    }

    method Connect(codes: DriverCodes, machineStatus: map<string, Value>)
      modifies this
      ensures Snapshot() == ManualSpec.Connect(old(Snapshot()), codes, machineStatus)
    {
      env := env.(codes := codes, status := machineStatus, listening := true, attached := true);
      okToDisconnect := true;
      env := env.(state := Manual, log := env.log + [SetState(Manual, None)]);
      moving := false;
      keepMoving := false;
      completeCallback := None;
    }

    method Disconnect() returns (thrown: Option<RuntimeError>)
      modifies this
      ensures Step(Snapshot(), thrown) == ManualSpec.Disconnect(old(Snapshot()))
    {
      if okToDisconnect && !stream {
        env := env.(listening := false);
        ChangeState(Idle, None);
        thrown := None;
      } else {
        thrown := Some(CannotDisconnect);
      }
    }

    method ChangeState(name: StateName, error: Option<string>)
      modifies this
      ensures Snapshot() == ManualSpec.ChangeState(old(Snapshot()), name, error)
    {
      if name == Idle {
        okToDisconnect := true;
        completeCallback := None;
        if stream {
          env := env.(log := env.log + [EndStream]);
        }
      } else {
        okToDisconnect := false;
      }
      env := env.(state := name, log := env.log + [SetState(name, error)]);
    }

    method Limit() returns (fired: bool)
      modifies this
      ensures fired == LimitFires(old(Snapshot()))
      ensures Snapshot() == ManualSpec.Limit(old(Snapshot()))
    {
      var er := env.lastException;
      if er.Some? && er.value.st == LIMIT_CODE {
        var msg := StripFirstToken(er.value.msg);
        keepMoving := false;
        moving := false;
        env := env.(lastException := None, log := env.log + [ClearException]);
        ChangeState(Stopped, Some(msg));
        return true;
      }
      return false;
    }

    /** The status handler. The merge walks the keys of the status record one at a time
        and overwrites those the report also carries. */
    method OnG2Status(report: map<string, Value>)
      requires env.listening
      modifies this
      ensures Snapshot() == OnStatus(old(Snapshot()), report)
    {
      var kind := Classify(env.codes, report);
      if kind == Fatal {
        env := env.(log := env.log + [Die(DIE_REASON)]);
        return;
      }
      if kind == Alarm {
        var fired := Limit();
        if fired {
          return;
        }
      }
      ghost var before := env.status;
      var status := env.status;
      var keys := status.Keys;
      while keys != {}
        invariant keys <= before.Keys
        invariant status.Keys == before.Keys
        invariant forall k :: k in status ==>
          status[k] == if k !in keys && k in report then report[k] else before[k]
        decreases keys
      {
        var key :| key in keys;
        if key in report {
          status := status[key := report[key]];
        }
        keys := keys - {key};
      }
      assert status == Merge(before, report);
      env := env.(status := status, log := env.log + [Emit(status)]);
    }

    method ExecuteCode(code: Command, callback: Option<nat>)
      requires env.attached
      modifies this
      ensures Snapshot() == ManualSpec.ExecuteCode(old(Snapshot()), code, callback)
    {
      completeCallback := callback;
      if env.state == Stopped {
        return;
      }
      match code
      case Start(axis, speed) => StartMotion(axis, speed);
      case Stop => StopMotion();
      case Maint => MaintainMotion();
      case Fixed(axis, speed, dist) => FixedMove(axis, speed, dist);
      case Unrecognised(_) =>
    }

    method MaintainMotion()
      modifies this
      ensures Snapshot() == Maintain(old(Snapshot()))
    {
      keepMoving := true;
    }

    method StartMotion(axis: string, speed: real)
      modifies this
      ensures Snapshot() == ManualSpec.StartMotion(old(Snapshot()), axis, speed)
    {
      var direction := if speed < 0.0 then -1.0 else 1.0;
      var magnitude := if speed < 0.0 then -speed else speed;
      if moving {
        if currentAxis == Some(axis) && currentSpeed == magnitude {
          MaintainMotion();
        }
      } else {
        currentAxis := Some(axis);
        currentSpeed := magnitude;
        currentDirection := direction;
        renewDistance := magnitude * (T_RENEW as real / 60000.0) * SAFETY_FACTOR as real;
        env := env.(pendingAcks := env.pendingAcks + 1, log := env.log + [SetParam(Z_LIFT, 0.0)]);
      }
    }

    /** The acknowledgement of `driver.set('zl', 0)`. */
    method ZlAcknowledged() returns (thrown: Option<RuntimeError>)
      requires env.pendingAcks > 0
      modifies this
      ensures Step(Snapshot(), thrown) == ManualSpec.ZlAcknowledged(old(Snapshot()))
    {
      env := env.(pendingAcks := env.pendingAcks - 1);
      if stream {
        return Some(StreamExists);
      }
      ghost var s0 := Snapshot();
      stream := true;
      ChangeState(Manual, None);
      moving, keepMoving := true, true;
      env := env.(log := env.log + [RunStream]);
      assert Snapshot() == Perform(ManualSpec.ChangeState(s0.(stream := true), Manual, None)
                                     .(moving := true, keepMoving := true), [RunStream]);
      thrown := RenewMoves();
    }

    /** The driver reports that the stream has finished running. */
    method StreamFinished()
      requires stream
      modifies this
      ensures Snapshot() == ManualSpec.StreamFinished(old(Snapshot()))
    {
      moving := false;
      keepMoving := false;
      stream := false;
      ChangeState(Idle, None);
      env := env.(log := env.log + [RestoreParams([Z_LIFT])]);
    }

    /** One renewal: the feed line, then RENEW_SEGMENTS segment moves, written one by one. */
    method RenewMoves() returns (thrown: Option<RuntimeError>)
      modifies this
      ensures Step(Snapshot(), thrown) == ManualSpec.RenewMoves(old(Snapshot()))
    {
      if !keepMoving {
        StopMotion();
        return None;
      }
      keepMoving := false;
      if !stream || currentAxis.None? {
        return Some(NullReference);
      }
      var segment := currentDirection * (renewDistance / RENEW_SEGMENTS as real);
      ghost var block := RenewalBlock(currentSpeed, currentAxis.value, currentDirection, renewDistance);
      var written := env.log + [Write(RelativeFeed(currentSpeed))];
      for i := 0 to RENEW_SEGMENTS
        invariant written == env.log + Writes(block[..i + 1])
      {
        assert block[i + 1] == Move(Linear, currentAxis.value, segment, None);
        assert block[..i + 2] == block[..i + 1] + [Move(Linear, currentAxis.value, segment, None)];
        assert Writes(block[..i + 2]) == Writes(block[..i + 1]) + [Write(Move(Linear, currentAxis.value, segment, None))];
        written := written + [Write(Move(Linear, currentAxis.value, segment, None))];
      }
      assert block[..RENEW_SEGMENTS + 1] == block;
      env := env.(log := written + [Prime], pendingTicks := env.pendingTicks + 1);
      thrown := None;
    }

    /** The renewal timer fires. */
    method TimerFired() returns (thrown: Option<RuntimeError>)
      requires env.pendingTicks > 0
      modifies this
      ensures Step(Snapshot(), thrown) == ManualSpec.TimerFired(old(Snapshot()))
    {
      env := env.(pendingTicks := env.pendingTicks - 1);
      thrown := RenewMoves();
    }

    method StopMotion()
      modifies this
      ensures Snapshot() == ManualSpec.StopMotion(old(Snapshot()))
    {
      var limited := Limit();
      if limited {
        return;
      }
      if moving {
        keepMoving := false;
        if stream {
          env := env.(log := env.log + [EndStream]);
        }
        env := env.(log := env.log + [Effect.Quit]);
      }
    }

    method FixedMove(axis: string, speed: real, distance: real)
      modifies this
      ensures Snapshot() == ManualSpec.FixedMove(old(Snapshot()), axis, speed, distance)
    {
      if moving {
        fixedQueue := fixedQueue + [FixedRequest(axis, speed, distance)];
        return;
      }
      moving := true;
      var name := ToUpper(axis);
      if AxisAcceptedAsWritten(name) {
        var kind := if speed != 0.0 then Linear else Rapid;
        env := env.(log := env.log + [RunList([Relative, Move(kind, name, distance, Some(speed))])],
                    pendingLists := env.pendingLists + 1);
      }
    }

    /** A fixed move's list has finished running. */
    method ListFinished()
      requires env.pendingLists > 0
      modifies this
      ensures Snapshot() == ManualSpec.ListFinished(old(Snapshot()))
    {
      env := env.(pendingLists := env.pendingLists - 1);
      moving := false;
      if |fixedQueue| > 0 {
        var next := fixedQueue[0];
        fixedQueue := fixedQueue[1..];
        env := env.(immediates := env.immediates + [next]);
      }
    }

    /** The oldest `setImmediate` re-issue runs. */
    method RunImmediate()
      requires |env.immediates| > 0
      modifies this
      ensures Snapshot() == ManualSpec.RunImmediate(old(Snapshot()))
    {
      var request := env.immediates[0];
      env := env.(immediates := env.immediates[1..]);
      FixedMove(request.axis, request.speed, request.distance);
    }

    method Pause()
      requires env.attached
      modifies this
      ensures Snapshot() == Perform(old(Snapshot()), [FeedHold])
    {
      env := env.(log := env.log + [FeedHold]);
    }

    method Quit()
      requires env.attached
      modifies this
      ensures Snapshot() == Perform(old(Snapshot()), [Effect.Quit])
    {
      env := env.(log := env.log + [Effect.Quit]);
    }

    method Resume()
      requires env.attached
      modifies this
      ensures Snapshot() == Perform(old(Snapshot()), [Effect.Resume])
    {
      env := env.(log := env.log + [Effect.Resume]);
    }
  }
}
