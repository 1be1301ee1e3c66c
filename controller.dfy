/** The controller's mutable state: the module-level motion flags, whether the
    servo characteristic has been resolved, and the log of frames written to it;
    plus the two loop closures with the variables they capture. */
module Controller {
  import opened Int8
  import opened Servo
  import opened Motion
  import opened Sequencer

  class Robot {
    var dancing: bool
    var shimming: bool
    /** False while `servoCharasteristic` is still null, i.e. before `connect` resolved it. */
    var linked: bool
    /** Every payload handed to `writeValue`, oldest first, whether or not the device accepted it. */
    var sent: seq<Frame>

    function Mode(): Flags
      reads this
    {
      Flags(dancing, shimming)
    }

    /** The flags are never both true. */
    ghost predicate Valid()
      reads this
    {
      AtMostOne(Mode())
    }

    /** The page as loaded: both flags false, nothing resolved, nothing sent. */
    constructor ()
      ensures Valid() && Mode() == Idle && !linked && sent == []
    {
      dancing, shimming := false, false;
      linked := false;
      sent := [];
    }

    /** `connect` stores the servo characteristic once it has been found. */
    method ControlResolved()
      requires Valid()
      modifies this
      ensures Valid() && linked
      ensures Mode() == old(Mode()) && sent == old(sent)
    {
      linked := true;
    }

    /** `writeServos`: fill a 4-byte Int8Array by index and write it. The promise's
        failure is caught, so once the write is issued the call always completes
        normally; ok is false only when the characteristic is still null and the
        call throws before anything is written. */
    method WriteServos(rightLeg: int, rightFoot: int, leftFoot: int, leftLeg: int) returns (ok: bool)
      requires Valid()
      modifies this
      ensures Valid() && Mode() == Apply(old(Mode()), Write) && linked == old(linked)
      ensures ok == linked
      ensures sent == if ok then old(sent) + [Pack(rightLeg, rightFoot, leftFoot, leftLeg)] else old(sent)
    {
      var view := new int8[4];
      view[0] := ToInt8(rightLeg);
      view[1] := ToInt8(rightFoot);
      view[2] := ToInt8(leftFoot);
      view[3] := ToInt8(leftLeg);
      ok := linked;
      if ok {
        assert view[..] == Pack(rightLeg, rightFoot, leftFoot, leftLeg);
        sent := sent + [view[..]];
      }
    }

    method Spread() returns (ok: bool)
      requires Valid()
      modifies this
      ensures Valid() && Mode() == old(Mode()) && linked == old(linked) && ok == linked
      ensures sent == if ok then old(sent) + [SpreadFrame] else old(sent)
    {
      ok := WriteServos(110, 94, 86, 70);
    }

    method Stand() returns (ok: bool)
      requires Valid()
      modifies this
      ensures Valid() && Mode() == old(Mode()) && linked == old(linked) && ok == linked
      ensures sent == if ok then old(sent) + [StandFrame] else old(sent)
    {
      ok := WriteServos(90, 90, 90, 90);
    }

    method StopMoving()
      requires Valid()
      modifies this
      ensures Valid() && Mode() == Apply(old(Mode()), Call.StopMoving)
      ensures linked == old(linked) && sent == old(sent)
    {
      dancing := false;
      shimming := false;
    }

    /** `rest`: clear both flags first, then send the zero posture. */
    method Rest() returns (ok: bool)
      requires Valid()
      modifies this
      ensures Valid() && Mode() == Apply(old(Mode()), Call.Rest) && linked == old(linked)
      ensures ok == linked
      ensures sent == if ok then old(sent) + [RestFrame] else old(sent)
    {
      StopMoving();
      ok := WriteServos(0, 0, 0, 0);
    }

    /** `shimmy`: a fresh closure with `standing` true, stopMoving, set `shimming`,
        run the first step. again says whether that step rescheduled itself. */
    method Shimmy() returns (loop: ShimmyLoop, again: bool)
      requires Valid()
      modifies this
      ensures Valid() && Mode() == Apply(old(Mode()), StartShimmy) && linked == old(linked)
      ensures fresh(loop) && loop.robot == this
      ensures again == linked
      ensures linked ==> sent == old(sent) + ShimmyFrames(1) && loop.standing == StandingAfter(1)
      ensures !linked ==> sent == old(sent) && loop.standing == StandingAfter(0)
    {
      loop := new ShimmyLoop(this);
      StopMoving();
      shimming := true;
      again := loop.Step();
    }

    /** `dance`: a fresh closure with delta 0 and direction +1, stopMoving, set
        `dancing`, run the first step. */
    method Dance() returns (loop: DanceLoop, again: bool)
      requires Valid()
      modifies this
      ensures Valid() && Mode() == Apply(old(Mode()), StartDance) && linked == old(linked)
      ensures fresh(loop) && loop.robot == this
      ensures again == linked && loop.State() == DanceAfter(1)
      ensures sent == if linked then old(sent) + DanceFrames(1) else old(sent)
    {
      loop := new DanceLoop(this);
      StopMoving();
      dancing := true;
      again := loop.Step();
    }
  }

  /** The `step` closure of one `shimmy()` call and its captured `standing`. */
  class ShimmyLoop {
    const robot: Robot
    var standing: bool

    constructor (robot: Robot)
      ensures this.robot == robot && standing
    {
      this.robot := robot;
      standing := true;
    }

    /** `step` as written: send the posture for `standing`, negate it, and once the
        write completes reschedule only if `shimming` holds. A throwing write (no
        characteristic yet) ends the loop before `standing` changes. */
    method Step() returns (again: bool)
      requires robot.Valid()
      modifies this, robot
      ensures robot.Valid() && robot.Mode() == old(robot.Mode()) && robot.linked == old(robot.linked)
      ensures robot.linked ==>
                (robot.sent == old(robot.sent) + [ShimmyPosture(old(standing))]
                 && standing == !old(standing) && again == robot.shimming)
      ensures !robot.linked ==> robot.sent == old(robot.sent) && standing == old(standing) && !again
    {
      var ok;
      if standing {
        ok := robot.Stand();
      } else {
        ok := robot.Spread();
      }
      if !ok {
        return false;
      }
      standing := !standing;
      again := robot.shimming;
    }

    /** `step` with the flag also checked when the scheduled call runs, so a step
        queued before `stopMoving` sends nothing. */
    method GuardedStep() returns (again: bool)
      requires robot.Valid()
      modifies this, robot
      ensures robot.Valid() && robot.Mode() == old(robot.Mode()) && robot.linked == old(robot.linked)
      ensures robot.shimming && robot.linked ==>
                (robot.sent == old(robot.sent) + [ShimmyPosture(old(standing))]
                 && standing == !old(standing) && again)
      ensures !(robot.shimming && robot.linked) ==>
                (robot.sent == old(robot.sent) && standing == old(standing) && !again)
    {
      if !robot.shimming {
        return false;
      }
      again := Step();
    }
  }

  /** The `danceStep` closure of one `dance()` call and its captured `delta` and `direction`. */
  class DanceLoop {
    const robot: Robot
    var delta: int
    var direction: int

    function State(): DanceState
      reads this
    {
      DanceState(delta, direction)
    }

    constructor (robot: Robot)
      ensures this.robot == robot && State() == DanceStart
    {
      this.robot := robot;
      delta, direction := 0, 1;
    }

    /** `danceStep`: move delta, reverse past ±25, send 90 + delta to all four
        servos, and once the write completes continue only if `dancing` holds.
        The move happens even when the write then throws. */
    method Step() returns (again: bool)
      requires robot.Valid()
      modifies this, robot
      ensures robot.Valid() && robot.Mode() == old(robot.Mode()) && robot.linked == old(robot.linked)
      ensures State() == DanceNext(old(State()))
      ensures robot.sent == if robot.linked then old(robot.sent) + [DanceFrame(State())] else old(robot.sent)
      ensures again == (robot.linked && robot.dancing)
    {
      delta := delta + direction * 5;
      if delta > 25 || delta < -25 {
        direction := -direction;
      }
      var ok := robot.WriteServos(90 + delta, 90 + delta, 90 + delta, 90 + delta);
      again := ok && robot.dancing;
    }
  }

  /** `shimmy()` followed by `ticks` scheduled steps while nothing else runs: the
      log grows by the shimmy stream, stand first and alternating. */
  method RunShimmy(robot: Robot, ticks: nat) returns (loop: ShimmyLoop)
    requires robot.Valid()
    modifies robot
    ensures robot.Valid() && robot.Mode() == Flags(false, true) && robot.linked == old(robot.linked)
    ensures robot.sent == old(robot.sent) + if robot.linked then ShimmyFrames(ticks + 1) else []
  {
    var again;
    loop, again := robot.Shimmy();
    var k := 0;
    while again && k < ticks
      invariant 0 <= k <= ticks
      invariant robot.Valid() && robot.Mode() == Flags(false, true) && robot.linked == old(robot.linked)
      invariant loop.robot == robot
      invariant again == robot.linked
      invariant robot.sent == old(robot.sent) + if robot.linked then ShimmyFrames(k + 1) else []
      invariant robot.linked ==> loop.standing == StandingAfter(k + 1)
    {
      again := loop.Step();
      k := k + 1;
    }
  }

  /** `dance()` followed by `ticks` further steps while nothing else runs. */
  method RunDance(robot: Robot, ticks: nat) returns (loop: DanceLoop)
    requires robot.Valid()
    modifies robot
    ensures robot.Valid() && robot.Mode() == Flags(true, false) && robot.linked == old(robot.linked)
    ensures robot.sent == old(robot.sent) + if robot.linked then DanceFrames(ticks + 1) else []
    ensures robot.linked ==> loop.State() == DanceAfter(ticks + 1)
  {
    var again;
    loop, again := robot.Dance();
    var k := 0;
    while again && k < ticks
      invariant 0 <= k <= ticks
      invariant robot.Valid() && robot.Mode() == Flags(true, false) && robot.linked == old(robot.linked)
      invariant loop.robot == robot
      invariant again == robot.linked
      invariant robot.sent == old(robot.sent) + if robot.linked then DanceFrames(k + 1) else []
      invariant loop.State() == DanceAfter(k + 1)
    {
      again := loop.Step();
      k := k + 1;
    }
  }

  /** `rest()` runs after a shimmy step's write has completed and queued the next
      step with setTimeout, but before that tick fires. The tick runs `step` as
      written, which writes before it looks at `shimming`: a spread frame is
      written after the rest frame. */
  method RestWhileShimmyTickQueued() returns (frames: seq<Frame>, again: bool)
    ensures frames == [StandFrame, RestFrame, SpreadFrame] && !again
  {
    var robot := new Robot();
    robot.ControlResolved();
    var loop, queued := robot.Shimmy();
    var _ := robot.Rest();
    again := loop.Step();
    frames := robot.sent;
  }

  /** The same calls with the guarded step: the queued tick sends nothing and the
      rest frame is the last one written. */
  method RestWhileGuardedShimmyTickQueued() returns (frames: seq<Frame>, again: bool)
    ensures frames == [StandFrame, RestFrame] && !again
  {
    var robot := new Robot();
    robot.ControlResolved();
    var loop, queued := robot.Shimmy();
    var _ := robot.Rest();
    again := loop.GuardedStep();
    frames := robot.sent;
  }

  /** `dance()` runs while a shimmy tick is queued. Only `dancing` stays true and
      the shimmy loop stops at that tick, but the tick runs `step` as written and
      writes spread after the dance's first frame. */
  method DanceAfterShimmy() returns (mode: Flags, shimmyAgain: bool, frames: seq<Frame>)
    ensures mode == Flags(true, false) && !shimmyAgain
    ensures frames == [StandFrame, DanceFrame(DanceState(5, 1)), SpreadFrame]
  {
    var robot := new Robot();
    robot.ControlResolved();
    var shimmy, queued := robot.Shimmy();
    var dance, dancing := robot.Dance();
    shimmyAgain := shimmy.Step();
    mode := robot.Mode();
    frames := robot.sent;
  }

  /** The same calls with the guarded step: the queued shimmy tick sends nothing. */
  method DanceAfterGuardedShimmy() returns (mode: Flags, shimmyAgain: bool, frames: seq<Frame>)
    ensures mode == Flags(true, false) && !shimmyAgain
    ensures frames == [StandFrame, DanceFrame(DanceState(5, 1))]
  {
    var robot := new Robot();
    robot.ControlResolved();
    var shimmy, queued := robot.Shimmy();
    var dance, dancing := robot.Dance();
    shimmyAgain := shimmy.GuardedStep();
    mode := robot.Mode();
    frames := robot.sent;
  }
}
