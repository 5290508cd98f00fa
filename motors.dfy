// The drive motor's speed controller (src/Motor.cpp and its older variant
// src/motor.cpp): a servo channel driven through Servo::setDirection, plus
// the one field m_CurrentSpeed. Moving from forward (or standstill) to a
// reverse speed needs the controller's brake-then-neutral sequence first.
// The two files differ only in the brake command and the speed above which
// breakMotor brakes; a Motor object carries both as constants, set by the
// constructor of the file it models. The usleep pauses between commands
// are left out: only the order of the commands is modelled.

module Motors {
  import opened I2c
  import opened Pca9685
  import opened Servos

  /** src/Motor.cpp: the brake command and the breakMotor threshold. */
  const BRAKE: int := -1000
  const BRAKE_THRESHOLD: int := 50

  /** src/motor.cpp: the same two constants in the older variant. */
  const LEGACY_BRAKE: int := -100
  const LEGACY_BRAKE_THRESHOLD: int := 5

  /** The setDirection commands of setSpeed(speed) from current speed `current`. */
  function SpeedCommands(current: int, speed: int, brake: int): (cmds: seq<int>)
    ensures |cmds| >= 1 && cmds[|cmds| - 1] == speed
  {
    if speed >= 0 || current < 0 then [speed] else [brake, 0, speed]
  }

  /** The setDirection commands of breakMotor. */
  function BrakeCommands(current: int, brake: int, threshold: int): seq<int>
  {
    if current > threshold then [brake] else SpeedCommands(current, 0, brake)
  }

  /** m_CurrentSpeed after breakMotor. */
  function AfterBrake(current: int, brake: int, threshold: int): int
  {
    if current > threshold then brake else 0
  }

  /** Below the threshold breakMotor is setSpeed(0): the single command 0. */
  lemma BrakeBelowThreshold(current: int, brake: int, threshold: int)
    requires current <= threshold
    ensures BrakeCommands(current, brake, threshold) == [0]
    ensures AfterBrake(current, brake, threshold) == 0
  {
  }

  /** One call on a motor. */
  datatype Call = SetSpeed(speed: int) | BreakMotor

  function CallCommands(current: int, c: Call, brake: int, threshold: int): seq<int>
  {
    match c
    case SetSpeed(s) => SpeedCommands(current, s, brake)
    case BreakMotor => BrakeCommands(current, brake, threshold)
  }

  function CallAfter(current: int, c: Call, brake: int, threshold: int): int
  {
    match c
    case SetSpeed(s) => s
    case BreakMotor => AfterBrake(current, brake, threshold)
  }

  /** The commands a sequence of calls issues from current speed `current`. */
  function Trace(current: int, calls: seq<Call>, brake: int, threshold: int): seq<int>
    decreases |calls|
  {
    if calls == [] then []
    else CallCommands(current, calls[0], brake, threshold)
         + Trace(CallAfter(current, calls[0], brake, threshold), calls[1..], brake, threshold)
  }

  /** Step i of the command trace t is safe: it does not go from a
      non-negative command straight to a reverse speed other than by the
      brake command itself, or right after brake and neutral. */
  ghost predicate SafeStep(t: seq<int>, i: int, brake: int)
    requires 1 <= i < |t|
  {
    t[i - 1] >= 0 && t[i] < 0 ==> t[i] == brake || (2 <= i && t[i - 1] == 0 && t[i - 2] == brake)
  }

  /** The speed controller is never sent from a non-negative command straight
      to a reverse speed except through the brake sequence. */
  ghost predicate ReversesSafely(t: seq<int>, brake: int)
  {
    forall i :: 1 <= i < |t| ==> SafeStep(t, i, brake)
  }

  /** Every call ends with the command matching the new current speed, and
      keeps the command trace safe. */
  lemma CallSafe(t: seq<int>, current: int, c: Call, brake: int, threshold: int)
    requires brake < 0 && |t| > 0 && t[|t| - 1] == current && ReversesSafely(t, brake)
    ensures var t' := t + CallCommands(current, c, brake, threshold);
      t'[|t'| - 1] == CallAfter(current, c, brake, threshold) && ReversesSafely(t', brake)
  {
    var cmds := CallCommands(current, c, brake, threshold);
    var t' := t + cmds;
    forall i | 1 <= i < |t'|
      ensures SafeStep(t', i, brake)
    {
      if i < |t| {
        assert SafeStep(t, i, brake);
        assert t'[i] == t[i] && t'[i - 1] == t[i - 1];
        assert 2 <= i ==> t'[i - 2] == t[i - 2];
      } else if c.SetSpeed? && c.speed < 0 && current >= 0 {
        assert cmds == [brake, 0, c.speed];
        if i == |t| {
          assert t'[i] == brake;
        } else if i == |t| + 1 {
          assert t'[i - 1] == brake;
        } else {
          assert t'[i - 2] == brake && t'[i - 1] == 0;
        }
      } else {
        assert |cmds| == 1;
        assert t'[i - 1] == current && t'[i] == cmds[0];
      }
    }
  }

  /** From any safe trace ending in the current speed, whatever the calls,
      the commands sent keep the trace safe. */
  lemma {:induction false} TraceSafe(t: seq<int>, current: int, calls: seq<Call>, brake: int, threshold: int)
    requires brake < 0 && |t| > 0 && t[|t| - 1] == current && ReversesSafely(t, brake)
    ensures ReversesSafely(t + Trace(current, calls, brake, threshold), brake)
    decreases |calls|
  {
    if calls == [] {
      assert t + [] == t;
    } else {
      var cmds := CallCommands(current, calls[0], brake, threshold);
      var next := CallAfter(current, calls[0], brake, threshold);
      var rest := Trace(next, calls[1..], brake, threshold);
      CallSafe(t, current, calls[0], brake, threshold);
      TraceSafe(t + cmds, next, calls[1..], brake, threshold);
      assert Trace(current, calls, brake, threshold) == cmds + rest;
      assert t + cmds + rest == t + (cmds + rest);
    }
  }

  /** Both variants' constructors start a safe trace. */
  lemma ConstructedSafe(calls: seq<Call>)
    ensures ReversesSafely([0] + Trace(0, calls, BRAKE, BRAKE_THRESHOLD), BRAKE)
    ensures ReversesSafely([0] + Trace(0, calls, LEGACY_BRAKE, LEGACY_BRAKE_THRESHOLD), LEGACY_BRAKE)
  {
    TraceSafe([0], 0, calls, BRAKE, BRAKE_THRESHOLD);
    TraceSafe([0], 0, calls, LEGACY_BRAKE, LEGACY_BRAKE_THRESHOLD);
  }

  class Motor {
    const servo: Servo
    const brake: int
    const brakeThreshold: int
    var currentSpeed: int

    ghost predicate Valid()
      reads this, servo, servo.pwm
    {
      servo.Valid()
    }

    /** Motor::Motor of src/Motor.cpp: the servo with maxReverse as its left
        end, then setDirection(0). */
    constructor (pwm: PwmDriver, channel: RegAddr, maxReverse: Word, maxForward: Word)
      requires pwm.Valid()
      modifies pwm
      ensures Valid() && fresh(servo)
      ensures brake == BRAKE && brakeThreshold == BRAKE_THRESHOLD
      ensures servo.pwm == pwm && servo.channel == channel
      ensures (servo.lo, servo.hi, servo.inverted) ==
        (if maxReverse < maxForward then (maxReverse, maxForward, false) else (maxForward, maxReverse, true))
      ensures currentSpeed == 0 && servo.directions == [0]
      ensures pwm.writes == old(pwm.writes) + FreqWrites(old(pwm.regs)[MODE1], PRESCALE_60HZ) + servo.WritesFor([0])
      ensures pwm.base == old(pwm.base)
    {
      brake := BRAKE;
      brakeThreshold := BRAKE_THRESHOLD;
      servo := new Servo(pwm, channel, maxReverse, maxForward);
      currentSpeed := 0;
      new;
      servo.SetDirection(0);
    }

    /** Motor::Motor of src/motor.cpp. */
    constructor Legacy(pwm: PwmDriver, channel: RegAddr, maxReverse: Word, maxForward: Word)
      requires pwm.Valid()
      modifies pwm
      ensures Valid() && fresh(servo)
      ensures brake == LEGACY_BRAKE && brakeThreshold == LEGACY_BRAKE_THRESHOLD
      ensures servo.pwm == pwm && servo.channel == channel
      ensures (servo.lo, servo.hi, servo.inverted) ==
        (if maxReverse < maxForward then (maxReverse, maxForward, false) else (maxForward, maxReverse, true))
      ensures currentSpeed == 0 && servo.directions == [0]
      ensures pwm.writes == old(pwm.writes) + FreqWrites(old(pwm.regs)[MODE1], PRESCALE_60HZ) + servo.WritesFor([0])
      ensures pwm.base == old(pwm.base)
    {
      brake := LEGACY_BRAKE;
      brakeThreshold := LEGACY_BRAKE_THRESHOLD;
      servo := new Servo(pwm, channel, maxReverse, maxForward);
      currentSpeed := 0;
      new;
      servo.SetDirection(0);
    }

    /** setSpeed: the direct command, or brake, neutral and the requested
        reverse speed; then m_CurrentSpeed = speed. */
    method SetSpeed(speed: int)
      requires Valid()
      modifies this`currentSpeed, servo, servo.pwm
      ensures Valid()
      ensures currentSpeed == speed
      ensures servo.directions == old(servo.directions) + SpeedCommands(old(currentSpeed), speed, brake)
      ensures servo.pwm.writes == old(servo.pwm.writes) + servo.WritesFor(SpeedCommands(old(currentSpeed), speed, brake))
      ensures servo.pwm.base == old(servo.pwm.base)
    {
      ghost var d0, w0 := servo.directions, servo.pwm.writes;
      if speed >= 0 || currentSpeed < 0 {
        servo.SetDirection(speed);
      } else {
        servo.SetDirection(brake);
        servo.SetDirection(0);
        servo.SetDirection(speed);
        ThreeCommands(servo, d0, w0, brake, 0, speed);
      }
      currentSpeed := speed;
    }

    /** breakMotor: above the threshold the brake command alone, leaving the
        current speed at the brake value; otherwise setSpeed(0). */
    method BreakMotor()
      requires Valid()
      modifies this`currentSpeed, servo, servo.pwm
      ensures Valid()
      ensures currentSpeed == AfterBrake(old(currentSpeed), brake, brakeThreshold)
      ensures servo.directions == old(servo.directions) + BrakeCommands(old(currentSpeed), brake, brakeThreshold)
      ensures servo.pwm.writes == old(servo.pwm.writes) + servo.WritesFor(BrakeCommands(old(currentSpeed), brake, brakeThreshold))
      ensures servo.pwm.base == old(servo.pwm.base)
    {
      if currentSpeed > brakeThreshold {
        servo.SetDirection(brake);
        currentSpeed := brake;
      } else {
        SetSpeed(0);
      }
    }
  }

  /** Three setDirection calls in a row: their logs compose. */
  lemma ThreeCommands(servo: Servo, d0: seq<int>, w0: seq<Write>, a: int, b: int, c: int)
    requires servo.lo <= servo.hi
    ensures d0 + [a] + [b] + [c] == d0 + [a, b, c]
    ensures w0 + servo.WritesFor([a]) + servo.WritesFor([b]) + servo.WritesFor([c]) == w0 + servo.WritesFor([a, b, c])
  {
    var ch, lo, hi, inv := servo.channel, servo.lo, servo.hi, servo.inverted;
    assert [a, b, c] == [a] + ([b] + [c]);
    DirectionWritesAppend(ch, lo, hi, inv, [b], [c]);
    DirectionWritesAppend(ch, lo, hi, inv, [a], [b] + [c]);
  }
}
