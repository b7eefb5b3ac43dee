/** The Kitronik Pico motor board driver: two H-bridges, each driven by a
    forward and a reverse PWM channel with a 16-bit duty register. */
module MotorDriver {
  import opened Wrappers

  /** Full scale of a 16-bit PWM duty register. */
  const MaxDuty: int := 65535

  /** The two ways `motorOn` raises. */
  datatype MotorError = InvalidDirection | InvalidMotor

  /** The four duty registers of the board. */
  datatype Duties = Duties(m1Forward: int, m1Reverse: int, m2Forward: int, m2Reverse: int)
  {
    /** Every register holds a 16-bit duty. */
    predicate InRange()
    {
      0 <= m1Forward <= MaxDuty && 0 <= m1Reverse <= MaxDuty &&
      0 <= m2Forward <= MaxDuty && 0 <= m2Reverse <= MaxDuty
    }

    /** The forward channel of motor 1 or 2. */
    function Forward(motor: int): int
      requires motor == 1 || motor == 2
    {
      if motor == 1 then m1Forward else m2Forward
    }

    /** The reverse channel of motor 1 or 2. */
    function Reverse(motor: int): int
      requires motor == 1 || motor == 2
    {
      if motor == 1 then m1Reverse else m2Reverse
    }
  }

  /** One `motorOn(motor, direction, speed)` call, with its arguments as passed. */
  datatype MotorCall = MotorCall(motor: int, direction: string, speed: int)

  /** The speed actually used: out-of-range requests are pulled into [0, 100]. */
  function ClampSpeed(speed: int): (s: int)
    ensures 0 <= s <= 100
    ensures speed < 0 ==> s == 0
    ensures speed > 100 ==> s == 100
    ensures 0 <= speed <= 100 ==> s == speed
  {
    if speed < 0 then 0 else if speed > 100 then 100 else speed
  }

  /** The duty for a speed percentage, truncated to an integer. */
  function Duty(speed: int): (d: int)
    requires 0 <= speed <= 100
    ensures 0 <= d <= MaxDuty
    ensures d == 0 <==> speed == 0
    ensures speed == 100 ==> d == MaxDuty
  {
    speed * MaxDuty / 100
  }

  /** A faster speed never gets a smaller duty. */
  lemma DutyMonotone(a: int, b: int)
    requires 0 <= a <= b <= 100
    ensures Duty(a) <= Duty(b)
  {
    assert a * MaxDuty <= b * MaxDuty;
  }

  /** What `motorOn` does to the registers: the selected direction channel
      gets the duty and the opposite channel 0, or the call raises and
      nothing is written. The motor is checked before the direction. */
  function MotorOnEffect(regs: Duties, motor: int, direction: string, speed: int): (r: Result<Duties, MotorError>)
    ensures r.Ok? <==> (motor == 1 || motor == 2) && (direction == "f" || direction == "r")
    ensures r.Err? ==> r.error == (if motor != 1 && motor != 2 then InvalidMotor else InvalidDirection)
    ensures r.Ok? && direction == "f" ==>
      r.value.Forward(motor) == Duty(ClampSpeed(speed)) && r.value.Reverse(motor) == 0
    ensures r.Ok? && direction == "r" ==>
      r.value.Forward(motor) == 0 && r.value.Reverse(motor) == Duty(ClampSpeed(speed))
    ensures r.Ok? ==> r.value.Forward(motor) == 0 || r.value.Reverse(motor) == 0
    ensures r.Ok? ==>
      r.value.Forward(3 - motor) == regs.Forward(3 - motor) &&
      r.value.Reverse(3 - motor) == regs.Reverse(3 - motor)
    ensures r.Ok? && regs.InRange() ==> r.value.InRange()
  {
    var pwm := Duty(ClampSpeed(speed));
    if motor == 1 then
      if direction == "f" then Ok(regs.(m1Forward := pwm, m1Reverse := 0))
      else if direction == "r" then Ok(regs.(m1Forward := 0, m1Reverse := pwm))
      else Err(InvalidDirection)
    else if motor == 2 then
      if direction == "f" then Ok(regs.(m2Forward := pwm, m2Reverse := 0))
      else if direction == "r" then Ok(regs.(m2Forward := 0, m2Reverse := pwm))
      else Err(InvalidDirection)
    else
      Err(InvalidMotor)
  }

  /** What `motorOff` does: both channels of the motor end at 0 and the
      other motor is untouched; an unknown motor raises. */
  function MotorOffEffect(regs: Duties, motor: int): (r: Result<Duties, MotorError>)
    ensures r.Ok? <==> motor == 1 || motor == 2
    ensures r.Err? ==> r.error == InvalidMotor
    ensures r.Ok? ==> r.value.Forward(motor) == 0 && r.value.Reverse(motor) == 0
    ensures r.Ok? ==>
      r.value.Forward(3 - motor) == regs.Forward(3 - motor) &&
      r.value.Reverse(3 - motor) == regs.Reverse(3 - motor)
  {
    MotorOnEffect(regs, motor, "f", 0)
  }

  /** The registers after one call; a call that raises leaves them as they were. */
  function ApplyCall(regs: Duties, c: MotorCall): Duties
  {
    match MotorOnEffect(regs, c.motor, c.direction, c.speed)
    case Ok(d) => d
    case Err(_) => regs
  }

  /** The registers after a sequence of calls, issued first to last. */
  function ApplyCalls(regs: Duties, cs: seq<MotorCall>): (r: Duties)
    ensures regs.InRange() ==> r.InRange()
    decreases |cs|
  {
    if cs == [] then regs
    else ApplyCall(ApplyCalls(regs, cs[..|cs| - 1]), cs[|cs| - 1])
  }

  /** Issuing `a` and then `b` is issuing `a + b`. */
  lemma {:induction false} ApplyCallsAppend(regs: Duties, a: seq<MotorCall>, b: seq<MotorCall>)
    ensures ApplyCalls(regs, a + b) == ApplyCalls(ApplyCalls(regs, a), b)
    decreases |b|
  {
    if b == [] {
      assert a + b == a;
    } else {
      var b' := b[..|b| - 1];
      assert (a + b)[..|a + b| - 1] == a + b';
      ApplyCallsAppend(regs, a, b');
    }
  }

  /** Calls that all go to motor 1 leave both channels of motor 2 unchanged. */
  lemma {:induction false} Motor1CallsSpareMotor2(regs: Duties, cs: seq<MotorCall>)
    requires forall k :: 0 <= k < |cs| ==> cs[k].motor == 1
    ensures ApplyCalls(regs, cs).m2Forward == regs.m2Forward
    ensures ApplyCalls(regs, cs).m2Reverse == regs.m2Reverse
    decreases |cs|
  {
    if cs != [] {
      Motor1CallsSpareMotor2(regs, cs[..|cs| - 1]);
    }
  }

  /** The k-th coil pulse of `step`: the pattern (1,f) (2,f) (1,r) (2,r)
      for "f" and (2,r) (1,r) (2,f) (1,f) for "r", repeated, always at
      full power. */
  function StepCall(direction: string, k: nat): (c: MotorCall)
    requires direction == "f" || direction == "r"
    ensures c.speed == 100
    ensures c.motor == 1 || c.motor == 2
    ensures c.direction == "f" || c.direction == "r"
  {
    var phase := k % 4;
    if direction == "f" then
      if phase == 0 then MotorCall(1, "f", 100)
      else if phase == 1 then MotorCall(2, "f", 100)
      else if phase == 2 then MotorCall(1, "r", 100)
      else MotorCall(2, "r", 100)
    else
      if phase == 0 then MotorCall(2, "r", 100)
      else if phase == 1 then MotorCall(1, "r", 100)
      else if phase == 2 then MotorCall(2, "f", 100)
      else MotorCall(1, "f", 100)
  }

  /** The pulses of `step(direction, steps)`: one per step, none when steps <= 0. */
  function StepCalls(direction: string, steps: int): seq<MotorCall>
    requires direction == "f" || direction == "r"
  {
    seq(if steps > 0 then steps else 0, k requires 0 <= k => StepCall(direction, k))
  }

  /** The `motorOff` calls that release the coils, in the order of the coil list. */
  function OffCalls(direction: string): seq<MotorCall>
    requires direction == "f" || direction == "r"
  {
    if direction == "f" then [MotorCall(1, "f", 0), MotorCall(2, "f", 0)]
    else [MotorCall(2, "f", 0), MotorCall(1, "f", 0)]
  }

  /** Every `motorOn` call `step(direction, steps, holdPosition)` makes. */
  function StepSequence(direction: string, steps: int, holdPosition: bool): seq<MotorCall>
    requires direction == "f" || direction == "r"
  {
    StepCalls(direction, steps) + (if holdPosition then [] else OffCalls(direction))
  }

  /** `step` issues exactly max(steps, 0) full-power pulses, cycling with period 4. */
  lemma StepCallsShape(direction: string, steps: int)
    requires direction == "f" || direction == "r"
    ensures |StepCalls(direction, steps)| == (if steps > 0 then steps else 0)
    ensures forall k :: 0 <= k < |StepCalls(direction, steps)| ==>
      StepCalls(direction, steps)[k].speed == 100 &&
      StepCalls(direction, steps)[k] == StepCall(direction, k % 4)
  {
  }

  /** Without holdPosition, `step` leaves all four channels at 0, whatever
      the pulses did. */
  lemma StepReleasesCoils(regs: Duties, direction: string, steps: int)
    requires direction == "f" || direction == "r"
    ensures ApplyCalls(regs, StepSequence(direction, steps, false)) == Duties(0, 0, 0, 0)
  {
    var pulses := StepCalls(direction, steps);
    var offs := OffCalls(direction);
    ApplyCallsAppend(regs, pulses, offs);
    assert offs[..1] == [offs[0]];
    assert [offs[0]][..0] == [];
  }

  /** With holdPosition and at least one step, the coil of the last pulse is
      left energised at full duty in the last pulse's direction, and its
      opposite channel is 0. */
  lemma HeldStepEnergisesLastCoil(regs: Duties, direction: string, steps: int)
    requires direction == "f" || direction == "r"
    requires steps > 0
    ensures var last := StepCall(direction, steps - 1);
      var after := ApplyCalls(regs, StepSequence(direction, steps, true));
      (last.direction == "f" ==> after.Forward(last.motor) == MaxDuty && after.Reverse(last.motor) == 0) &&
      (last.direction == "r" ==> after.Forward(last.motor) == 0 && after.Reverse(last.motor) == MaxDuty)
  {
    var cs := StepSequence(direction, steps, true);
    assert cs == StepCalls(direction, steps);
    assert cs[|cs| - 1] == StepCall(direction, steps - 1);
  }

  /** The board: four duty registers, written in place. `calls` records every
      `motorOn` call made on it, including those made by `motorOff` and `step`. */
  class KitronikPicoMotor {
    var motor1Forward: int
    var motor1Reverse: int
    var motor2Forward: int
    var motor2Reverse: int
    ghost var calls: seq<MotorCall>

    /** The registers as a value. */
    function Registers(): Duties
      reads this
    {
      Duties(motor1Forward, motor1Reverse, motor2Forward, motor2Reverse)
    }

    ghost predicate Valid()
      reads this
    {
      Registers().InRange()
    }

    /** A board with all four channels at duty 0. */
    constructor ()
      ensures Valid()
      ensures Registers() == Duties(0, 0, 0, 0)
      ensures calls == []
    {
      motor1Forward, motor1Reverse, motor2Forward, motor2Reverse := 0, 0, 0, 0;
      calls := [];
    }

    /** `motorOn(motor, direction, speed)`; `err` is the exception it raises. */
    method MotorOn(motor: int, direction: string, speed: int) returns (err: Option<MotorError>)
      requires Valid()
      modifies this
      ensures Valid()
      ensures calls == old(calls) + [MotorCall(motor, direction, speed)]
      ensures Registers() == ApplyCall(old(Registers()), MotorCall(motor, direction, speed))
      ensures match MotorOnEffect(old(Registers()), motor, direction, speed)
        case Ok(d) => err == None && Registers() == d
        case Err(e) => err == Some(e) && Registers() == old(Registers())
    {
      var s := ClampSpeed(speed);
      var pwm := Duty(s);
      err := None;
      if motor == 1 {
        if direction == "f" {
          motor1Forward := pwm;
          motor1Reverse := 0;
        } else if direction == "r" {
          motor1Forward := 0;
          motor1Reverse := pwm;
        } else {
          err := Some(InvalidDirection);
        }
      } else if motor == 2 {
        if direction == "f" {
          motor2Forward := pwm;
          motor2Reverse := 0;
        } else if direction == "r" {
          motor2Forward := 0;
          motor2Reverse := pwm;
        } else {
          err := Some(InvalidDirection);
        }
      } else {
        err := Some(InvalidMotor);
      }
      calls := calls + [MotorCall(motor, direction, speed)];
    }

    /** `motorOff(motor)`: a forward `motorOn` at speed 0. */
    method MotorOff(motor: int) returns (err: Option<MotorError>)
      requires Valid()
      modifies this
      ensures Valid()
      ensures calls == old(calls) + [MotorCall(motor, "f", 0)]
      ensures Registers() == ApplyCall(old(Registers()), MotorCall(motor, "f", 0))
      ensures match MotorOffEffect(old(Registers()), motor)
        case Ok(d) => err == None && Registers() == d
        case Err(e) => err == Some(e) && Registers() == old(Registers())
    {
      err := MotorOn(motor, "f", 0);
    }

    /** `step(direction, steps, holdPosition)`: drive a stepper motor wired to
        both H-bridges through `steps` full steps, then release the coils
        unless holdPosition is set. The pulse width only sets the timing and
        is not modelled. An invalid direction raises before any register changes. */
    method Step(direction: string, steps: int, holdPosition: bool) returns (err: Option<MotorError>)
      requires Valid()
      modifies this
      ensures Valid()
      ensures direction != "f" && direction != "r" ==>
        err == Some(InvalidDirection) && Registers() == old(Registers()) && calls == old(calls)
      ensures direction == "f" || direction == "r" ==>
        err == None &&
        calls == old(calls) + StepSequence(direction, steps, holdPosition) &&
        Registers() == ApplyCalls(old(Registers()), StepSequence(direction, steps, holdPosition))
    {
      var directions: seq<string>, coils: seq<int>;
      if direction == "f" {
        directions, coils := ["f", "r"], [1, 2];
      } else if direction == "r" {
        directions, coils := ["r", "f"], [2, 1];
      } else {
        return Some(InvalidDirection);
      }
      err := None;
      ghost var regs0 := Registers();
      Pulses(direction, directions, coils, steps);
      if !holdPosition {
        ReleaseCoils(direction, coils);
        ApplyCallsAppend(regs0, StepCalls(direction, steps), OffCalls(direction));
      } else {
        assert StepCalls(direction, steps) + [] == StepCalls(direction, steps);
      }
    }

    /** The `while steps > 0` loop of `step`, with its two nested `for` loops
        over the direction list and the coil list. */
    method Pulses(direction: string, directions: seq<string>, coils: seq<int>, steps: int)
      requires direction == "f" || direction == "r"
      requires directions == (if direction == "f" then ["f", "r"] else ["r", "f"])
      requires coils == (if direction == "f" then [1, 2] else [2, 1])
      requires Valid()
      modifies this
      ensures Valid()
      ensures calls == old(calls) + StepCalls(direction, steps)
      ensures Registers() == ApplyCalls(old(Registers()), StepCalls(direction, steps))
    {
      ghost var calls0, regs0 := calls, Registers();
      var remaining := steps;
      ghost var round: nat := 0;
      while remaining > 0
        invariant Valid()
        invariant remaining < 0 ==> remaining == steps
        invariant remaining > 0 ==> steps - remaining == 4 * round
        invariant Stepped(calls0, regs0, direction, if remaining < 0 then 0 else steps - remaining)
      {
        var i := 0;
        while i < |directions|
          invariant 0 <= i <= |directions|
          invariant Valid()
          invariant 0 <= remaining <= steps
          invariant remaining > 0 ==> steps - remaining == 4 * round + 2 * i
          invariant Stepped(calls0, regs0, direction, steps - remaining)
        {
          if remaining == 0 {
            break;
          }
          remaining := CoilPass(calls0, regs0, direction, directions, coils, i, steps, remaining, round);
          i := i + 1;
        }
        round := round + 1;
      }
    }

    /** The inner `for coil in coils` loop of `step`, for the i-th direction:
        one pulse per coil, stopping early when the step count runs out. */
    method CoilPass(ghost calls0: seq<MotorCall>, ghost regs0: Duties, direction: string,
                    directions: seq<string>, coils: seq<int>, i: nat, ghost steps: int, remaining: int,
                    ghost round: nat) returns (left: int)
      requires direction == "f" || direction == "r"
      requires directions == (if direction == "f" then ["f", "r"] else ["r", "f"])
      requires coils == (if direction == "f" then [1, 2] else [2, 1])
      requires i < 2 && 0 < remaining <= steps && steps - remaining == 4 * round + 2 * i
      requires Valid() && Stepped(calls0, regs0, direction, steps - remaining)
      modifies this
      ensures 0 <= left < remaining
      ensures Valid() && Stepped(calls0, regs0, direction, steps - left)
      ensures left == (if remaining >= 2 then remaining - 2 else 0)
    {
      left := remaining;
      var j := 0;
      while j < |coils|
        invariant 0 <= j <= |coils|
        invariant Valid()
        invariant 0 < left && left == remaining - j
        invariant Stepped(calls0, regs0, direction, steps - left)
      {
        StepCallAt(direction, round, 2 * i + j);
        StepPattern(direction, directions, coils, i, j);
        Pulse(calls0, regs0, direction, steps - left, coils[j], directions[i]);
        left := left - 1;
        if left == 0 {
          break;
        }
        j := j + 1;
      }
    }

    /** `calls0` and `regs0` followed by the first `issued` pulses of `step` give
        the current trace and registers. */
    ghost predicate Stepped(calls0: seq<MotorCall>, regs0: Duties, direction: string, issued: nat)
      requires direction == "f" || direction == "r"
      reads this
    {
      calls == calls0 + StepCalls(direction, issued) &&
      Registers() == ApplyCalls(regs0, StepCalls(direction, issued))
    }

    /** One coil pulse of `step`: `motorOn(coil, dir, 100)`. */
    method Pulse(ghost calls0: seq<MotorCall>, ghost regs0: Duties, direction: string, ghost issued: nat,
                 coil: int, dir: string)
      requires direction == "f" || direction == "r"
      requires MotorCall(coil, dir, 100) == StepCall(direction, issued)
      requires Valid() && Stepped(calls0, regs0, direction, issued)
      modifies this
      ensures Valid() && Stepped(calls0, regs0, direction, issued + 1)
    {
      var e := MotorOn(coil, dir, 100);
      StepCallsSnoc(direction, issued);
    }

    /** The final `motorOff` of each coil in `step`. */
    method ReleaseCoils(direction: string, coils: seq<int>)
      requires direction == "f" || direction == "r"
      requires coils == (if direction == "f" then [1, 2] else [2, 1])
      requires Valid()
      modifies this
      ensures Valid()
      ensures calls == old(calls) + OffCalls(direction)
      ensures Registers() == ApplyCalls(old(Registers()), OffCalls(direction))
    {
      var e := MotorOff(coils[0]);
      e := MotorOff(coils[1]);
      assert OffCalls(direction)[..1] == [OffCalls(direction)[0]];
      assert [OffCalls(direction)[0]][..0] == [];
    }
  }

  /** Pulse number 4 * round + offset follows the cyclic pattern. */
  lemma StepCallAt(direction: string, round: nat, offset: nat)
    requires direction == "f" || direction == "r"
    requires offset < 4
    ensures StepCall(direction, 4 * round + offset) == StepCall(direction, offset)
  {
    assert (4 * round + offset) % 4 == offset;
  }

  /** The nested loops of `step` walk the pattern: offset 2 * i + j uses
      the i-th direction and the j-th coil of the lists `step` sets up. */
  lemma StepPattern(direction: string, directions: seq<string>, coils: seq<int>, i: nat, j: nat)
    requires direction == "f" || direction == "r"
    requires directions == (if direction == "f" then ["f", "r"] else ["r", "f"])
    requires coils == (if direction == "f" then [1, 2] else [2, 1])
    requires i < 2 && j < 2
    ensures StepCall(direction, 2 * i + j) == MotorCall(coils[j], directions[i], 100)
  {
    var offset := 2 * i + j;
    assert offset % 4 == offset;
    if direction == "f" {
      if i == 0 && j == 0 { assert offset == 0; }
      else if i == 0 { assert offset == 1; }
      else if j == 0 { assert offset == 2; }
      else { assert offset == 3; }
    } else {
      if i == 0 && j == 0 { assert offset == 0; }
      else if i == 0 { assert offset == 1; }
      else if j == 0 { assert offset == 2; }
      else { assert offset == 3; }
    }
  }

  /** One more step appends one more pulse. */
  lemma StepCallsSnoc(direction: string, n: nat)
    requires direction == "f" || direction == "r"
    ensures StepCalls(direction, n + 1) == StepCalls(direction, n) + [StepCall(direction, n)]
    ensures StepCalls(direction, n + 1)[..n] == StepCalls(direction, n)
  {
  }
}
