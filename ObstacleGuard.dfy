/** The motor-control thread: every iteration takes a snapshot of the
    requested speed, reads the range finder, runs the obstacle guard and
    commands motor 1. The guard's state is the integer `step` of the
    source: 0 running, 1 stopping (only ever inside one iteration, across
    the 2-second dwell), 2 waiting to re-arm. */
module ObstacleGuard {
  import opened Wrappers
  import opened Sensor
  import MotorDriver

  /** `step` 0, 1 and 2. */
  datatype Phase = Running | Stopping | Waiting

  /** The command one iteration gives motor 1: `motorOn(1, "f", speed)` or `motorOff(1)`. */
  datatype Command = Drive(speed: int) | Off

  /** The state and command at the end of one iteration. */
  datatype Outcome = Outcome(phase: Phase, command: Command)

  /** What one iteration reads: the requested speed and the echo pulse width. */
  datatype Snapshot = Snapshot(requested: int, pulseTime: int)

  /** The state after a series of iterations and the commands they gave, in order. */
  datatype Progress = Progress(phase: Phase, commands: seq<Command>)

  /** Readings under this distance (cm) stop travel. */
  const TripDistance: real := 10.0
  /** Readings over this distance (cm) re-arm travel. */
  const ClearDistance: real := 30.0

  /** The guard trips: travel requested, an obstacle closer than 10 cm, guard armed. */
  predicate Trips(phase: Phase, requested: int, reading: Option<real>)
  {
    phase == Running && requested > 0 && reading.Some? && reading.value < TripDistance
  }

  /** The guard re-arms: travel requested, the way clear beyond 30 cm, guard waiting. */
  predicate Clears(phase: Phase, requested: int, reading: Option<real>)
  {
    phase == Waiting && requested > 0 && reading.Some? && reading.value > ClearDistance
  }

  /** The command when the guard does not intervene: forward at the requested
      speed if it is positive, otherwise off. */
  function Unforced(requested: int): (c: Command)
    ensures c.Drive? <==> requested > 0
    ensures c.Drive? ==> c.speed == requested
  {
    if requested > 0 then Drive(requested) else Off
  }

  /** One iteration of the control loop. A trip turns the motor off, holds for
      the dwell and leaves the guard waiting; while waiting, the motor runs at
      the requested speed and only a clear reading re-arms the guard. */
  function Iterate(phase: Phase, requested: int, reading: Option<real>): (r: Outcome)
    ensures r.phase != Stopping
    ensures Trips(phase, requested, reading) ==> r == Outcome(Waiting, Off)
    ensures phase == Running && !Trips(phase, requested, reading) ==> r.phase == Running
    ensures phase == Waiting ==> (r.phase == Running <==> Clears(phase, requested, reading))
    ensures phase == Waiting && !Clears(phase, requested, reading) ==> r.phase == Waiting
    ensures reading.None? && phase != Stopping ==> r.phase == phase
    ensures requested <= 0 ==> r.command == Off
    ensures requested <= 0 && phase != Stopping ==> r.phase == phase
    ensures phase != Stopping && !Trips(phase, requested, reading) ==> r.command == Unforced(requested)
  {
    var afterReading :=
      match reading
      case None => phase
      case Some(dist) =>
        var tripped := if requested > 0 && dist < TripDistance && phase == Running then Stopping else phase;
        if requested > 0 && dist > ClearDistance && tripped == Waiting then Running else tripped;
    var speedNew := if afterReading == Stopping then 0 else requested;
    var command := if speedNew > 0 then Drive(speedNew) else Off;
    Outcome(if afterReading == Stopping then Waiting else afterReading, command)
  }

  /** The loop run over a series of snapshots, from a given state. */
  function Run(start: Phase, snaps: seq<Snapshot>): (r: Progress)
    ensures |r.commands| == |snaps|
    ensures start != Stopping ==> r.phase != Stopping
    decreases |snaps|
  {
    if snaps == [] then Progress(start, [])
    else
      var before := Run(start, snaps[..|snaps| - 1]);
      var last := snaps[|snaps| - 1];
      var o := Iterate(before.phase, last.requested, Distance(last.pulseTime));
      Progress(o.phase, before.commands + [o.command])
  }

  /** Iteration k of a run is one `Iterate` from the state the first k
      iterations left: its command is the k-th command of the run. */
  lemma {:induction false} RunAt(start: Phase, snaps: seq<Snapshot>, k: nat)
    requires k < |snaps|
    ensures var o := Iterate(Run(start, snaps[..k]).phase, snaps[k].requested, Distance(snaps[k].pulseTime));
      Run(start, snaps).commands[k] == o.command && Run(start, snaps[..k + 1]).phase == o.phase
    decreases |snaps|
  {
    var front := snaps[..|snaps| - 1];
    if k < |snaps| - 1 {
      assert front[..k] == snaps[..k];
      assert front[..k + 1] == snaps[..k + 1];
      RunAt(start, front, k);
    } else {
      assert snaps[..k] == front;
      assert snaps[..k + 1] == snaps;
    }
  }

  /** In any iteration where the guard trips, motor 1 is turned off and the
      iteration ends waiting; in any other iteration motor 1 follows the
      requested speed, in the waiting state too. */
  lemma TripOnlyOverride(snaps: seq<Snapshot>, k: nat)
    requires k < |snaps|
    ensures var phase := Run(Running, snaps[..k]).phase;
      var reading := Distance(snaps[k].pulseTime);
      (Trips(phase, snaps[k].requested, reading) ==>
         Run(Running, snaps).commands[k] == Off && Run(Running, snaps[..k + 1]).phase == Waiting) &&
      (!Trips(phase, snaps[k].requested, reading) ==>
         Run(Running, snaps).commands[k] == Unforced(snaps[k].requested))
  {
    RunAt(Running, snaps, k);
  }

  /** Starting from step 0, `step` is 0 or 2 at the end of every iteration. */
  lemma NeverStoppingBetweenIterations(snaps: seq<Snapshot>, n: nat)
    requires n <= |snaps|
    ensures Run(Running, snaps[..n]).phase == Running || Run(Running, snaps[..n]).phase == Waiting
  {
  }

  /** Echo timeouts never change the guard's state and never override the
      requested speed. */
  lemma {:induction false} TimeoutsAreNeutral(start: Phase, snaps: seq<Snapshot>)
    requires start != Stopping
    requires forall k :: 0 <= k < |snaps| ==> snaps[k].pulseTime < 0
    ensures Run(start, snaps).phase == start
    ensures forall k :: 0 <= k < |snaps| ==> Run(start, snaps).commands[k] == Unforced(snaps[k].requested)
    decreases |snaps|
  {
    if snaps != [] {
      var front := snaps[..|snaps| - 1];
      TimeoutsAreNeutral(start, front);
    }
  }

  /** With speed 0 requested throughout, the guard's state never changes and
      the motor is only ever turned off. */
  lemma {:induction false} IdleNeverTrips(start: Phase, snaps: seq<Snapshot>)
    requires start != Stopping
    requires forall k :: 0 <= k < |snaps| ==> snaps[k].requested <= 0
    ensures Run(start, snaps).phase == start
    ensures forall k :: 0 <= k < |snaps| ==> Run(start, snaps).commands[k] == Off
    decreases |snaps|
  {
    if snaps != [] {
      var front := snaps[..|snaps| - 1];
      IdleNeverTrips(start, front);
    }
  }

  /** While no reading is closer than 10 cm (an echo of 584 microseconds or
      more, or a timeout), a running guard stays running and the motor
      follows the requested speed. */
  lemma {:induction false} ClearPathPassesThrough(snaps: seq<Snapshot>)
    requires forall k :: 0 <= k < |snaps| ==> snaps[k].pulseTime < 0 || 584 <= snaps[k].pulseTime
    ensures Run(Running, snaps).phase == Running
    ensures forall k :: 0 <= k < |snaps| ==> Run(Running, snaps).commands[k] == Unforced(snaps[k].requested)
    decreases |snaps|
  {
    if snaps != [] {
      var front := snaps[..|snaps| - 1];
      ClearPathPassesThrough(front);
      UnderTenCentimetres(snaps[|snaps| - 1].pulseTime);
    }
  }

  /** Stop-and-go: at 50 % requested, a reading of about 8 cm stops the motor
      and leaves the guard waiting; at about 20 cm the guard keeps waiting but
      the motor runs at 50 % again; at about 35 cm the guard re-arms. */
  lemma StopAndGoExample(snaps: seq<Snapshot>)
    requires snaps == [Snapshot(50, 466), Snapshot(50, 1166), Snapshot(50, 2041)]
    ensures Run(Running, snaps[..1]) == Progress(Waiting, [Off])
    ensures Run(Running, snaps[..2]) == Progress(Waiting, [Off, Drive(50)])
    ensures Run(Running, snaps) == Progress(Running, [Off, Drive(50), Drive(50)])
  {
    assert snaps[..1][..0] == [];
    assert snaps[..2][..1] == snaps[..1];
    assert snaps[..2] == snaps[..|snaps| - 1];
  }

  /** While waiting, a close obstacle does not stop the motor again. */
  lemma WaitingDoesNotForceStop(requested: int, dist: real)
    requires requested > 0 && dist <= ClearDistance
    ensures Iterate(Waiting, requested, Some(dist)) == Outcome(Waiting, Drive(requested))
  {
  }

  /** The `motorOn` call a command makes: `motorOff(1)` is `motorOn(1, "f", 0)`. */
  function CommandCall(c: Command): (call: MotorDriver.MotorCall)
    ensures call.motor == 1 && call.direction == "f"
  {
    match c
    case Drive(speed) => MotorDriver.MotorCall(1, "f", speed)
    case Off => MotorDriver.MotorCall(1, "f", 0)
  }

  /** The `motorOn` calls of a series of commands. */
  function CommandCalls(cs: seq<Command>): seq<MotorDriver.MotorCall>
  {
    seq(|cs|, k requires 0 <= k < |cs| => CommandCall(cs[k]))
  }

  /** The control loop never touches motor 2. */
  lemma LoopSparesMotor2(regs: MotorDriver.Duties, snaps: seq<Snapshot>)
    ensures MotorDriver.ApplyCalls(regs, CommandCalls(Run(Running, snaps).commands)).m2Forward == regs.m2Forward
    ensures MotorDriver.ApplyCalls(regs, CommandCalls(Run(Running, snaps).commands)).m2Reverse == regs.m2Reverse
  {
    MotorDriver.Motor1CallsSpareMotor2(regs, CommandCalls(Run(Running, snaps).commands));
  }

  /** Give motor 1 its command for this iteration. */
  method Issue(board: MotorDriver.KitronikPicoMotor, c: Command)
    requires board.Valid()
    modifies board
    ensures board.Valid()
    ensures board.calls == old(board.calls) + [CommandCall(c)]
    ensures board.Registers() == MotorDriver.ApplyCall(old(board.Registers()), CommandCall(c))
    ensures board.motor2Forward == old(board.motor2Forward) && board.motor2Reverse == old(board.motor2Reverse)
    ensures board.motor1Reverse == 0
  {
    var err;
    match c {
      case Drive(speed) => err := board.MotorOn(1, "f", speed);
      case Off => err := board.MotorOff(1);
    }
  }

  /** `Motor()`: the control loop over a series of snapshots, commanding the
      board. The loop state starts at step 0. */
  method ControlLoop(board: MotorDriver.KitronikPicoMotor, snaps: seq<Snapshot>) returns (phase: Phase)
    requires board.Valid()
    modifies board
    ensures board.Valid()
    ensures phase == Run(Running, snaps).phase
    ensures board.calls == old(board.calls) + CommandCalls(Run(Running, snaps).commands)
    ensures board.Registers() == MotorDriver.ApplyCalls(old(board.Registers()), CommandCalls(Run(Running, snaps).commands))
    ensures board.motor2Forward == old(board.motor2Forward) && board.motor2Reverse == old(board.motor2Reverse)
    ensures |snaps| > 0 ==> board.motor1Reverse == 0
  {
    phase := Running;
    ghost var calls0, regs0 := board.calls, board.Registers();
    for i := 0 to |snaps|
      invariant board.Valid()
      invariant phase == Run(Running, snaps[..i]).phase
      invariant board.calls == calls0 + CommandCalls(Run(Running, snaps[..i]).commands)
      invariant board.Registers() == MotorDriver.ApplyCalls(regs0, CommandCalls(Run(Running, snaps[..i]).commands))
      invariant board.motor2Forward == regs0.m2Forward && board.motor2Reverse == regs0.m2Reverse
      invariant i > 0 ==> board.motor1Reverse == 0
    {
      ghost var before := Run(Running, snaps[..i]);
      var dist := Distance(snaps[i].pulseTime);
      var o := Iterate(phase, snaps[i].requested, dist);
      Issue(board, o.command);
      phase := o.phase;
      assert snaps[..i + 1][..i] == snaps[..i];
      assert Run(Running, snaps[..i + 1]) == Progress(o.phase, before.commands + [o.command]);
      assert CommandCalls(before.commands + [o.command]) == CommandCalls(before.commands) + [CommandCall(o.command)];
      assert (CommandCalls(before.commands) + [CommandCall(o.command)])[..|before.commands|] == CommandCalls(before.commands);
    }
    assert snaps[..|snaps|] == snaps;
  }
}
