# Monorail motor control: a Dafny model

This project models the control core of a small monorail vehicle run by a Raspberry Pi Pico. The core has four parts:

- the Kitronik Pico motor board driver (`PicoMotorDriver.py`);
- the ultrasonic distance conversion;
- the mapping from HTTP request line to requested speed;
- the obstacle-guard control loop of `main.py`.

Modules:

- `Wrappers` — `Option` (Python's `None`) and `Result` (a call that may raise).
- `MotorDriver` — the board class `KitronikPicoMotor`. It holds the four PWM duty registers as fields (`motor1Forward`, `motor1Reverse`, `motor2Forward`, `motor2Reverse`) and a ghost trace `calls` of every `motorOn` call made on it. `MotorOn`, `MotorOff` and `Step` are methods that update the fields in place. Each is proved against the pure functions `MotorOnEffect` and `MotorOffEffect`, or against the fold `ApplyCalls` over the call trace. `Step` builds the direction and coil lists, runs the pulses and releases the coils. The helper method `Pulses` holds the source's `while steps > 0` loop and its `for direction` loop. The helper method `CoilPass` holds the inner `for coil` loop. Their invariants cover the remaining step count and the trace. The cyclic pulse pattern is the reference function `StepCall`.
- `Sensor` — `get_distance`'s conversion from echo pulse width in microseconds to centimetres. It uses exact reals and the constant 0.0343.
- `Commands` — the request line is the text before the first line feed. The six `GET /Motor/...` patterns are tried by substring, in order, and the first hit wins (`UpdateSpeed`). The server's request loop is `ServeRequests`, which starts from the initial speed 0.
- `ObstacleGuard` — `Motor()`. The integer `step` 0/1/2 becomes `Phase = Running | Stopping | Waiting`. One iteration is the pure function `Iterate(phase, requested, reading)`, which returns the new phase and the command for motor 1. The loop is the fold `Run` over snapshots of (requested speed, echo pulse width). `ControlLoop` runs that loop against a `KitronikPicoMotor` board and is proved to produce exactly the fold's calls and register state.

Behaviour worth noting:

- **State 2 does not force speed 0.** Only `step == 1` forces speed 0 (main.py:185-186). In state 2 the motor runs at the requested speed, and a close reading does not trip the guard again until a reading over 30 cm has returned it to state 0. `WaitingDoesNotForceStop` and `StopAndGoExample` state this.
- **Patterns include the method.** The code tests for `GET /Motor/on1` and so on (main.py:138-149), so a `POST` request changes nothing (`PostIsIgnored`).
- **The duty is truncated.** `int(speed * 655.35)` (PicoMotorDriver.py:43) drops the fraction. The model uses integer floor division, `speed * 65535 / 100`.
- **A bad selector raises.** The motor number and direction are plain integers and strings. An invalid one raises, and the model returns that exception as a result. The motor is checked before the direction (PicoMotorDriver.py:45-64).

## Model

| member | source | states |
|---|---|---|
| MotorDriver.ClampSpeed | PicoMotorDriver.py:37-40 | the speed used lies in [0,100]: below 0 becomes 0, above 100 becomes 100, and anything in range is kept |
| MotorDriver.Duty | PicoMotorDriver.py:43 | the duty lies in [0,65535], is 0 exactly at speed 0, and is 65535 at speed 100 |
| MotorDriver.DutyMonotone | PicoMotorDriver.py:43 | a higher speed never gets a lower duty |
| MotorDriver.MotorOnEffect | PicoMotorDriver.py:45-64 | succeeds exactly for motor 1 or 2 and direction "f" or "r"; otherwise raises INVALID MOTOR (checked first) or INVALID DIRECTION and writes nothing; "f" puts the duty on the forward channel and 0 on the reverse, "r" mirrors this; both channels of one motor are never nonzero; the other motor's channels are unchanged; duties stay 16-bit |
| MotorDriver.MotorOffEffect | PicoMotorDriver.py:66-73 | for motor 1 or 2 both channels end at 0 and the other motor is untouched; any other motor raises INVALID MOTOR |
| MotorDriver.Motor1CallsSpareMotor2 | PicoMotorDriver.py:45-62 | any series of calls to motor 1 leaves both channels of motor 2 unchanged |
| MotorDriver.StepCall | PicoMotorDriver.py:92-110 | every pulse of `step` is a full-power (100) call on coil 1 or 2 with direction "f" or "r" |
| MotorDriver.StepPattern | PicoMotorDriver.py:92-106 | the nested loops over the direction list and the coil list visit (1,f),(2,f),(1,r),(2,r) for "f" and (2,r),(1,r),(2,f),(1,f) for "r" |
| MotorDriver.StepCallsShape | PicoMotorDriver.py:101-110 | `step` makes exactly `steps` pulses when steps > 0 and none otherwise, all at speed 100, repeating the pattern every 4 pulses |
| MotorDriver.StepReleasesCoils | PicoMotorDriver.py:112-115 | without holdPosition, all four channels end at 0, whatever the pulses left behind |
| MotorDriver.HeldStepEnergisesLastCoil | PicoMotorDriver.py:101-115 | with holdPosition and steps > 0, the coil of the last pulse keeps full duty in that pulse's direction and 0 on its opposite channel |
| MotorDriver.KitronikPicoMotor.constructor | PicoMotorDriver.py:133-156 | a new board has all four duty registers at 0 and an empty call trace |
| MotorDriver.KitronikPicoMotor.MotorOn | PicoMotorDriver.py:27-64 | the registers become `MotorOnEffect` of the old ones, or stay as they were together with the raised error; the call is appended to the trace |
| MotorDriver.KitronikPicoMotor.MotorOff | PicoMotorDriver.py:66-73 | a forward `motorOn` at speed 0: the registers become `MotorOffEffect` of the old ones, or INVALID MOTOR leaves them unchanged |
| MotorDriver.KitronikPicoMotor.Step | PicoMotorDriver.py:82-115 | an invalid direction raises with registers and trace unchanged; otherwise the trace gains exactly the pulse sequence (plus the two coil releases unless holdPosition), and the registers are those calls applied in order |
| MotorDriver.KitronikPicoMotor.Pulses | PicoMotorDriver.py:101-110 | the `while steps > 0` loop appends exactly the first max(steps,0) pulses of the pattern to the trace and applies them to the registers |
| MotorDriver.KitronikPicoMotor.CoilPass | PicoMotorDriver.py:105-110 | one pass of the coil loop issues the next pulses in pattern order, one per coil, and leaves max(remaining - 2, 0) steps; it stops early exactly when the step count reaches 0 |
| MotorDriver.KitronikPicoMotor.Pulse | PicoMotorDriver.py:106-108 | one pulse extends the trace and the registers by the next call of the pattern |
| MotorDriver.KitronikPicoMotor.ReleaseCoils | PicoMotorDriver.py:113-115 | turns both coils off in the order of the coil list |
| Sensor.Distance | main.py:72-77 | no reading exactly when the pulse time is negative; otherwise a non-negative distance whose double is the pulse time times 0.0343 cm/µs |
| Sensor.DistanceMonotone | main.py:76 | a longer echo never gives a shorter distance |
| Sensor.UnderTenCentimetres | main.py:76 | a reading is under 10 cm exactly for pulse times 0..583 µs |
| Sensor.OverThirtyCentimetres | main.py:76 | a reading is over 30 cm exactly for pulse times of 1750 µs and more |
| Commands.FirstLine | main.py:134 | the request line is a prefix of the request, contains no line feed, and is followed by a line feed unless it is the whole request |
| Commands.NoNewlineIsFirstLine | main.py:134 | a request without a line feed is its own request line |
| Commands.OnlyFirstLine | main.py:134 | text after the first line feed never affects the speed |
| Commands.UpdateSpeed | main.py:134-149 | the first of on1..on5, off that the request line contains decides the speed (100, 90, 80, 70, 60, 0); a line matching none keeps the old speed; a speed in [0,100] stays in [0,100] |
| Commands.RecognisedOverrides | main.py:138-149 | a recognised request line sets the speed regardless of the old one |
| Commands.NonGetLeavesSpeed | main.py:138-149 | a request line without `GET /Motor/` matches no pattern and leaves the speed unchanged |
| Commands.PostIsIgnored | main.py:138-149 | `POST /Motor/on1 HTTP/1.1` leaves the speed unchanged |
| Commands.LeadingRoute | main.py:138-149 | a request line that starts with a pattern and has no other `G` selects that pattern's speed |
| Commands.On3Example | main.py:142-143 | `GET /Motor/on3 HTTP/1.1` sets the speed to 80 |
| Commands.SpeedAfter | main.py:127-149 | the speed after a series of requests stays in [0,100] when it starts there |
| Commands.ServeRequests | main.py:127-149 | the request loop, starting from speed 0, ends at the speed the requests select, which lies in [0,100] |
| Commands.LastRecognisedWins | main.py:127-149 | the last recognised request decides the speed, and unrecognised requests after it change nothing |
| Commands.TwoWritesExample | main.py:138-149 | the commands on3 then off leave speed 0 |
| ObstacleGuard.Unforced | main.py:189-192 | without the guard intervening, motor 1 is driven forward exactly when the requested speed is positive, at that speed |
| ObstacleGuard.Iterate | main.py:169-197 | one iteration never ends in state 1. A trip (speed > 0, reading present, under 10 cm, state 0) turns motor 1 off and ends in state 2. State 0 stays 0 without a trip. State 2 becomes 0 exactly on a clear reading (speed > 0, reading present, over 30 cm). A missing reading or speed <= 0 never changes the state, and speed <= 0 always turns the motor off. Without a trip, motor 1 follows the requested speed, in state 2 too |
| ObstacleGuard.Run | main.py:166-199 | the loop gives one command per iteration, and from state 0 or 2 it never ends in state 1 |
| ObstacleGuard.RunAt | main.py:168-199 | iteration k of the loop is one `Iterate` from the state left by the first k iterations |
| ObstacleGuard.TripOnlyOverride | main.py:179-192 | in every iteration, motor 1 is turned off and the state becomes 2 when the guard trips; otherwise motor 1 follows the requested speed |
| ObstacleGuard.NeverStoppingBetweenIterations | main.py:166-197 | starting from step 0, `step` is 0 or 2 at the end of every iteration |
| ObstacleGuard.TimeoutsAreNeutral | main.py:172-182 | echo timeouts never change the state, and the motor follows the requested speed |
| ObstacleGuard.IdleNeverTrips | main.py:179-192 | with speed 0 requested throughout, the state never changes and motor 1 is only ever turned off |
| ObstacleGuard.ClearPathPassesThrough | main.py:179-192 | while no reading is under 10 cm, the guard stays in state 0 and motor 1 follows the requested speed |
| ObstacleGuard.StopAndGoExample | main.py:179-197 | at 50 %: an 8 cm reading stops the motor and leaves state 2; a 20 cm reading keeps state 2 with the motor at 50 %; a 35 cm reading returns to state 0 |
| ObstacleGuard.WaitingDoesNotForceStop | main.py:181-192 | in state 2 with speed > 0, a reading of 30 cm or less keeps state 2 and drives the motor at the requested speed |
| ObstacleGuard.CommandCall | main.py:189-192 | every command of the loop is a forward `motorOn` on motor 1 (`motorOff(1)` being speed 0) |
| ObstacleGuard.LoopSparesMotor2 | main.py:189-192 | the control loop never changes motor 2's channels |
| ObstacleGuard.Issue | main.py:189-192 | commanding motor 1 appends its call to the board's trace, applies it, leaves motor 2 alone and leaves motor 1's reverse channel at 0 |
| ObstacleGuard.ControlLoop | main.py:158-199 | driving a board, the loop ends in the fold's state, appends exactly the fold's commands to the trace, and leaves the registers at those commands applied in order; motor 2 is untouched, and after at least one iteration motor 1's reverse channel is 0 |

## Left out

- Wi-Fi association, the socket server, the HTML page and the response (main.py:36-53, 81-116, 129-131, 151-156). These are network I/O and static content.
- The status LED and every `print`. They are I/O and logging only.
- `request.decode()` and the 1024-byte `recv`. The model starts from the request as a character sequence.
- The trigger pulse and `time_pulse_us` (main.py:63-70). These are hardware timing. The echo pulse width is an input integer, negative on timeout.
- All sleeps: the 2 s dwell, the 50 ms period, and the pulse width of `step`. They are timing only. The dwell is part of the iteration that trips the guard, and `step`'s `speed` argument is not modelled.
- The `Motor()` thread and the unsynchronised global `speed` (main.py:125, 163, 203-205). These are concurrency:
  - the control loop consumes a given series of speed snapshots;
  - the request loop is modelled on its own;
  - the interleaving of the two is not modelled.
- The endless loops of `main()` and `Motor()`. They are modelled over finite series of requests and snapshots.
- `__init__`'s PWM objects and frequency setup (PicoMotorDriver.py:133-156). These are foreign hardware calls. The four duty registers are plain integers, starting at 0.
- `stepAngle` (PicoMotorDriver.py:117-131). It needs float division, and it prints.
- Float arithmetic. The duty is `speed * 65535 / 100` with integer floor in place of `int(speed * 655.35)`. The distance uses exact reals in place of IEEE floats.
- Python's dynamic typing: speeds, step counts and pulse times are integers. Float arguments to `motorOn` or `step` are not modelled.
