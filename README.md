# Differential-drive rover controller

A Dafny model of PX4's differential-drive rover module. The model covers:
- the per-cycle `DifferentialDrive::Run()`;
- `updateParams()`;
- the constructor.

Each cycle does the following:
1. It computes `dt` from unsigned 64-bit microsecond timestamps, capped at `kTimeoutUs`.
2. It re-reads the parameters when a parameter update arrived.
3. It copies the vehicle-state snapshots that arrived into their sticky fields.
4. It picks the setpoint source: the joystick in manual mode, the guidance library in mission mode, and otherwise the last setpoint.
5. It takes setpoints injected on the control-output and setpoint topics. A control output zeroes the two stored PID outputs; a setpoint message recomputes them with `pid_calculate`.
6. It runs the inverse kinematics and forces a stop when the vehicle is disarmed, the setpoint is older than 100 ms, or the speed scale is not above `FLT_EPSILON`.
7. It saturates the result to [-1, 1] and emits an `actuator_motors` record.

Layout:
- `messages.dfy` (`Messages`): the message records, the 64-bit time type, the per-cycle `Inputs` and the `Collaborators` record that carries the foreign libraries.
  - Each subscription is an `Option`: `Some(m)` when the topic was updated and `m` was copied out of it.
  - The libraries are arbitrary total functions, so every property holds whatever they return. These are the PID library, the kinematics, the guidance, the Euler-yaw conversion and `rotateVectorInverse`.
  - The PID struct and the guidance object are the opaque type parameters `P` and `G`.
- `control_laws.dfy` (`ControlLaws`): the arithmetic. It covers elapsed time and `dt`, the freshness test, the saturation and stop stage, the derived limits and the manual setpoint.
- `drive_spec.dfy` (`DriveSpec`): one cycle as a function `Step` on the controller's state. It is built from one function per block of `Run()`, plus the constructor's state and the loopback inputs.
- `differential_drive.dfy` (`DriveController`): the class `DifferentialDrive`.
  - Its fields are the module's member variables, grouped into the records of `DriveSpec`: configuration, PID pair, guidance, vehicle state and command.
  - `UpdateParams` and `Run` update those fields in the source's order. `Run` calls one method per block of the cycle.
  - Each method is proved against the `DriveSpec` function for its block. `Run` ends in exactly the state and output of `Step`.
- `drive_trace.dfy` (`DriveTrace`): `Step` run over a sequence of ticks, with inductive lemmas about every cycle of such a run.

The code never resets the PID integrators: a control output only zeroes the two stored correction outputs (lines 167-168), and after construction the PID structs change only through `pid_set_parameters` and `pid_calculate` (the constructor also calls `pid_init`, lines 44-45). `PidStateNeverReset` and the `ApplySetpointTopics` contract state this.

The stop test at line 186 looks only at the speed scale parameter (`speedScale > FLT_EPSILON`). It does not test the derived maximum speed.

The module subscribes to the two topics it publishes on. The model does not fix when a publication comes back. `WithLoopback` builds the inputs of a cycle in which both subscriptions deliver this cycle's own publications. `ManualLoopback` and `MissionLoopback` state what such a cycle does.

## Model

All source paths are in `src/modules/differential_drive/`; line numbers are in `DifferentialDrive.cpp`.

| member | source | states |
|---|---|---|
| ControlLaws.ElapsedUs | src/modules/differential_drive/DifferentialDrive.cpp:90 | `now - last` in unsigned 64-bit arithmetic: `last + d` wraps to `now`, and `d` is the plain difference when `last <= now` |
| ControlLaws.DtSeconds | src/modules/differential_drive/DifferentialDrive.cpp:89-91 | `dt` lies in `[0, kTimeoutUs/1e6]`; it is the elapsed time in seconds below the ceiling and exactly `kTimeoutUs/1e6` at or above it |
| ControlLaws.SetpointTimedOut | src/modules/differential_drive/DifferentialDrive.cpp:185 | the strict test `timestamp + 100000 < now` with the addition in unsigned 64-bit arithmetic: a plain comparison with the window's end when that does not overflow, and with the wrapped end when it does |
| ControlLaws.TimedOutIffOlderThanWindow | src/modules/differential_drive/DifferentialDrive.cpp:185 | away from the top of the clock range, the timeout test holds exactly when `now - timestamp > 100000` µs (strict), so a setpoint exactly 100 ms old is still fresh |
| ControlLaws.Constrain | src/modules/differential_drive/DifferentialDrive.cpp:192 | the clamp lies in `[lo, hi]`, is the identity inside it and gives the violated bound outside it |
| ControlLaws.WheelCommand | src/modules/differential_drive/DifferentialDrive.cpp:188-192 | both wheel commands lie in [-1, 1] whatever the kinematics returned; a stop gives (0, 0); otherwise each component is clamped, and a command already in range passes unchanged |
| ControlLaws.DerivedKinematics | src/modules/differential_drive/DifferentialDrive.cpp:72-73 | `maxSpeed = maxWheelSpeed * wheelRadius` and `maxAngularVelocity * (wheelBase / 2) = maxSpeed`, for a non-zero wheel base |
| ControlLaws.ScaledStickBound | src/modules/differential_drive/DifferentialDrive.cpp:140-142 | a stick in [-1, 1] times a scale in [0, 1] times a non-negative limit stays within ±limit |
| ControlLaws.ManualSetpoint | src/modules/differential_drive/DifferentialDrive.cpp:139-142 | the manual setpoint is stamped `now`, with speed `throttle * speedScale * maxSpeed` and yaw rate `roll * angScale * maxAngularVelocity`; with in-range sticks and scales each stays within its limit |
| DriveSpec.ConfigFor | src/modules/differential_drive/DifferentialDrive.cpp:72-79 | the configuration left by updateParams keeps the new parameters and the derived limits, and pushes exactly those limits (and the wheel base) into the kinematics and guidance helpers |
| DriveSpec.TunePids | src/modules/differential_drive/DifferentialDrive.cpp:58-70 | both PIDs get their new gains with derivative gain 0 and output limit 200; the integral limit is 20 for the yaw rate and 2 for the speed |
| DriveSpec.Ingest | src/modules/differential_drive/DifferentialDrive.cpp:100-130 | each sticky field (arm and mode flags, attitude and yaw, angular velocity, body velocity) takes this cycle's snapshot when one arrived and otherwise keeps its value; the body velocity is rotated with the updated attitude |
| DriveSpec.Arbitrate | src/modules/differential_drive/DifferentialDrive.cpp:132-161 | manual driving never calls the guidance and publishes nothing on the setpoint topic; without a joystick sample it changes nothing, with one the setpoint is the manual formula, published on the control-output topic; mission driving (not manual) restamps the setpoint with the guidance output and publishes it; with neither mode nothing changes |
| DriveSpec.ApplySetpointTopics | src/modules/differential_drive/DifferentialDrive.cpp:163-177 | a setpoint message wins and both PID outputs and structs come from `pid_calculate` on it; a control output alone replaces the setpoint and zeroes both outputs, leaving the PID structs alone; with neither the command carries over |
| DriveSpec.Tuned | src/modules/differential_drive/DifferentialDrive.cpp:93-98 | on a parameter update the configuration becomes `ConfigFor` of the new set and the PIDs `TunePids` of the old ones; without one nothing changes; in either case nothing but the configuration and the PIDs is touched |
| DriveSpec.RawWheelSpeeds | src/modules/differential_drive/DifferentialDrive.cpp:180-182 | the inverse kinematics of setpoint plus correction; with both corrections zero (after a control output) the setpoint goes through unchanged |
| DriveSpec.StopRequested | src/modules/differential_drive/DifferentialDrive.cpp:185-188 | a stop is requested when disarmed, when the setpoint is timed out, or when the speed scale is at most `FLT_EPSILON`, and only then |
| DriveSpec.Step | src/modules/differential_drive/DifferentialDrive.cpp:82-199 | one cycle: `timeStampLast = now`; the output carries `now` and `R_REV` and lies in [-1, 1]; a stop request forces (0, 0), otherwise the emitted command is the clamped inverse kinematics of setpoint plus correction; a setpoint message sets both corrections and PID structs from `pid_calculate` with the capped `dt`; with neither setpoint topic both corrections carry over in every mode; parameters change only on an update; sticky flags; manual priority; setpoint-topic priority; hold-last; PIDs untouched without setpoint messages or parameter updates |
| DriveSpec.WithLoopback | src/modules/differential_drive/DifferentialDrive.cpp:143-172 | the loopback inputs agree with the cycle's inputs except on the two setpoint topics, which carry exactly what the cycle publishes on them |
| DriveSpec.LoopbackIsConsistent | src/modules/differential_drive/DifferentialDrive.cpp:143-172 | run on its loopback inputs, a cycle publishes exactly what those inputs deliver back on both setpoint topics |
| DriveSpec.ManualLoopback | src/modules/differential_drive/DifferentialDrive.cpp:132-169 | with manual driving, a joystick sample and its own control output delivered back, the cycle ends with the manual setpoint, both PID outputs zero and the PID structs as tuned |
| DriveSpec.MissionLoopback | src/modules/differential_drive/DifferentialDrive.cpp:147-177 | with mission driving and its own setpoint delivered back, the cycle ends with the guidance setpoint and both PID outputs computed from it with this cycle's `dt` |
| DriveSpec.InitialState | src/modules/differential_drive/DifferentialDrive.cpp:39-46 | after construction the flags are off, the command is zero, the configuration is that of the loaded parameters, and each PID is `pid_init(pid_set_parameters(...), no derivative, 0.001)` |
| DriveTrace.RunTicks | src/modules/differential_drive/DifferentialDrive.cpp:82-199 | a run over `n` ticks emits `n` outputs |
| DriveTrace.OutputsBoundedAndStamped | src/modules/differential_drive/DifferentialDrive.cpp:192-197 | every actuator record of a run lies in [-1, 1] and carries its own tick's time |
| DriveTrace.FlagsHoldWithoutControlMode | src/modules/differential_drive/DifferentialDrive.cpp:100-108 | without control-mode snapshots the arm and mode flags keep their values through a run |
| DriveTrace.DisarmedAlwaysStops | src/modules/differential_drive/DifferentialDrive.cpp:188-190 | a disarmed controller that receives no control-mode snapshot emits (0, 0) on every tick |
| DriveTrace.ManualNeverRunsGuidance | src/modules/differential_drive/DifferentialDrive.cpp:132-161 | while manual driving stays selected the guidance object is unchanged and nothing is published on the setpoint topic |
| DriveTrace.PidStateNeverReset | src/modules/differential_drive/DifferentialDrive.cpp:164-177 | without setpoint messages and parameter updates both PID structs, integrators included, are unchanged through a run |
| DriveTrace.SilentSourceTimesOut | src/modules/differential_drive/DifferentialDrive.cpp:132-190 | with every source silent in manual or no mode, the setpoint is held and every tick more than 100 ms after its timestamp emits a stop |
| DriveController.DifferentialDrive.constructor | src/modules/differential_drive/DifferentialDrive.cpp:39-46 | the constructed object's state is `InitialState` |
| DriveController.DifferentialDrive.UpdateParams | src/modules/differential_drive/DifferentialDrive.cpp:54-80 | the configuration fields become `ConfigFor(p)` and the PIDs `TunePids` of their old values; nothing else changes |
| DriveController.DifferentialDrive.PollVehicleState | src/modules/differential_drive/DifferentialDrive.cpp:100-130 | the vehicle fields become `Ingest` of their old values; nothing else changes |
| DriveController.DifferentialDrive.SelectSetpoint | src/modules/differential_drive/DifferentialDrive.cpp:132-161 | guidance, setpoint and publications are `Arbitrate` of the old values; the stored PID outputs and everything else are unchanged |
| DriveController.DifferentialDrive.PollSetpointTopics | src/modules/differential_drive/DifferentialDrive.cpp:163-177 | command and PIDs become `ApplySetpointTopics` of their old values; nothing else changes |
| DriveController.DifferentialDrive.Run | src/modules/differential_drive/DifferentialDrive.cpp:82-199 | the new state and the published output are exactly those of `Step`; hence `timeStampLast = now`, the output is stamped `now`, lies in [-1, 1] and is (0, 0) when disarmed |

## Left out

- uORB transport: `updated()`, `copy()` and `publish()` become optional inputs and output fields. For the subscriptions whose `copy()` result the code checks (lines 103, 113, 126, 138), a failed copy counts as no snapshot; at line 120 a failed copy leaves the sample unchanged, which is the same thing.
- DriveSpec.ApplySetpointTopics, DriveController.DifferentialDrive.PollSetpointTopics: the control-output and setpoint topics act on `updated()` alone and ignore `copy()`'s result (lines 164-177). A failed copy there would still zero both stored PID outputs, or run `pid_calculate` on the previous setpoint. The model has no input for that failed-copy path: each of the two topics is either absent or delivers a copied setpoint.
- `should_exit()`, `ScheduleClear` and `exit_and_cleanup` (lines 84-87), `init()` and `ScheduleOnInterval` (48-52), and `task_spawn`, `custom_command`, `print_usage` and `differential_drive_main` (201-250): scheduling, lifecycle and the command line.
- `hrt_absolute_time()`: the clock reading `now` is a parameter of each cycle.
- The PID library, `DifferentialDriveKinematics`, `DifferentialGuidance` and the matrix library:
  - their code is not part of this model;
  - they are uninterpreted total functions with no assumed contract;
  - no anti-windup, kinematics symmetry or divide-by-zero safety is claimed for them;
  - the kinematics and guidance setters are modelled as storing the values pushed into them;
  - the guidance object's own state and subscriptions are folded into the opaque `G`.
- The quaternion-to-yaw and `rotateVectorInverse` frame conversions, which are floating-point numerics: uninterpreted.
- IEEE single- and double-precision arithmetic: speeds, gains and `dt` are reals. NaN, rounding and the unsigned-integer-to-double conversion at line 90 are not modelled.
- The values of `kTimeoutUs` and `FLT_EPSILON` are not fixed here. They are positive constants in a `Platform` record.
- DriveSpec.ConfigFor: requires a non-zero wheel base, because updateParams divides by it without a guard. Parameter updates with a zero wheel base are outside the model (the `WellFormed` inputs).
- The header is not part of this model. The member initialisers are taken as zero, false and the identity quaternion (`DefaultState`), and the parameter cache starts from the parameter set handed to the constructor.
- `reversible_flags` is an integer copied from `R_REV`. The conversion to the message field's width is not modelled.
- Only the two wheel entries of `actuator_motors.control` are modelled; the rest of the record keeps its zero initialisation.
- The module's member variables are grouped into five records (configuration, PIDs, guidance, vehicle state, command) rather than kept as separate fields. The statement order within each block follows the source.
