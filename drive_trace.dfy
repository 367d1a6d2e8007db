/**
 * Runs of the control cycle over a sequence of ticks, and what holds of
 * every cycle of such a run whatever the foreign libraries return.
 */
module DriveTrace {
  import opened Wrappers
  import opened Messages
  import opened ControlLaws
  import opened DriveSpec

  /** One scheduled invocation: the clock reading and what the subscriptions report. */
  datatype Tick = Tick(now: Abstime, inputs: Inputs)

  datatype Trace<P, G> = Trace(final: DriveState<P, G>, outputs: seq<TickOutput>)

  ghost predicate AllWellFormed(ticks: seq<Tick>)
  {
    forall i :: 0 <= i < |ticks| ==> WellFormed(ticks[i].inputs)
  }

  /** The control cycle applied to each tick in turn. */
  function RunTicks<P, G>(s: DriveState<P, G>, c: Collaborators<P, G>, platform: Platform, ticks: seq<Tick>): (t: Trace<P, G>)
    requires AllWellFormed(ticks)
    ensures |t.outputs| == |ticks|
    decreases |ticks|
  {
    if ticks == [] then Trace(s, [])
    else
      var r := Step(s, c, platform, ticks[0].now, ticks[0].inputs);
      var rest := RunTicks(r.state, c, platform, ticks[1..]);
      Trace(rest.final, [r.output] + rest.outputs)
  }

  /** Facts about the first tick of a run and the run of the rest. */
  lemma RunUnfold<P, G>(s: DriveState<P, G>, c: Collaborators<P, G>, platform: Platform, ticks: seq<Tick>)
    requires AllWellFormed(ticks) && ticks != []
    ensures AllWellFormed(ticks[1..])
    ensures var r := Step(s, c, platform, ticks[0].now, ticks[0].inputs);
      RunTicks(s, c, platform, ticks).outputs == [r.output] + RunTicks(r.state, c, platform, ticks[1..]).outputs &&
      RunTicks(s, c, platform, ticks).final == RunTicks(r.state, c, platform, ticks[1..]).final
  {
    assert forall i :: 0 <= i < |ticks[1..]| ==> ticks[1..][i] == ticks[i + 1];
  }

  /**
   * Every actuator record of a run lies in [-1, 1] and carries the clock
   * reading of its own tick.
   */
  lemma {:induction false} OutputsBoundedAndStamped<P, G>(s: DriveState<P, G>, c: Collaborators<P, G>,
                                                           platform: Platform, ticks: seq<Tick>)
    requires AllWellFormed(ticks)
    ensures var out := RunTicks(s, c, platform, ticks).outputs;
      forall i :: 0 <= i < |ticks| ==>
        -1.0 <= out[i].motors.control.x <= 1.0 && -1.0 <= out[i].motors.control.y <= 1.0 &&
        out[i].motors.timestamp == ticks[i].now
    decreases |ticks|
  {
    if ticks != [] {
      RunUnfold(s, c, platform, ticks);
      var r := Step(s, c, platform, ticks[0].now, ticks[0].inputs);
      OutputsBoundedAndStamped(r.state, c, platform, ticks[1..]);
    }
  }

  /** No tick of the run carries a vehicle_control_mode snapshot. */
  ghost predicate NoControlMode(ticks: seq<Tick>)
  {
    forall i :: 0 <= i < |ticks| ==> ticks[i].inputs.controlMode.None?
  }

  /** Without a control-mode snapshot, the arm and mode flags keep their values through the run. */
  lemma {:induction false} FlagsHoldWithoutControlMode<P, G>(s: DriveState<P, G>, c: Collaborators<P, G>,
                                                              platform: Platform, ticks: seq<Tick>)
    requires AllWellFormed(ticks) && NoControlMode(ticks)
    ensures var f := RunTicks(s, c, platform, ticks).final;
      f.vehicle.armed == s.vehicle.armed && f.vehicle.manualDriving == s.vehicle.manualDriving &&
      f.vehicle.missionDriving == s.vehicle.missionDriving
    decreases |ticks|
  {
    if ticks != [] {
      RunUnfold(s, c, platform, ticks);
      var r := Step(s, c, platform, ticks[0].now, ticks[0].inputs);
      FlagsHoldWithoutControlMode(r.state, c, platform, ticks[1..]);
    }
  }

  /**
   * A disarmed controller that receives no control-mode snapshot emits a
   * stop on every tick, whatever setpoints, joystick samples, parameters
   * or kinematics it sees.
   */
  lemma {:induction false} DisarmedAlwaysStops<P, G>(s: DriveState<P, G>, c: Collaborators<P, G>,
                                                      platform: Platform, ticks: seq<Tick>)
    requires AllWellFormed(ticks) && NoControlMode(ticks) && !s.vehicle.armed
    ensures var out := RunTicks(s, c, platform, ticks).outputs;
      forall i :: 0 <= i < |ticks| ==> out[i].motors.control == Vector2(0.0, 0.0)
    decreases |ticks|
  {
    if ticks != [] {
      RunUnfold(s, c, platform, ticks);
      var r := Step(s, c, platform, ticks[0].now, ticks[0].inputs);
      DisarmedAlwaysStops(r.state, c, platform, ticks[1..]);
    }
  }

  /**
   * While manual driving stays selected, the guidance is never called: its
   * object is unchanged through the run and nothing is published on the
   * setpoint topic.
   */
  lemma {:induction false} ManualNeverRunsGuidance<P, G>(s: DriveState<P, G>, c: Collaborators<P, G>,
                                                          platform: Platform, ticks: seq<Tick>)
    requires AllWellFormed(ticks) && NoControlMode(ticks) && s.vehicle.manualDriving
    ensures var t := RunTicks(s, c, platform, ticks);
      t.final.guidance == s.guidance &&
      forall i :: 0 <= i < |ticks| ==> t.outputs[i].setpointPublished.None?
    decreases |ticks|
  {
    if ticks != [] {
      RunUnfold(s, c, platform, ticks);
      var r := Step(s, c, platform, ticks[0].now, ticks[0].inputs);
      ManualNeverRunsGuidance(r.state, c, platform, ticks[1..]);
    }
  }

  /**
   * Without setpoint messages and parameter updates, both PID structs
   * (their integrators included) are untouched by the run, however many
   * control outputs arrive and however the mode flags switch.
   */
  lemma {:induction false} PidStateNeverReset<P, G>(s: DriveState<P, G>, c: Collaborators<P, G>,
                                                     platform: Platform, ticks: seq<Tick>)
    requires AllWellFormed(ticks)
    requires forall i :: 0 <= i < |ticks| ==> ticks[i].inputs.setpoint.None? && ticks[i].inputs.parameterUpdate.None?
    ensures var f := RunTicks(s, c, platform, ticks).final;
      f.pids == s.pids
    decreases |ticks|
  {
    if ticks != [] {
      RunUnfold(s, c, platform, ticks);
      var r := Step(s, c, platform, ticks[0].now, ticks[0].inputs);
      PidStateNeverReset(r.state, c, platform, ticks[1..]);
    }
  }

  /** A tick at which no source refreshes the setpoint. */
  ghost predicate SilentTick(t: Tick)
  {
    t.inputs.controlMode.None? && t.inputs.manualControl.None? &&
    t.inputs.controlOutput.None? && t.inputs.setpoint.None?
  }

  /**
   * When every source falls silent while manual driving is selected or no
   * driving mode is, the setpoint is held, and every tick more than 100 ms
   * after its timestamp emits a stop.
   */
  lemma {:induction false} SilentSourceTimesOut<P, G>(s: DriveState<P, G>, c: Collaborators<P, G>,
                                                       platform: Platform, ticks: seq<Tick>)
    requires AllWellFormed(ticks)
    requires forall i :: 0 <= i < |ticks| ==> SilentTick(ticks[i])
    requires s.vehicle.manualDriving || !s.vehicle.missionDriving
    requires s.command.setpoint.timestamp + SetpointTimeoutUs < AbstimeModulus
    ensures var t := RunTicks(s, c, platform, ticks);
      t.final.command.setpoint == s.command.setpoint &&
      forall i :: 0 <= i < |ticks| && ticks[i].now > s.command.setpoint.timestamp + SetpointTimeoutUs ==>
        t.outputs[i].motors.control == Vector2(0.0, 0.0)
    decreases |ticks|
  {
    if ticks != [] {
      RunUnfold(s, c, platform, ticks);
      var r := Step(s, c, platform, ticks[0].now, ticks[0].inputs);
      TimedOutIffOlderThanWindow(s.command.setpoint.timestamp, ticks[0].now);
      SilentSourceTimesOut(r.state, c, platform, ticks[1..]);
    }
  }
}
