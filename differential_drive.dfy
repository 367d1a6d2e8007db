/**
 * The controller object: its member variables as fields (grouped into the
 * records of DriveSpec), updateParams and the per-cycle Run as methods that
 * update them in the source's order. Each method is tied to the DriveSpec
 * function it implements.
 */
module DriveController {
  import opened Wrappers
  import opened Messages
  import opened ControlLaws
  import opened DriveSpec

  class DifferentialDrive<P, G> {
    const c: Collaborators<P, G>
    const platform: Platform

    var timeStampLast: Abstime
    /** The parameters and the limits derived from them. */
    var config: Config
    var pids: PidPair<P>
    var guidance: G
    /** Mode flags and the latest attitude and velocity samples. */
    var vehicle: VehicleState
    /** The setpoint and the two stored PID outputs. */
    var command: Command

    /** The fields as one value. */
    function State(): DriveState<P, G>
      reads this
    {
      DriveState(timeStampLast, config, pids, guidance, vehicle, command)
    }

    /**
     * The constructor: members at their defaults, the parameters `p` loaded,
     * updateParams, then pid_init on the angular-velocity and speed PIDs.
     */
    constructor (c: Collaborators<P, G>, platform: Platform, p: Params, pidStorage: P, guidance: G)
      requires p.wheelBase != 0.0
      ensures this.c == c && this.platform == platform
      ensures State() == InitialState(c, p, pidStorage, guidance)
    {
      this.c := c;
      this.platform := platform;
      var d := DefaultState(p, pidStorage, guidance);
      timeStampLast := d.timeStampLast;
      config := d.config;
      pids := d.pids;
      this.guidance := guidance;
      vehicle := d.vehicle;
      command := d.command;
      new;
      UpdateParams(p);
      pids := pids.(angularVelocity := c.PidInit(pids.angularVelocity, DerivativeNone, PidDtMin));
      pids := pids.(speed := c.PidInit(pids.speed, DerivativeNone, PidDtMin));
    }

    /** updateParams with the parameter set `p` just read from storage. */
    method UpdateParams(p: Params)
      requires p.wheelBase != 0.0
      modifies this`config, this`pids
      ensures config == ConfigFor(p)
      ensures pids == TunePids(old(pids), c, p)
    {
      config := config.(params := p);
      pids := pids.(angularVelocity := c.PidSetParameters(pids.angularVelocity, AngularVelocityGains(p)));
      pids := pids.(speed := c.PidSetParameters(pids.speed, SpeedGains(p)));
      var limits := DerivedKinematics(p);
      config := config.(maxSpeed := limits.maxSpeed, maxAngularVelocity := limits.maxAngularVelocity);
      config := config.(kinematics := limits, guidanceLimits := GuidanceLimits(limits.maxSpeed, limits.maxAngularVelocity));
    }

    /** The vehicle-state subscriptions of a cycle: each sample overwrites its fields. */
    method PollVehicleState(inputs: Inputs)
      modifies this`vehicle
      ensures vehicle == Ingest(old(vehicle), c, inputs)
    {
      if inputs.controlMode.Some? {
        var mode := inputs.controlMode.value;
        vehicle := vehicle.(armed := mode.armed, manualDriving := mode.manualEnabled,
                            missionDriving := mode.autoEnabled);
      }
      if inputs.attitude.Some? {
        vehicle := vehicle.(attitude := inputs.attitude.value);
        vehicle := vehicle.(yaw := c.EulerYaw(vehicle.attitude));
      }
      if inputs.angularVelocity.Some? {
        vehicle := vehicle.(angularVelocity := inputs.angularVelocity.value);
      }
      if inputs.localVelocity.Some? {
        vehicle := vehicle.(velocityInBodyFrame := c.RotateVectorInverse(vehicle.attitude, inputs.localVelocity.value));
      }
    }

    /** The manual/mission block of a cycle; returns what it published. */
    method SelectSetpoint(now: Abstime, dt: real, manual: Option<ManualControl>)
      returns (controlOutputPublished: Option<Setpoint>, setpointPublished: Option<Setpoint>)
      modifies this`guidance, this`command
      ensures Arbitration(guidance, command.setpoint, controlOutputPublished, setpointPublished)
           == Arbitrate(vehicle, config, old(guidance), old(command.setpoint), c, now, dt, manual)
      ensures command == old(command).(setpoint := command.setpoint)
    {
      controlOutputPublished, setpointPublished := None, None;
      if vehicle.manualDriving {
        if manual.Some? {
          var sp := ManualSetpoint(now, manual.value, config.params, config.maxSpeed, config.maxAngularVelocity);
          command := command.(setpoint := sp);
          controlOutputPublished := Some(sp);
        }
      } else if vehicle.missionDriving {
        var g := c.ComputeGuidance(guidance, config.guidanceLimits, vehicle.yaw, vehicle.angularVelocity.z, dt);
        guidance := g.guidance;
        command := command.(setpoint := Setpoint(now, g.output.x, g.output.y));
        setpointPublished := Some(command.setpoint);
      }
    }

    /** The control-output and setpoint subscriptions of a cycle, in that order. */
    method PollSetpointTopics(dt: real, controlOutput: Option<Setpoint>, setpointMessage: Option<Setpoint>)
      modifies this`command, this`pids
      ensures Tracking(command, pids)
           == ApplySetpointTopics(old(command), old(pids), vehicle, c, dt, controlOutput, setpointMessage)
    {
      if controlOutput.Some? {
        command := Command(controlOutput.value, 0.0, 0.0);
      }
      if setpointMessage.Some? {
        command := command.(setpoint := setpointMessage.value);
        var su := c.PidCalculate(pids.speed, command.setpoint.speed, vehicle.velocityInBodyFrame.x, 0.0, dt);
        pids, command := pids.(speed := su.pid), command.(speedPidOutput := su.output);
        var au := c.PidCalculate(pids.angularVelocity, command.setpoint.yawRate, vehicle.angularVelocity.z, 0.0, dt);
        pids, command := pids.(angularVelocity := au.pid), command.(angularVelocityPidOutput := au.output);
      }
    }

    /** One control cycle at time `now`; `out` is what it publishes. */
    method Run(now: Abstime, inputs: Inputs) returns (out: TickOutput)
      requires WellFormed(inputs)
      modifies this
      ensures State() == Step(old(State()), c, platform, now, inputs).state
      ensures out == Step(old(State()), c, platform, now, inputs).output
      ensures timeStampLast == now && out.motors.timestamp == now
      ensures -1.0 <= out.motors.control.x <= 1.0 && -1.0 <= out.motors.control.y <= 1.0
      ensures !vehicle.armed ==> out.motors.control == Vector2(0.0, 0.0)
    {
      ghost var s0 := State();
      var dt := DtSeconds(now, timeStampLast, platform.timeoutUs);
      timeStampLast := now;

      if inputs.parameterUpdate.Some? {
        UpdateParams(inputs.parameterUpdate.value);
      }
      ghost var t := Tuned(s0, c, inputs);
      assert config == t.config && pids == t.pids;

      PollVehicleState(inputs);
      ghost var v := Ingest(t.vehicle, c, inputs);
      var controlOutputPublished, setpointPublished := SelectSetpoint(now, dt, inputs.manualControl);
      ghost var a := ArbitrationOf(s0, c, platform, now, inputs);
      assert Arbitration(guidance, command.setpoint, controlOutputPublished, setpointPublished) == a;
      PollSetpointTopics(dt, inputs.controlOutput, inputs.setpoint);
      ghost var tr := ApplySetpointTopics(t.command.(setpoint := a.setpoint), t.pids, v, c, dt,
                                          inputs.controlOutput, inputs.setpoint);
      assert command == tr.command && pids == tr.pids;

      // actuation
      var wheelSpeeds := c.InverseKinematics(config.kinematics, command.setpoint.speed + command.speedPidOutput,
                                             command.setpoint.yawRate + command.angularVelocityPidOutput);
      var setpointTimeout := SetpointTimedOut(command.setpoint.timestamp, now);
      var validMaxSpeed := config.params.speedScale > platform.fltEpsilon;
      if !vehicle.armed || setpointTimeout || !validMaxSpeed {
        wheelSpeeds := Vector2(0.0, 0.0);
      }
      wheelSpeeds := Vector2(Constrain(wheelSpeeds.x, -1.0, 1.0), Constrain(wheelSpeeds.y, -1.0, 1.0));

      out := TickOutput(ActuatorMotors(now, config.params.reversibleFlags, wheelSpeeds),
                        controlOutputPublished, setpointPublished);
    }
  }
}
