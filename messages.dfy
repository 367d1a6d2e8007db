/**
 * The values exchanged between the differential-drive controller and the
 * rest of the autopilot: timestamps, vectors, the messages it subscribes to
 * and publishes, its parameter set, and the foreign libraries it calls.
 */
module Messages {
  import opened Wrappers

  /** hrt_abstime is an unsigned 64-bit count of microseconds. */
  const AbstimeModulus: nat := 0x1_0000_0000_0000_0000

  type Abstime = t: nat | t < AbstimeModulus

  type PositiveNat = n: nat | n > 0 witness 1

  type PositiveReal = r: real | r > 0.0 witness 1.0

  datatype Vector2 = Vector2(x: real, y: real)

  datatype Vector3 = Vector3(x: real, y: real, z: real)

  /** Attitude quaternion, components in the order q[0] .. q[3]. */
  datatype Quaternion = Quaternion(q0: real, q1: real, q2: real, q3: real)

  /** differential_drive_setpoint: the commanded forward speed and yaw rate. */
  datatype Setpoint = Setpoint(timestamp: Abstime, speed: real, yawRate: real)

  /** The three vehicle_control_mode flags the controller uses. */
  datatype ControlMode = ControlMode(armed: bool, manualEnabled: bool, autoEnabled: bool)

  /** The two manual_control_setpoint sticks the controller uses. */
  datatype ManualControl = ManualControl(throttle: real, roll: real)

  /** The RDD_* and R_REV parameters as last read from parameter storage. */
  datatype Params = Params(
    pGainSpeed: real,
    iGainSpeed: real,
    pGainAngularVelocity: real,
    iGainAngularVelocity: real,
    maxWheelSpeed: real,
    wheelRadius: real,
    wheelBase: real,
    speedScale: real,
    angularVelocityScale: real,
    reversibleFlags: int)

  /** actuator_motors: the two normalised wheel commands, stamped. */
  datatype ActuatorMotors = ActuatorMotors(timestamp: Abstime, reversibleFlags: int, control: Vector2)

  /**
   * What each subscription reports at its poll in one cycle: Some(m) when
   * the topic was updated and m was copied out of it, None otherwise.
   * `localVelocity` is (vx, vy, vz) of vehicle_local_position;
   * `angularVelocity` is the xyz vector of vehicle_angular_velocity.
   */
  datatype Inputs = Inputs(
    parameterUpdate: Option<Params>,
    controlMode: Option<ControlMode>,
    attitude: Option<Quaternion>,
    angularVelocity: Option<Vector3>,
    localVelocity: Option<Vector3>,
    manualControl: Option<ManualControl>,
    controlOutput: Option<Setpoint>,
    setpoint: Option<Setpoint>)

  /**
   * updateParams divides by half the wheel base without a guard, so a
   * parameter set with a zero wheel base is outside what the model covers.
   */
  predicate WellFormed(inputs: Inputs)
  {
    inputs.parameterUpdate.Some? ==> inputs.parameterUpdate.value.wheelBase != 0.0
  }

  /** The only PID mode the controller initialises its PIDs with. */
  datatype PidMode = DerivativeNone

  /** The arguments of pid_set_parameters after the PID struct. */
  datatype PidGains = PidGains(
    proportional: real,
    integral: real,
    derivative: real,
    integralLimit: real,
    outputLimit: real)

  /** What pid_calculate leaves in the PID struct and what it returns. */
  datatype PidUpdate<P> = PidUpdate(pid: P, output: real)

  /** What the controller pushes into its inverse-kinematics helper. */
  datatype KinematicsConfig = KinematicsConfig(wheelBase: real, maxSpeed: real, maxAngularVelocity: real)

  /** What the controller pushes into its guidance helper. */
  datatype GuidanceLimits = GuidanceLimits(maxSpeed: real, maxAngularVelocity: real)

  /** What computeGuidance leaves in the guidance object and what it returns. */
  datatype GuidanceUpdate<G> = GuidanceUpdate(guidance: G, output: Vector2)

  /**
   * The libraries the controller calls but whose code is not modelled. `P`
   * is the PID struct and `G` the guidance object; nothing is assumed about
   * any of these functions, so every property proved holds for all of them.
   */
  datatype Collaborators<!P, !G> = Collaborators(
    pidInit: (P, PidMode, real) -> P,
    pidSetParameters: (P, PidGains) -> P,
    pidCalculate: (P, real, real, real, real) -> PidUpdate<P>,
    inverseKinematics: (KinematicsConfig, real, real) -> Vector2,
    computeGuidance: (G, GuidanceLimits, real, real, real) -> GuidanceUpdate<G>,
    eulerYaw: Quaternion -> real,
    rotateVectorInverse: (Quaternion, Vector3) -> Vector3)
  {
    // One named call per library entry point, so that every call site,
    // whether in a method or a function, denotes the same heap-free value.
    function PidInit(pid: P, mode: PidMode, dtMin: real): P { pidInit(pid, mode, dtMin) }
    function PidSetParameters(pid: P, gains: PidGains): P { pidSetParameters(pid, gains) }
    function PidCalculate(pid: P, setpoint: real, measurement: real, derivative: real, dt: real): PidUpdate<P>
    {
      pidCalculate(pid, setpoint, measurement, derivative, dt)
    }
    function InverseKinematics(k: KinematicsConfig, speed: real, yawRate: real): Vector2
    {
      inverseKinematics(k, speed, yawRate)
    }
    function ComputeGuidance(g: G, limits: GuidanceLimits, yaw: real, yawRate: real, dt: real): GuidanceUpdate<G>
    {
      computeGuidance(g, limits, yaw, yawRate, dt)
    }
    function EulerYaw(q: Quaternion): real { eulerYaw(q) }
    function RotateVectorInverse(q: Quaternion, v: Vector3): Vector3 { rotateVectorInverse(q, v) }
  }

  /**
   * Platform constants whose values are not fixed here: the dt ceiling
   * kTimeoutUs (microseconds) and FLT_EPSILON.
   */
  datatype Platform = Platform(timeoutUs: PositiveNat, fltEpsilon: PositiveReal)
}
