/**
 * The arithmetic of one control cycle: elapsed time and its ceiling, the
 * setpoint freshness test, the derived speed limits, the manual setpoint
 * and the final stop-and-saturate stage.
 */
module ControlLaws {
  import opened Messages

  /** The freshness window of a setpoint, 100_ms in microseconds. */
  const SetpointTimeoutUs: nat := 100000

  const MicrosecondsPerSecond: real := 1000000.0

  /** The fixed PID limits passed to pid_set_parameters. */
  const AngularVelocityIntegralLimit: real := 20.0
  const SpeedIntegralLimit: real := 2.0
  const PidOutputLimit: real := 200.0

  /** The dt_min both PIDs are initialised with. */
  const PidDtMin: real := 0.001

  /** `now - last` computed in unsigned 64-bit arithmetic. */
  function ElapsedUs(now: Abstime, last: Abstime): (d: Abstime)
    ensures (last + d) % AbstimeModulus == now
    ensures last <= now ==> d == now - last
  {
    if last <= now then now - last else now + AbstimeModulus - last
  }

  function Min(a: nat, b: nat): nat
  {
    if a <= b then a else b
  }

  /** The controller's dt in seconds: elapsed microseconds, capped at the ceiling. */
  function DtSeconds(now: Abstime, last: Abstime, timeoutUs: PositiveNat): (dt: real)
    ensures 0.0 <= dt <= timeoutUs as real / MicrosecondsPerSecond
    ensures ElapsedUs(now, last) <= timeoutUs ==> dt * MicrosecondsPerSecond == ElapsedUs(now, last) as real
    ensures timeoutUs <= ElapsedUs(now, last) ==> dt == timeoutUs as real / MicrosecondsPerSecond
  {
    Min(ElapsedUs(now, last), timeoutUs) as real / MicrosecondsPerSecond
  }

  /**
   * `timestamp + 100_ms < now`, the addition in unsigned 64-bit arithmetic:
   * a strict comparison with the end of the window, which near the top of
   * the clock range wraps to the bottom.
   */
  function SetpointTimedOut(timestamp: Abstime, now: Abstime): (timedOut: bool)
    ensures timestamp + SetpointTimeoutUs < AbstimeModulus ==>
      (timedOut <==> timestamp + SetpointTimeoutUs < now)
    ensures AbstimeModulus <= timestamp + SetpointTimeoutUs ==>
      (timedOut <==> timestamp + SetpointTimeoutUs - AbstimeModulus < now)
  {
    (timestamp + SetpointTimeoutUs) % AbstimeModulus < now
  }

  /**
   * Away from the top of the clock range, a setpoint is timed out exactly
   * when it is strictly older than the freshness window.
   */
  lemma TimedOutIffOlderThanWindow(timestamp: Abstime, now: Abstime)
    requires timestamp + SetpointTimeoutUs < AbstimeModulus
    ensures SetpointTimedOut(timestamp, now) <==> now - timestamp > SetpointTimeoutUs
  {
    assert (timestamp + SetpointTimeoutUs) % AbstimeModulus == timestamp + SetpointTimeoutUs;
  }

  /** math::constrain: `x` saturated to [lo, hi]. */
  function Constrain(x: real, lo: real, hi: real): (r: real)
    requires lo <= hi
    ensures lo <= r <= hi
    ensures lo <= x <= hi ==> r == x
    ensures x < lo ==> r == lo
    ensures hi < x ==> r == hi
  {
    if x < lo then lo else if x > hi then hi else x
  }

  /**
   * The last stage of a cycle: the kinematics output replaced by zero on a
   * stop, then each component saturated to [-1, 1].
   */
  function WheelCommand(raw: Vector2, stop: bool): (w: Vector2)
    ensures -1.0 <= w.x <= 1.0 && -1.0 <= w.y <= 1.0
    ensures stop ==> w == Vector2(0.0, 0.0)
    ensures !stop ==> w.x == Constrain(raw.x, -1.0, 1.0) && w.y == Constrain(raw.y, -1.0, 1.0)
    ensures !stop && -1.0 <= raw.x <= 1.0 && -1.0 <= raw.y <= 1.0 ==> w == raw
  {
    var wheels := if stop then Vector2(0.0, 0.0) else raw;
    Vector2(Constrain(wheels.x, -1.0, 1.0), Constrain(wheels.y, -1.0, 1.0))
  }

  /**
   * The limits updateParams derives: the linear speed of a wheel at its
   * maximum angular speed, and the turn rate at which a wheel running at
   * that speed spins the vehicle about its centre.
   */
  function DerivedKinematics(p: Params): (k: KinematicsConfig)
    requires p.wheelBase != 0.0
    ensures k.wheelBase == p.wheelBase
    ensures k.maxSpeed == p.maxWheelSpeed * p.wheelRadius
    ensures k.maxAngularVelocity * (p.wheelBase / 2.0) == k.maxSpeed
  {
    var maxSpeed := p.maxWheelSpeed * p.wheelRadius;
    KinematicsConfig(p.wheelBase, maxSpeed, maxSpeed / (p.wheelBase / 2.0))
  }

  function SpeedGains(p: Params): PidGains
  {
    PidGains(p.pGainSpeed, p.iGainSpeed, 0.0, SpeedIntegralLimit, PidOutputLimit)
  }

  function AngularVelocityGains(p: Params): PidGains
  {
    PidGains(p.pGainAngularVelocity, p.iGainAngularVelocity, 0.0, AngularVelocityIntegralLimit, PidOutputLimit)
  }

  /** A stick deflection in [-1, 1] times a scale in [0, 1] stays within the limit. */
  lemma ScaledStickBound(stick: real, scale: real, limit: real)
    ensures -1.0 <= stick <= 1.0 && 0.0 <= scale <= 1.0 && 0.0 <= limit
      ==> -limit <= stick * scale * limit <= limit
  {
    if !(-1.0 <= stick <= 1.0 && 0.0 <= scale <= 1.0 && 0.0 <= limit) {
      return;
    }
    var m := scale * limit;
    ProductNonNegative(scale, limit);
    ProductNonNegative(1.0 - scale, limit);
    assert limit - m == (1.0 - scale) * limit;
    assert stick * scale * limit == stick * m;
    if stick >= 0.0 {
      ProductNonNegative(1.0 - stick, m);
      assert m - stick * m == (1.0 - stick) * m;
      ProductNonNegative(stick, m);
    } else {
      ProductNonNegative(1.0 + stick, m);
      assert m + stick * m == (1.0 + stick) * m;
      ProductNonNegative(-stick, m);
    }
  }

  lemma ProductNonNegative(a: real, b: real)
    requires 0.0 <= a && 0.0 <= b
    ensures 0.0 <= a * b
  {
  }

  /**
   * The setpoint manual mode produces from one joystick sample: stamped
   * `now`, the throttle scaled to the speed limit and the roll stick scaled
   * to the turn-rate limit.
   */
  function ManualSetpoint(now: Abstime, m: ManualControl, p: Params, maxSpeed: real, maxAngularVelocity: real): (sp: Setpoint)
    ensures sp.timestamp == now
    ensures sp.speed == m.throttle * p.speedScale * maxSpeed
    ensures sp.yawRate == m.roll * p.angularVelocityScale * maxAngularVelocity
    ensures -1.0 <= m.throttle <= 1.0 && 0.0 <= p.speedScale <= 1.0 && 0.0 <= maxSpeed
      ==> -maxSpeed <= sp.speed <= maxSpeed
    ensures -1.0 <= m.roll <= 1.0 && 0.0 <= p.angularVelocityScale <= 1.0 && 0.0 <= maxAngularVelocity
      ==> -maxAngularVelocity <= sp.yawRate <= maxAngularVelocity
  {
    var speed := m.throttle * p.speedScale * maxSpeed;
    var yawRate := m.roll * p.angularVelocityScale * maxAngularVelocity;
    ScaledStickBound(m.throttle, p.speedScale, maxSpeed);
    ScaledStickBound(m.roll, p.angularVelocityScale, maxAngularVelocity);
    Setpoint(now, speed, yawRate)
  }
}
