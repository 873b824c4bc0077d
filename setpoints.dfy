/// Geometric values exchanged with the vehicle and the trajectory sink.
/// The source marks an axis the controller does not command with NaN; here such
/// an axis is `None`.
module Setpoints {

  datatype Option<+T> = None | Some(value: T)

  /** A vehicle position (always fully known). */
  datatype Vec3 = Vec3(x: real, y: real, z: real)

  /** A position or velocity setpoint whose axes may be unconstrained. */
  datatype Setpoint3 = Setpoint3(x: Option<real>, y: Option<real>, z: Option<real>)

  /** One point of the exploration pattern, a horizontal offset of unit scale. */
  datatype Point2 = Point2(x: real, y: real)

  /** The tuple handed to the trajectory sink: position, velocity, yaw, yaw rate. */
  datatype Emission = Emission(position: Setpoint3, velocity: Setpoint3, yaw: real, yawRate: Option<real>)

  /** `nan_setpoint`: no axis is commanded. */
  const UNCONSTRAINED: Setpoint3 := Setpoint3(None, None, None)

  /** A position used as a setpoint: every axis constrained. */
  function Lift(v: Vec3): Setpoint3
  {
    Setpoint3(Some(v.x), Some(v.y), Some(v.z))
  }

  /** An axis moved by d; an unconstrained axis stays unconstrained (NaN + d is NaN). */
  function Shift(a: Option<real>, d: real): Option<real>
  {
    match a
    case None => None
    case Some(v) => Some(v + d)
  }
}
