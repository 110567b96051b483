/** Wrappers shared by every module of the model. */
module Common {

  datatype Option<+T> = None | Some(value: T)

  datatype Result<+T, +E> = Ok(value: T) | Err(error: E)

  /** Microseconds in the ca-issuer and the maintenance windows, minutes in the alert log. */
  type Time = int

  /** A check of the monitoring. */
  type CheckId = nat

  function Min(a: int, b: int): int { if a <= b then a else b }
}
