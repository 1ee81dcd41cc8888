/** Small building blocks shared by the whole model. */
module Shared {
  datatype Option<T> = None | Some(value: T)

  datatype Result<T, E> = Ok(value: T) | Err(error: E)

  /** An `Arc<AtomicBool>`: a boolean cell that several owners share. */
  class Flag {
    var value: bool

    constructor (initial: bool)
      ensures value == initial
    {
      value := initial;
    }

    method Store(v: bool)
      modifies this
      ensures value == v
    {
      value := v;
    }
  }

  /**
   * An `Arc<RwLock<T>>`: a shared value behind a lock. A lock whose holder
   * panicked is poisoned, and every later `read`/`write` on it fails.
   */
  class RwLock<T> {
    var value: T
    var poisoned: bool

    constructor (initial: T)
      ensures value == initial && !poisoned
    {
      value := initial;
      poisoned := false;
    }
  }

  /** An operation that either finishes with a value or panics with a message. */
  datatype Outcome<T> = Done(value: T) | Panicked(message: string)

  /** `n` copies of `x`. */
  function Fill(n: nat, x: real): (r: seq<real>)
    ensures |r| == n && forall i :: 0 <= i < n ==> r[i] == x
  {
    seq(n, _ => x)
  }
}

/**
 * Log records of src/logging/log_data.rs, without their timestamp: a
 * severity and a description.
 */
module Logging {
  datatype LogType = Debug | Info | Warning | Error | Fatal

  datatype LogData = LogData(severity: LogType, description: string)
}

/**
 * The robot-wide rates the subsystems apply. Their values are fixed robot
 * configuration that this model does not contain, so they stay unknown
 * (but fixed) constants and every property is proved for all of them.
 */
module RobotMap {
  const DIGGING_RATE: real
  const MH_ACTUATOR_RATE: real
  const DUMPING_RATE: real
  const DUMPER_RESET_RATE: real
}
