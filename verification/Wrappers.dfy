/** Values shared by every module. */
module Wrappers {
  /** The source's `undefined` and `null`. */
  datatype Option<+T> = None | Some(value: T)

  /** An awaited call: its value, or a rejection. */
  datatype Try<+T> = Got(value: T) | Threw

  /** A dependant's autonomy stage. */
  datatype Stage = FullControl | RequestApprove | AutonomousAlerts | AutonomousLogging | FullAutonomy
}
