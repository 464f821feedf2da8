/** Values that stand for what a call produced when the call may raise. */
module Outcomes {

  /** What a call into a collaborator produced: its value, or the message of the
      exception it raised (the text `str(e)` would give). */
  datatype Outcome<+T> = Done(value: T) | Raised(message: string)

  datatype Option<+T> = None | Some(value: T)
}
