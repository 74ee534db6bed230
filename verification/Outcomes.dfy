/** How an operation on the host ends, shared by the state machines below. */
module Outcomes {

  datatype Option<+T> = None | Some(value: T)

  /** `Raised` is an ordinary error of the program; `Infra` and `Authority` are the
      two of its subclasses that some handlers treat separately.  `Died` is a crash:
      the process is gone, only what it already did to the host remains. */
  datatype Outcome = Done | Raised | Infra | Authority | Died {

    predicate IsFailure() { !Done? }

    function PropagateFailure(): Outcome
      requires IsFailure()
    {
      this
    }

    /** True for whatever `except ApplyError` catches. */
    predicate IsError() { Raised? || Infra? || Authority? }
  }
}
