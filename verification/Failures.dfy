/** Commands that may fail: each takes a fate, which says whether its effect lands and whether the process
    continues, sees an error or dies. */
module Failures {
  datatype Fate = Done | RaiseBefore | RaiseAfter | DieBefore | DieAfter

  /** The outcome of a command, propagated like an exception; nothing catches a death. */
  datatype Status = Ok | Raised | Dead {
    predicate IsFailure() { !Ok? }
    function PropagateFailure(): Status { this }
  }

  predicate Lands(f: Fate) { f.Done? || f.RaiseAfter? || f.DieAfter? }

  function StatusOf(f: Fate): Status {
    if f.Done? then Ok else if f.RaiseBefore? || f.RaiseAfter? then Raised else Dead
  }
}
