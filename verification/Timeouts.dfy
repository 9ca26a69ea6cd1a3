/** `with_timeout` and the combination of phase and cleanup results (`src/app.rs`, `src/error.rs`). */
module Timeouts {
  import opened Types
  import opened Errors

  /**
   * How a phase future ends under an optional budget: it finishes, possibly only after the
   * budget has passed, or the timer fires first and drops it.
   */
  datatype Ending = Finished(result: Outcome, late: bool) | Expired

  /** What drops a phase: its own timer, a shutdown request (perhaps of a failed task), or a signal. */
  datatype Cause = Timer | Request(byFailure: bool) | Signal

  /**
   * What lies ahead of a phase: after how many "pending" answers it is dropped, if ever, and by
   * what; and whether it ends, if it does, only after its budget has passed.
   */
  datatype Fate = Fate(patience: Option<nat>, cause: Cause, late: bool)

  /** A timer that is not set never fires. */
  function PatienceOf(budget: Option<nat>, fate: Fate): Option<nat> {
    if fate.cause.Timer? && budget.None? then None else fate.patience
  }

  /** Prefers a real phase error over a timeout; turns a late success into a timeout. */
  function WithTimeout(budget: Option<nat>, e: Ending, timedOut: Error): (r: Outcome)
    ensures r.Ok? <==> e.Finished? && e.result.Ok? && !(budget.Some? && e.late)
    ensures r.Err? ==> r.error == if e.Finished? && e.result.Err? then e.result.error else timedOut
  {
    match e
    case Finished(r, late) =>
      if budget.None? then r
      else if r.Err? then r
      else if late then Err(timedOut)
      else r
    case Expired => Err(timedOut)
  }

  function AggregateErrors(errors: seq<Error>): Outcome {
    if |errors| == 0 then DONE
    else if |errors| == 1 then Err(errors[0])
    else Err(MultipleStop(errors))
  }

  function WithCleanup(earlier: Error, cleanup: Outcome): Error {
    match cleanup
    case Ok(_) => earlier
    case Err(e) => CleanupAfterFailure(e, earlier)
  }

  function CombineResults(earlier: Outcome, later: Outcome): Outcome {
    match earlier
    case Ok(_) => later
    case Err(e) => Err(WithCleanup(e, later))
  }
}
