/** What a step of the loop may throw, as values. */
module Failures {
  import opened LoopStates
  import opened RunStates

  datatype Error =
    | IllegalMove(from: LoopState, to: LoopState)
    | Denied(from: LoopState, to: LoopState, arm: BudgetArm)
    | FlagRecord(ticketId: TicketId)
    | StoreFailure
    | Thrown
  {
    /** instanceof LoopStateError: an illegal move or a guard denial. */
    predicate IsLoopStateError() {
      IllegalMove? || Denied?
    }
  }

  datatype Outcome<+T> = Ok(value: T) | Err(error: Error) {
    predicate IsFailure() {
      Err?
    }

    function PropagateFailure<U>(): Outcome<U>
      requires Err?
    {
      Err(error)
    }

    function Extract(): T
      requires Ok?
    {
      value
    }
  }
}
