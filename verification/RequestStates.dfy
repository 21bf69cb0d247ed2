/** The request state table and the multi-step walks the billing transactions take through it. */
module RequestStates {
  import opened Wrappers
  import opened Model

  predicate CanTransition(current: RequestState, next: RequestState) {
    match current
    case Received => next == Validating
    case Validating => next == Reserved || next == Failed || next == UnknownOutcome
    case Reserved => next == Queued || next == Failed || next == UnknownOutcome || next == CancelRequested
    case Queued => next == Dispatched || next == Failed || next == UnknownOutcome || next == CancelRequested
    case Dispatched => next == Completing || next == Failed || next == UnknownOutcome || next == CancelRequested
    case Completing => next == Succeeded || next == Failed || next == UnknownOutcome || next == CancelRequested
    case CancelRequested => next == Canceled || next == UnknownOutcome
    case UnknownOutcome => next == Canceled || next == Succeeded || next == Failed || next == Settled
    case Canceled => next == Settled
    case Succeeded => next == Settled
    case Failed => next == Settled
    case Settled => false
  }

  /** The states from which a dispatch can still walk a request to `dispatched`. */
  predicate Dispatchable(state: RequestState) {
    state == Received || state == Validating || state == Reserved || state == Queued
  }

  function TargetOf(terminal: ExecState): RequestState
    requires Terminal(terminal)
  {
    match terminal
    case ExecSucceeded => Succeeded
    case ExecFailed => Failed
    case ExecCanceled => Canceled
  }

  /** Where finishing an operation leaves its parent request. */
  function FinishParent(state: RequestState, terminal: ExecState): Result<RequestState, Error>
    requires Terminal(terminal)
  {
    if state == TargetOf(terminal) then Ok(state)
    else if state == Succeeded || state == Failed || state == Canceled || state == Settled then Err(IdempotencyConflict)
    else if state == CancelRequested && terminal == ExecSucceeded then Err(InvalidTransition)
    else Ok(TargetOf(terminal))
  }

  /** Where finishing an assist step leaves its own request. */
  function SyncAssist(state: RequestState, terminal: ExecState): Result<RequestState, Error>
    requires Terminal(terminal)
  {
    if state == TargetOf(terminal) then Ok(state)
    else if state == Succeeded || state == Failed || state == Canceled || state == Settled then Err(InvalidTransition)
    else if terminal == ExecCanceled then Ok(Canceled)
    else if state == CancelRequested then Err(InvalidTransition)
    else if terminal == ExecFailed then Ok(Failed)
    else if state == Dispatched || state == Completing || state == UnknownOutcome then Ok(Succeeded)
    else Err(InvalidTransition)
  }

  /** Whether settle_request_state can walk a request through this outcome to `settled`. */
  predicate CanSettle(current: RequestState, final: RequestState) {
    if final == Succeeded then
      current == UnknownOutcome || current == Reserved || current == Queued || current == Dispatched
      || current == Completing || current == Succeeded
    else CanTransition(current, final)
  }
}
