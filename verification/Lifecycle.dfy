// Job states and the two edge tables: the forward lifecycle and the backward recovery table.

module Wrappers {
  datatype Option<+T> = None | Some(value: T)

  datatype Result<+T, +E> = Ok(value: T) | Err(error: E)
}

module Lifecycle {
  import Wrappers

  datatype JobState =
    | Discovered | Ready | InputInvalid | Quarantined
    | Claimed | WaitingModel | Inferencing | BlockedConfiguration | RetryWait
    | ProcessingExhausted | RetainedFailed
    | ResultCommitted | PublishPending | Published | PublishExhausted
    | CleanupPending | CleanupFailed | Completed

  predicate Terminal(s: JobState) {
    s == Quarantined || s == RetainedFailed || s == Completed
  }

  predicate Initial(s: JobState) {
    s == Discovered || s == Ready
  }

  /** The forward lifecycle, edge for edge. */
  predicate IsLegal(current: JobState, next: JobState) {
    match current
    case Discovered => next == Ready || next == InputInvalid
    case InputInvalid => next == Quarantined
    case Ready => next == Claimed
    case Claimed => next == WaitingModel
    case WaitingModel => next == Inferencing || next == BlockedConfiguration || next == RetryWait
    case Inferencing => next == ResultCommitted || next == RetryWait || next == ProcessingExhausted
    case ProcessingExhausted => next == RetainedFailed
    case ResultCommitted => next == PublishPending
    case PublishPending => next == Published || next == PublishExhausted
    case PublishExhausted => next == PublishPending
    case Published => next == CleanupPending
    case CleanupPending => next == Completed || next == CleanupFailed
    case CleanupFailed => next == CleanupPending
    case RetryWait => next == Ready
    case _ => false
  }

  /** The edges a restart or an operator requeue takes; all of them lead back to Ready. */
  predicate IsRecoveryEdge(current: JobState, next: JobState) {
    next == Ready &&
    (current == Inferencing || current == Claimed || current == WaitingModel || current == RetryWait ||
     current == ResultCommitted || current == PublishPending || current == BlockedConfiguration)
  }

  /** States whose committed result an operator may invalidate. */
  predicate Invalidatable(s: JobState) {
    s == ResultCommitted || s == PublishPending
  }

  /** The states at or past a committed result. */
  predicate HasResult(s: JobState) {
    s == ResultCommitted || s == PublishPending || s == Published || s == PublishExhausted ||
    s == CleanupPending || s == CleanupFailed || s == Completed
  }

  /** The states a job can only be in once its publication was confirmed. */
  predicate PastPublication(s: JobState) {
    s == Published || s == CleanupPending || s == CleanupFailed || s == Completed
  }

  /** The completing edge of each state cleanup may complete from. */
  function CompletingEdge(s: JobState): (r: Wrappers.Option<JobState>)
    ensures r.Some? ==> IsLegal(s, r.value) && Terminal(r.value)
  {
    match s
    case CleanupPending => Wrappers.Some(Completed)
    case InputInvalid => Wrappers.Some(Quarantined)
    case ProcessingExhausted => Wrappers.Some(RetainedFailed)
    case _ => Wrappers.None
  }
}
