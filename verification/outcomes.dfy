/** Success/failure outcome for applying queued stack changes, whose misuses
    (pushing an unregistered id, popping an empty stack) are reported as
    errors. */
module Outcomes {

  datatype Result<T, E> = Success(value: T) | Failure(error: E)

}
