/** Small failure-carrying datatypes shared by the views. */
module Wrappers {

  /** A value that may be absent: the views' `null` initial state (`useState<T | null>(null)`). */
  datatype Option<+T> = None | Some(value: T)

  /**
   * What an awaited call to the remote analysis service yields: either the
   * parsed result, or a thrown error (network, authentication, quota, or a
   * reply that is not JSON). The views never distinguish the kinds of error.
   */
  datatype Outcome<+T> = Success(value: T) | Failure
}
