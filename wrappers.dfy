/** Failure-carrying values shared by the managers: an operation that the
    page code wraps in try/catch returns one of these instead of throwing. */
module Wrappers {

  datatype Option<+T> = None | Some(value: T)

  datatype Result<+R, +E> = Success(value: R) | Failure(error: E)

  /** What a read of one key of the browser's durable storage produced:
      no entry, text that is not JSON, JSON that is not a list, or a list. */
  datatype Stored<+T> = Absent | Malformed | NotAList | Present(items: T)
}
