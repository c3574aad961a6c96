/** Optional values and results with an error, used wherever the system
    returns None or raises an exception. */
module Basics {

  datatype Option<+T> = None | Some(value: T)

  datatype Result<+T, +E> = Success(value: T) | Failure(error: E)

  /** A file the system reads from disk: absent, present but not parseable,
      or parsed into a value. */
  datatype Loaded<+T> = Missing | Malformed | Parsed(data: T)
}
