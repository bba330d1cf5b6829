/** The error vocabulary of the caching engine and the result types its operations return. */
module Errors {

  /** The three error numbers the engine raises, with their Linux values. */
  datatype Errno = ENOENT | EIO | EBADF {
    function Code(): (n: int)
      ensures n > 0
    {
      match this
      case ENOENT => 2
      case EIO => 5
      case EBADF => 9
    }
  }

  /** The outcome of an operation that either yields a value or raises a `FuseOSError`. */
  datatype Result<T> = Ok(value: T) | Err(error: Errno)

  datatype Option<T> = None | Some(value: T)
}
