/** Failure-compatible wrappers shared by the model: an optional value, and the
    result of an operation that either produces a value or fails with an error. */
module Wrappers {

  datatype Option<+T> = None | Some(value: T)

  /** The errors the program reports. The program builds its errors with the
      `anyhow` crate, which gives three shapes:
      - `Message`: an error that only carries a message (`bail!`, `anyhow!`,
        or `.context(..)` applied to a missing optional value);
      - `Context`: an existing error wrapped with a context line
        (`.context(..)` applied to a failed result);
      - `Foreign`: an error raised by code outside the model (the cloud SDK,
        the terminal prompt, the file system, process spawning), passed on
        unchanged by `?`. Its description is opaque to the model. */
  datatype Error =
    | Message(text: string)
    | Context(context: string, source: Error)
    | Foreign(description: string)

  datatype Result<+T> = Ok(value: T) | Err(error: Error) {

    /** Wraps a failure with a context line and leaves a success unchanged. */
    function WithContext(context: string): (r: Result<T>)
      ensures Ok? ==> r == this
      ensures Err? ==> r == Err(Context(context, error))
    {
      match this
      case Ok(_) => this
      case Err(e) => Err(Context(context, e))
    }
  }
}
