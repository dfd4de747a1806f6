/** Small carrier types shared by every module of the model. */
module Wrappers {

  datatype Option<T> = None | Some(value: T)
  {
    /** `x ?? d` in TypeScript. */
    function OrElse(d: T): T
    {
      if this.Some? then value else d
    }
  }

  /**
   * The outcome of an HTTP handler: either the data it sends with status 200
   * inside the success envelope, or an HTTP status code with the error message
   * it sends inside the error envelope.
   */
  datatype Reply<T> = Success(data: T) | Failure(code: nat, message: string)

  /** A thrown exception or a returned value of a library call. */
  datatype Outcome<T> = Returned(value: T) | Threw(error: string)
}
