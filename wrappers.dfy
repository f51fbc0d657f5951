/** Small value types shared by the modules of this model. */
module Wrappers {

  /** An optional value: JavaScript's `undefined` versus a present value. */
  datatype Option<+T> = None | Some(value: T) {

    /** The value if present, otherwise `default` (JavaScript's `x || default`). */
    function GetOr(default: T): T {
      match this
      case Some(v) => v
      case None => default
    }
  }

  /** The JSON body a route handler answers with: `{ success: true, data }`,
      or `{ success: false, error }` together with an HTTP status. */
  datatype Response<+T> = Success(data: T) | Failure(status: nat, error: string)
}
