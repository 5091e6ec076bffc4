/** Values that stand for what the pages receive from outside: JavaScript's
    `null`/`undefined` as `None`, and the outcome of one HTTP request as a
    `Reply` (the awaited `res.data.data` on success, or the caught error). */
module Replies {

  datatype Option<+T> = None | Some(value: T) {
    function GetOr(default: T): T {
      match this
      case Some(v) => v
      case None => default
    }
  }

  /** One awaited request: `Ok` carries the response payload, `Failed` is a
      request that threw or an answer whose reading throws (a payload the
      handler dereferences but the answer lacks). A page that reads the
      `success` flag of the answer (the catalogue) also treats
      `success: false` as `Failed`. */
  datatype Reply<+T> = Ok(data: T) | Failed
}
