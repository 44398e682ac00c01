/** Option and Result values: JavaScript's `undefined`/`null` returns and thrown
    errors become explicit values. */
module Wrappers {

  datatype Option<+T> = None | Some(value: T)

  datatype Result<+T> = Success(value: T) | Failure(error: string)
}
