/** Small failure-carrying datatypes shared by the other modules. */
module Wrappers {

  datatype Option<+T> = None | Some(value: T)

  datatype Result<+T, +E> = Ok(value: T) | Err(error: E)

  /** What one call to an upstream REST API gave back: the decoded body, or a
      failure of any kind (transport, HTTP status, malformed payload). */
  datatype Upstream<+T> = Answered(body: T) | Failed
}
