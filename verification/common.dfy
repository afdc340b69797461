/** Small shared vocabulary: optional values, results and the decoder mode. */
module Common {

  /** Python's `None` / a present value. */
  datatype Option<+T> = None | Some(value: T)

  /** The outcome of a whole decode call: either its value or why it failed. */
  datatype Result<+R, +E> = Success(value: R) | Failure(error: E)

  /** The three `ModeKeys` a decoder is built for. */
  datatype Mode = Train | Eval | Infer
}
