/** Outcomes of the binding's operations: a value, or the exception the binding lets escape to Python. */
module Errors {

  datatype Option<+T> = None | Some(value: T)

  /** The exceptions raised while marshalling a request. */
  datatype Error =
    | InvalidArgument(message: string) // std::invalid_argument thrown by the binding itself
    | TypeError                        // Python's TypeError: len() or iter() on an object that has neither
    | CastError                        // pybind11's cast_error: an item that is not a str where a token is expected

  datatype Result<+T> = Ok(value: T) | Err(error: Error)
}
