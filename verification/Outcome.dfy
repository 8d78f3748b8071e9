// Absent values and failures, shared by every module of the model.
module Outcome {
  datatype Option<+T> = None | Some(value: T)

  datatype Result<+T, +E> = Ok(value: T) | Err(error: E)

  // Python's truthiness of an optional number: None and 0 both count as "not supplied".
  function NonZero(n: Option<int>): Option<int> {
    if n == Some(0) then None else n
  }
}
