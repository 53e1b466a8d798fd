/** The exceptions the Python code can raise on the modelled paths, and a result type carrying them. */
module Errors {
  datatype Error =
    | ZeroDivision        // ZeroDivisionError: a frequency of 0, or a triangle whose half period is 0
    | NegativeDimensions  // ValueError from np.zeros with a negative sample count
    | StructError         // struct.error: a value that does not fit its slot in struct.pack
    | TypeError           // TypeError: item assignment into an immutable bytes object

  datatype Result<+T> = Ok(value: T) | Err(error: Error)
}
