/** How a call that may throw `IllegalArgumentException` ends. */
module Outcomes {

  datatype Result<T> = Ok(value: T) | IllegalArgument
}
