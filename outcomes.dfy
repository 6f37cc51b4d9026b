/** Optional values and the ways an operation of the library can end. */
module Outcomes {

  datatype Option<+T> = None | Some(value: T)

  /** How an operation fails. The library has two disciplines: `waitExit()`
      prints a diagnostic and terminates the process, while `check` and
      `Kernel::setArg` throw a `std::runtime_error` that a caller may catch.
      `std::string::substr` throws `std::out_of_range` when its start lies
      past the end of the string. */
  datatype Fault =
    | Exit(message: string)
    | RuntimeError(message: string)
    | OutOfRange

  datatype Outcome<+T> = Ok(value: T) | Fail(fault: Fault)
}
