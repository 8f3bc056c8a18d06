/** Faults that stop evaluation. */
module Faults {
  import opened Tokens

  /** A Lox runtime error: the offending token (for its line) and a message. */
  datatype RuntimeError = RuntimeError(token: Token, message: string)

  /**
   * Why evaluation stopped: a Lox runtime error, which the interpreter
   * catches and reports, or a host exception the interpreter does not catch
   * (a NullReferenceException from `ToString` on null).
   */
  datatype Fault = LoxError(error: RuntimeError) | HostCrash(reason: string)

  const NullReference := "Object reference not set to an instance of an object."
}
