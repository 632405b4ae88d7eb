// Small vocabulary shared by every module of the project.

module Prelude {
  datatype Option<+T> = None | Some(value: T)

  /** The result of code that may raise: a value, or the exception that escaped. */
  datatype Outcome<+T, +E> = Ok(value: T) | Raised(error: E)

  function MaxReal(a: real, b: real): real {
    if a >= b then a else b
  }

  function MinReal(a: real, b: real): real {
    if a <= b then a else b
  }

  function AbsReal(a: real): real {
    if a >= 0.0 then a else -a
  }

  /** A natural number in decimal digits. */
  function NatText(n: nat): string {
    (if n < 10 then "" else NatText(n / 10)) + ["0123456789"[n % 10]]
  }
}
