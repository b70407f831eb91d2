/** Outcomes of the interpreter's operations: a value, or the panic that aborts the evaluation. */
module Outcomes {

  /** Why an operation panics. */
  datatype Fault =
    | InvalidFloat      // `parse::<f32>().unwrap()` on text that is not a float literal
    | IndexOutOfBounds  // `v[i]` on a vector with `i >= v.len()`
    | UnwrapNone        // `Option::unwrap` on `None`
    | InsertPastEnd     // `Vec::insert(i, _)` with `i > len`
    | Unreachable       // `unreachable!()`
    | Refused           // what a `Host` coercion returns for an argument it cannot convert

  /** A value, or a panic; usable with `:-`. */
  datatype Result<+T> = Ok(value: T) | Panic(fault: Fault) {

    predicate IsFailure() {
      Panic?
    }

    function PropagateFailure<U>(): Result<U>
      requires Panic?
    {
      Panic(fault)
    }

    function Extract(): T
      requires Ok?
    {
      value
    }
  }
}
