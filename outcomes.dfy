/** Option and Result values, and the panics of the transformer.

    The Rust code aborts with `expect`/`unwrap` when a section has a shape it
    cannot lower; here such an abort is the `Err` case of a `Result`. */
module Outcomes {

  datatype Option<+T> = None | Some(value: T)

  datatype Result<+T, +E> = Ok(value: T) | Err(error: E) {
    predicate IsFailure() {
      Err?
    }

    function PropagateFailure<U>(): Result<U, E>
      requires Err?
    {
      Err(error)
    }

    function Extract(): T
      requires Ok?
    {
      value
    }
  }

  /** Why the transformer panics. */
  datatype Panic =
    | DataReturnNotFound     // `expect("Data return statement not found!")`
    | DataReturnNotObject    // `expect("Data return expr is not an object!")`
    | DataPropNotKeyValue    // `as_prop().unwrap().as_key_value().unwrap()` on a spread, shorthand, method, ...
    | DataKeyNotIdent        // `kv.key.as_ident().unwrap()` on a string, numeric or computed key
    | MissingBody            // `function.body.as_ref().unwrap()` on a body-less function
    | ReturnWithoutArgument  // `r_stmt.arg.clone().unwrap()` on a lone `return;`
    | WrongMemberShape       // `key_value().unwrap()` / `method().unwrap()` on the other member kind

  type Fallible<T> = Result<T, Panic>
}
