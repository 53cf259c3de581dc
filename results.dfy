/** Outcomes of the library's synchronous operations. Every failure the modelled
    code raises is a `TypeError`; `Err` carries that error's exact message. */
module Results {

  datatype Option<+T> = None | Some(value: T)

  datatype Result<+T> = Ok(value: T) | Err(message: string) {

    predicate IsFailure() {
      Err?
    }

    function PropagateFailure<U>(): Result<U>
      requires Err?
    {
      Err(message)
    }

    function Extract(): T
      requires Ok?
    {
      value
    }
  }

  /** The outcome of a constructor body that only assigns fields. */
  datatype Outcome = Pass | Fail(message: string)
}
