/** The two outcome types shared by every component: an optional value, and the
    value-or-rejection result that stands for the exceptions of the source. */
module Results {

  datatype Option<+T> = None | Some(value: T)

  /** `Rejected` is the source's fail-closed exception: the operation left no trace. */
  datatype Result<+T> = Ok(value: T) | Rejected {

    predicate IsFailure() {
      Rejected?
    }

    function PropagateFailure<U>(): Result<U>
      requires Rejected?
    {
      Rejected
    }

    function Extract(): T
      requires Ok?
    {
      value
    }
  }
}
