/** The two result types every other module uses: a lookup that may find nothing, and a call
    that either returns or raises. */
module Results {

  datatype Option<+T> = None | Some(value: T)

  /** The outcome of a call that returns a value or raises; usable with `:-`. */
  datatype Result<+T> = Returned(value: T) | Raised {
    predicate IsFailure() {
      Raised?
    }

    function PropagateFailure<U>(): Result<U>
      requires Raised?
    {
      Raised
    }

    function Extract(): T
      requires Returned?
    {
      value
    }
  }

  /** The outcome of a call that returns nothing or raises; usable with `:-`. */
  datatype Status = Completed | Failed {
    predicate IsFailure() {
      Failed?
    }

    function PropagateFailure<U>(): Result<U>
      requires Failed?
    {
      Raised
    }
  }

  /** What a remote call did: nothing, its effect and said so, or its effect while reporting a failure. */
  datatype Outcome = Refused | Acknowledged | Lost
}
