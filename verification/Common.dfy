/** Small shared datatypes. */
module Common {
  datatype Option<+T> = None | Some(value: T)

  /** How a call that may throw ends. Usable with `:-`. */
  datatype Status = Success | Threw {
    predicate IsFailure() {
      Threw?
    }

    function PropagateFailure(): Status
      requires Threw?
    {
      this
    }
  }

  function Max(a: int, b: int): int {
    if a > b then a else b
  }

  function Min(a: int, b: int): int {
    if a < b then a else b
  }
}
