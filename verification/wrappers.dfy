/** The absent-or-present value used for Python lookups that may raise. */
module Wrappers {

  /** `None` stands for a lookup that raised; `Some(v)` for one that produced `v`.
      Usable with `:-` so that a chain of lookups stops at the first failure. */
  datatype Option<+T> = None | Some(value: T) {

    predicate IsFailure() {
      None?
    }

    function PropagateFailure<U>(): Option<U>
      requires None?
    {
      None
    }

    function Extract(): T
      requires Some?
    {
      value
    }
  }
}
