/** Option, used both for "absent" (a JS `undefined` or `null` result) and,
    in the schema helpers, for "this JS expression throws" (None). */
module Wrappers {

  datatype Option<+T> = None | Some(value: T) {

    predicate IsFailure() {
      None?
    }

    function PropagateFailure<U>(): Option<U>
      requires None?
    {
      None
    }

    function Extract(): T
      requires Some?
    {
      value
    }
  }
}
