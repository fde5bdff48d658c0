/** Optional values and results shared by all modules. */
module Wrappers {
  datatype Option<+T> = None | Some(value: T)

  datatype Result<+T, +E> = Ok(value: T) | Err(error: E)

  /** A sequence that is never empty: everything but the last element, and the last element. */
  datatype NonEmpty<T> = NonEmpty(init: seq<T>, last: T) {
    function Push(x: T): NonEmpty<T> {
      NonEmpty(init + [last], x)
    }

    /** Removes the last element, unless it is the only one. */
    function Pop(): Option<NonEmpty<T>> {
      if init == [] then None
      else Some(NonEmpty(init[..|init| - 1], init[|init| - 1]))
    }

    function Elements(): seq<T> {
      init + [last]
    }
  }
}
