/** Option and the outcome of an operation that may panic. */
module Wrappers {

  /** Rust's `Option`. */
  datatype Option<+T> = None | Some(value: T)

  /** The outcome of evaluating Rust code that can panic: it either finishes
      with a value or unwinds. */
  datatype Completion<+T> = Done(value: T) | Panic

  /** `Option::unwrap`: panics on `None`. */
  function Unwrap<T>(o: Option<T>): (r: Completion<T>)
    ensures r.Panic? <==> o.None?
    ensures r.Done? ==> o == Some(r.value)
  {
    match o
    case Some(v) => Done(v)
    case None => Panic
  }
}
