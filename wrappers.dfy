/** Failure-carrying values shared by every module. */
module Wrappers {

  datatype Option<+T> = None | Some(value: T) {
    function GetOr(default: T): T {
      match this
      case Some(v) => v
      case None => default
    }
  }

  /**
   * The three answers a repository call gives in Go: an error, "no such
   * row" `(nil, nil)`, or a row `(row, nil)`.
   */
  datatype Lookup<+T> = Failed | Missing | Found(value: T)

  function ToLookup<T>(o: Option<T>): (r: Lookup<T>)
    ensures r.Found? <==> o.Some?
    ensures r.Found? ==> r.value == o.value
    ensures !r.Failed?
  {
    match o
    case Some(v) => Found(v)
    case None => Missing
  }

  /**
   * How a Go handler ended: it returned a value, or it dereferenced a nil
   * pointer and panicked, leaving whatever it had already changed.
   */
  datatype Outcome<+T> = Returned(value: T) | Panicked
}
