/** Values shared by both slices: JavaScript values that may be missing, the
    outcome of a request, and the outcome of running one reducer case. */
module Base {

  /** A JavaScript value that may be missing. `None` stands for every value the
      source treats as falsy when it writes `x || d`, `x?.f` or `if (!x)`. */
  datatype Option<+T> = None | Some(value: T) {

    /** `x || d` for a value that is falsy exactly when it is missing. */
    function GetOr(default: T): T {
      match this
      case Some(v) => v
      case None => default
    }
  }

  /** The value a thunk settles with: fulfilled with a payload or rejected. */
  datatype Result<+R, +E> = Success(value: R) | Failure(error: E)

  /** What running one case reducer does. `Threw` is a case reducer that reads
      a field of a `null`/`undefined` payload; the store then keeps its state. */
  datatype Reduced<+S> = Next(state: S) | Threw

  /** The store's state after dispatching an action whose reducer gave `r`. */
  function Commit<S>(prev: S, r: Reduced<S>): (s: S)
    ensures r.Next? ==> s == r.state
    ensures r.Threw? ==> s == prev
  {
    match r
    case Next(next) => next
    case Threw => prev
  }

  /** `s || d` on strings, where the empty string is the only falsy string. */
  function OrElse(s: string, d: string): (r: string)
    ensures r == s || r == d
    ensures r == "" ==> s == "" && d == ""
    ensures s != "" ==> r == s
    ensures s == "" ==> r == d
  {
    if s != "" then s else d
  }
}
