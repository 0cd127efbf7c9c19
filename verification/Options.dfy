/** Optional values and the outcome of a step that may raise an error. */
module Options {

  datatype Option<+T> = None | Some(value: T) {
    function GetOr(default: T): T { if Some? then value else default }
    function OrElse(other: Option<T>): Option<T> { if Some? then this else other }
  }

  datatype Result<+T, +E> = Success(value: T) | Failure(error: E)
}
