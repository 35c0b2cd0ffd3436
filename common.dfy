/** Values shared by the backend and the browser client. */
module Common {

  datatype Option<T> = None | Some(value: T)

  datatype Result<T, E> = Success(value: T) | Failure(error: E)

  /** A point in time as parsed by the backend's date handling; the model never looks inside it. */
  datatype DateTime = DateTime(ticks: int)

  /** JavaScript truthiness of a value that is either missing or a string: `""` is falsy. */
  predicate Truthy(s: Option<string>)
  {
    s.Some? && s.value != ""
  }

  /**
   * The client's `detail || fallback`: the server's `detail` when it is a
   * non-empty string, the fallback text otherwise. The message shown is never empty.
   */
  function OrElse(detail: Option<string>, fallback: string): (msg: string)
    requires fallback != ""
    ensures msg != ""
    ensures Truthy(detail) ==> msg == detail.value
    ensures !Truthy(detail) ==> msg == fallback
  {
    if Truthy(detail) then detail.value else fallback
  }
}
