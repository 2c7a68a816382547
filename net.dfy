/** Values that cross the boundary between the pages and the remote API. */
module Net {

  /** A value that may be `null` or `undefined` in the pages' state. */
  datatype Option<+T> = None | Some(value: T)

  /** How one awaited request settles: with the response body's fields, or
      by rejecting (a network error, a status the client treats as an error,
      or a throw while the body is read), which lands in the handler's `catch`. */
  datatype Response<+T> = Success(data: T) | Failure

  /** An identifier handed out by the API. JavaScript compares these with
      `===`, so a number never equals a string. */
  datatype Key = Number(n: int) | Text(s: string)

  /** JavaScript truthiness of a value that is a string, `null` or
      `undefined`: the empty string is falsy too. */
  predicate Truthy(s: Option<string>) {
    s.Some? && s.value != ""
  }
}
