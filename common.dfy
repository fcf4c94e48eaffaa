/** Shared vocabulary of the route handlers: optional values, loosely typed JSON
    values as they arrive in request bodies, and the HTTP response every
    handler returns. */
module Common {

  datatype Option<+T> = None | Some(value: T) {
    function GetOr(default: T): T {
      match this
      case Some(v) => v
      case None => default
    }
  }

  /** A scalar JSON value of a request body. A key that is absent from the body
      (JavaScript `undefined`) is absent from the map that holds the body. */
  datatype Value = Str(s: string) | Num(n: int) | Bool(b: bool) | Null

  /** JavaScript truthiness of a JSON value. */
  predicate Truthy(v: Value) {
    match v
    case Str(s) => s != ""
    case Num(n) => n != 0
    case Bool(b) => b
    case Null => false
  }

  /** Truthiness of an optional string field (`!field` is false exactly here). */
  predicate Present(s: Option<string>) {
    s.Some? && s.value != ""
  }

  /** A handler's answer: an HTTP status code and a payload. */
  datatype Response<P> = Response(status: int, body: P)

  function Min(a: int, b: int): int { if a <= b then a else b }
  function Max(a: int, b: int): int { if a <= b then b else a }
}
