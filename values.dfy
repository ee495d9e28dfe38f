/** Value types shared by the whole model: optional values, server replies and
    the loosely-typed JSON payloads the app passes around unchanged. */
module Values {

  /** `null`/`undefined` versus a present value. */
  datatype Option<T> = None | Some(value: T) {
    /** `x ?? fallback` */
    function GetOr(fallback: T): T {
      if Some? then value else fallback
    }
  }

  /** The outcome of a server call or of a store action: a payload, or the
      error text the action reports (`""` when the server sent no message). */
  datatype Result<T> = Ok(value: T) | Err(error: string)

  /** `{ success: true }` / `{ success: false, error }` without a payload. */
  datatype Status = Done | Failed(error: string)

  /** A JSON value as received from the server and stored without inspection. */
  datatype Json =
    | Null
    | Bool(b: bool)
    | Num(n: int)
    | Str(s: string)
    | Arr(items: seq<Json>)
    | Obj(fields: map<string, Json>)

  /** JavaScript truthiness of a JSON value (objects and arrays are truthy even when empty). */
  predicate Truthy(j: Json) {
    match j
    case Null => false
    case Bool(b) => b
    case Num(n) => n != 0
    case Str(s) => s != ""
    case _ => true
  }

  /** Truthiness of an optional string: absent and `""` are both falsy. */
  predicate Present(s: Option<string>) {
    s.Some? && s.value != ""
  }

  /** `s || ""` on an optional string. */
  function OrEmpty(s: Option<string>): string {
    if s.Some? then s.value else ""
  }

  /** `a || fallback` on strings. */
  function OrElse(a: string, fallback: string): string {
    if a != "" then a else fallback
  }
}
