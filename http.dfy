/** What an HTTP exchange looks like to the code: a status, headers and a body read with `response.json()`. */
module Http {
  import opened Wrappers
  import opened Json

  /** `response.ok`. */
  predicate IsOk(status: int) {
    200 <= status <= 299
  }

  /** The outcome of `response.json()`: a value, or the SyntaxError it throws with its message. */
  datatype JsonBody = Parsed(value: Json) | Unparsable(syntaxError: string)

  /**
   * A reply from an upstream service. `headers` is keyed by lower-case names,
   * since `Headers.get` is case-insensitive.
   */
  datatype Response = Response(status: int, headers: map<string, string>, body: JsonBody)

  /** `response.headers.get(name)` for a lower-case `name`; `None` is `null`. */
  function HeaderValue(r: Response, name: string): Option<string> {
    if name in r.headers then Some(r.headers[name]) else None
  }

  /** A reply this service sends: an HTTP status and a JSON body. */
  datatype Reply<T> = Reply(status: int, body: T)
}
