/** What a handler sends back, and what an outgoing `fetch` produced. */
module Http {
  import opened Wrappers
  import opened Js

  /** `res.json(value)` sends a JSON body; `res.status(204).end()` sends none. */
  datatype Body = JsonBody(value: JsValue) | EmptyBody

  datatype Response = Response(status: int, body: Body)

  /** `res.json(value)` with the default status. */
  function Ok(value: JsValue): Response
  {
    Response(200, JsonBody(value))
  }

  /** `res.status(status).json(value)`. */
  function Reply(status: int, value: JsValue): Response
  {
    Response(status, JsonBody(value))
  }

  /**
   * The outcome of `await fetch(...)` followed by `await response.json()`:
   * either the server answered with `status` and a body that parsed (or failed
   * to parse, with the parser's message), or the request itself rejected.
   */
  datatype Fetched =
    | Responded(status: int, json: Result<JsValue, string>)
    | NetworkError(message: string)

  /** `response.ok`: a status in the range 200-299. */
  predicate IsOk(status: int)
  {
    200 <= status <= 299
  }
}
