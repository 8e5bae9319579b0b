/** What the two server routes that proxy the token endpoint share: the request body as the
    route reads it, the provider's reply, the JSON response, and the JavaScript conversions a
    route applies to the fields it destructures. */
module Proxy {
  import opened Web

  /** `await request.json()`: a parsed JSON value, or a body that is not JSON (which throws). */
  datatype Incoming = Unreadable | Parsed(json: JsValue)

  /** The upstream exchange: the provider's HTTP status and parsed JSON body, or a failure of
      `fetch` or of `response.json()` (which throws). */
  datatype Upstream = Answered(status: int, payload: JsValue) | Failed

  /** A JSON response with its HTTP status. */
  datatype Response = Response(status: int, body: JsValue)

  /** What a route does: the response it returns, and the request it sent upstream, if any. */
  datatype Handled = Handled(response: Response, forwarded: Option<Request>)

  /** The body `{ message }` of the routes' own error responses. */
  function MessageBody(message: string): (v: JsValue)
    ensures Member(v, "message") == JsString(message)
  {
    JsObject(map["message" := JsString(message)])
  }

  /** Object destructuring throws on `null` and `undefined` and reads nothing else. */
  predicate Destructurable(v: JsValue) {
    !v.JsNull? && !v.JsUndefined?
  }

  /** JavaScript truthiness, as `!field` tests it. */
  predicate Truthy(v: JsValue) {
    match v
    case JsUndefined => false
    case JsNull => false
    case JsBool(b) => b
    case JsNumber(n) => n != 0
    case JsString(s) => s != ""
    case JsObject(_) => true
  }

  /** The string `URLSearchParams` stores for a value: its `String(...)` conversion. */
  function FormValue(v: JsValue): (s: string)
    ensures v.JsString? ==> s == v.s
  {
    match v
    case JsUndefined => "undefined"
    case JsNull => "null"
    case JsBool(b) => if b then "true" else "false"
    case JsNumber(n) => Decimal(n)
    case JsString(s) => s
    case JsObject(_) => "[object Object]"
  }

  /** A truthy value never converts to the empty string, so a forwarded field is never blank. */
  lemma TruthyFormValue(v: JsValue)
    requires Truthy(v)
    ensures FormValue(v) != ""
  {
    if v.JsNumber? && v.n < 0 {
      assert Decimal(v.n)[0] == '-';
    }
  }

  /** What the route returns once the request went upstream: the provider's status and body
      verbatim, or the route's own 500 when the exchange threw. */
  function PassThrough(upstream: Upstream, serverError: string): (r: Response)
    ensures upstream.Answered? ==> r.status == upstream.status && r.body == upstream.payload
    ensures upstream.Failed? ==> r.status == 500 && Member(r.body, "message") == JsString(serverError)
  {
    match upstream
    case Answered(status, payload) => Response(status, payload)
    case Failed => Response(500, MessageBody(serverError))
  }
}
