/** The OAuth callback page: the provider redirects here with `code`, `scope` and perhaps
    `error`; the page normalises those query values, hands the code to the window that opened
    it with a same-origin message, keeps a copy in session storage, and shows one of three
    views. */
module AuthCallback {
  import opened Web

  /** A search-parameter value as the framework passes it: one string, or every repetition. */
  datatype QueryValue = One(s: string) | Many(items: seq<string>)

  type SearchParams = map<string, QueryValue>

  /** Where the code is stashed, and the `type` of the relayed message. */
  const AuthCodeKey := "twitch-auth-code"

  /** The value of `code` or `error`: the first repetition, or "" when there is none. */
  function FirstValue(params: SearchParams, key: string): (r: string)
    ensures key !in params ==> r == ""
    ensures key in params && params[key].One? ==> r == params[key].s
    ensures key in params && params[key].Many? ==>
              r == (if params[key].items == [] then "" else params[key].items[0])
  {
    if key !in params then ""
    else match params[key]
      case One(s) => s
      case Many(items) => if items == [] then "" else items[0]
  }

  function Code(params: SearchParams): string {
    FirstValue(params, "code")
  }

  function Error(params: SearchParams): string {
    FirstValue(params, "error")
  }

  /** The value of `scope`: every repetition joined with single spaces. */
  function Scope(params: SearchParams): (r: string)
    ensures "scope" !in params ==> r == ""
    ensures "scope" in params && params["scope"].One? ==> r == params["scope"].s
    ensures "scope" in params && params["scope"].Many? ==> r == Join(params["scope"].items, " ")
  {
    if "scope" !in params then ""
    else match params["scope"]
      case One(s) => s
      case Many(items) => Join(items, " ")
  }

  /** A value given once reads the same whether it arrives as a string or as a one-element
      list; for `code` and `error` only the first repetition matters. */
  lemma NormalisationAgrees(params: SearchParams, key: string, s: string, rest: seq<string>)
    ensures FirstValue(params[key := Many([s] + rest)], key) == FirstValue(params[key := One(s)], key) == s
    ensures Scope(params["scope" := Many([s])]) == Scope(params["scope" := One(s)]) == s
    ensures FirstValue(params[key := Many([])], key) == FirstValue(params - {key}, key) == ""
  {
  }

  /** The message posted to the opener. */
  function RelayMessage(code: string, scope: string): (v: JsValue)
    ensures Member(v, "type") == JsString(AuthCodeKey)
    ensures Member(v, "code") == JsString(code) && Member(v, "scope") == JsString(scope)
  {
    JsObject(map["type" := JsString(AuthCodeKey), "code" := JsString(code), "scope" := JsString(scope)])
  }

  datatype Status = Pending | Sent | Copied

  /** What the relay effect touches: the status, session storage, and every message posted. */
  datatype RelayState = RelayState(status: Status, sessionStorage: map<string, string>, outbox: seq<Posted>)

  /** The relay effect. With no code it does nothing. Otherwise it posts the message to the
      opener, if there is one, aimed at the page's own origin; then stores the code; then marks
      the status sent. A throw from either step abandons the rest, and the status stays. */
  function Relay(st: RelayState, params: SearchParams, origin: string, hasOpener: bool,
                 postThrows: bool, storeThrows: bool): RelayState
  {
    var code := Code(params);
    if code == "" then st
    else if hasOpener && postThrows then st
    else
      var posted := if hasOpener then st.outbox + [Posted(origin, origin, RelayMessage(code, Scope(params)))] else st.outbox;
      if storeThrows then st.(outbox := posted)
      else RelayState(Sent, st.sessionStorage[AuthCodeKey := code], posted)
  }

  /** The relay only ever aims its message at the page's own origin, and the status turns
      sent only once the code is stored. Beyond that: without a code, or when posting throws,
      nothing changes; otherwise the message goes out (when there is an opener), and the code
      is stored and the status marked sent unless storing throws. */
  lemma RelaySpec(st: RelayState, params: SearchParams, origin: string, hasOpener: bool,
                  postThrows: bool, storeThrows: bool)
    ensures var st' := Relay(st, params, origin, hasOpener, postThrows, storeThrows);
      && (forall p :: p in st'.outbox && p !in st.outbox ==> p.targetOrigin == origin && p.senderOrigin == origin)
      && (st'.status == Sent && st.status != Sent ==>
            AuthCodeKey in st'.sessionStorage && st'.sessionStorage[AuthCodeKey] == Code(params) != "")
      && (Code(params) == "" || (hasOpener && postThrows) ==> st' == st)
      && (Code(params) != "" && !(hasOpener && postThrows) ==>
            && st'.outbox == st.outbox + (if hasOpener then [Posted(origin, origin, RelayMessage(Code(params), Scope(params)))] else [])
            && (storeThrows ==> st'.status == st.status && st'.sessionStorage == st.sessionStorage)
            && (!storeThrows ==> st'.status == Sent && st'.sessionStorage == st.sessionStorage[AuthCodeKey := Code(params)]))
  {
  }

  /** The three renderings, and the status line of the code view. */
  datatype View =
    | ErrorView(error: string)
    | NoCodeView
    | CodeView(code: string, scopeLine: Option<string>, statusText: string)

  function StatusText(status: Status): string {
    match status
    case Pending => "코드 전달 중..."
    case Sent => "기본 창으로 전달됨"
    case Copied => "클립보드에 복사됨"
  }

  /** The rendered view: an error wins even over a code, then a missing code, then the code
      with its scope line (only for a non-empty scope) and the status line. */
  function Render(params: SearchParams, status: Status): (v: View)
    ensures v.ErrorView? <==> Error(params) != ""
    ensures v.ErrorView? ==> v.error == Error(params)
    ensures v.NoCodeView? <==> Error(params) == "" && Code(params) == ""
    ensures v.CodeView? ==> v.code == Code(params) != ""
    ensures v.CodeView? ==> (v.scopeLine.Some? <==> Scope(params) != "")
    ensures v.CodeView? && v.scopeLine.Some? ==> v.scopeLine.value == Scope(params)
  {
    var error := Error(params);
    var code := Code(params);
    var scope := Scope(params);
    if error != "" then ErrorView(error)
    else if code == "" then NoCodeView
    else CodeView(code, if scope != "" then Some(scope) else None, StatusText(status))
  }

  /** The callback window. */
  class CallbackPage {
    const params: SearchParams
    const origin: string
    const hasOpener: bool
    var status: Status
    var sessionStorage: map<string, string>
    var outbox: seq<Posted>

    constructor (params: SearchParams, origin: string, hasOpener: bool, sessionStorage: map<string, string>)
      ensures this.params == params && this.origin == origin && this.hasOpener == hasOpener
      ensures status == Pending && this.sessionStorage == sessionStorage && outbox == []
    {
      this.params := params;
      this.origin := origin;
      this.hasOpener := hasOpener;
      status := Pending;
      this.sessionStorage := sessionStorage;
      outbox := [];
    }

    function Snapshot(): RelayState
      reads this
    {
      RelayState(status, sessionStorage, outbox)
    }

    /** The relay effect; whether `postMessage` and `setItem` throw are parameters. */
    method RelayEffect(postThrows: bool, storeThrows: bool)
      modifies this
      ensures Snapshot() == Relay(old(Snapshot()), params, origin, hasOpener, postThrows, storeThrows)
    {
      var code := Code(params);
      if code == "" {
        return;
      }
      if hasOpener {
        if postThrows {
          return;
        }
        outbox := outbox + [Posted(origin, origin, RelayMessage(code, Scope(params)))];
      }
      if storeThrows {
        return;
      }
      sessionStorage := sessionStorage[AuthCodeKey := code];
      status := Sent;
    }

    /** The copy button: once the clipboard write resolves the status becomes copied. */
    method CopyCode(written: bool)
      modifies this
      ensures status == (if written then Copied else old(status))
      ensures sessionStorage == old(sessionStorage) && outbox == old(outbox)
    {
      if written {
        status := Copied;
      }
    }

    function View(): View
      reads this
    {
      Render(params, status)
    }
  }
}
