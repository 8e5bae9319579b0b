/** `POST /api/auth/token`: the server-side code exchange. It reads `clientId`, `clientSecret`,
    `redirectUri` and `code` from the JSON body, rejects the call when any is missing, and
    otherwise posts the authorization_code grant to the provider and returns its reply as is. */
module TokenRoute {
  import opened Web
  import opened Proxy
  import TwitchOAuth

  const MissingMessage := "clientId, clientSecret, redirectUri, code 값이 모두 필요합니다."
  const ServerErrorMessage := "토큰 교환 중 서버 오류가 발생했습니다."

  /** The four fields, all of which must be truthy. */
  predicate Complete(body: JsValue) {
    && Truthy(Member(body, "clientId")) && Truthy(Member(body, "clientSecret"))
    && Truthy(Member(body, "redirectUri")) && Truthy(Member(body, "code"))
  }

  /** The upstream request built from a complete body. */
  function Exchange(body: JsValue): Request {
    TwitchOAuth.TokenPost(TwitchOAuth.AuthorizationCodeForm(
      FormValue(Member(body, "clientId")), FormValue(Member(body, "clientSecret")),
      FormValue(Member(body, "code")), FormValue(Member(body, "redirectUri"))))
  }

  /** The route handler; a throw anywhere in the `try` block becomes the 500 response. */
  function Post(incoming: Incoming, upstream: Upstream): (h: Handled)
    ensures h.forwarded.Some? <==> incoming.Parsed? && Destructurable(incoming.json) && Complete(incoming.json)
    ensures h.forwarded.Some? ==> h.forwarded.value == Exchange(incoming.json)
    ensures incoming.Parsed? && Destructurable(incoming.json) && !Complete(incoming.json) ==>
              h.response == Response(400, MessageBody(MissingMessage))
    ensures h.forwarded.Some? ==> h.response == PassThrough(upstream, ServerErrorMessage)
    ensures incoming.Unreadable? || (incoming.Parsed? && !Destructurable(incoming.json)) ==>
              h.response == Response(500, MessageBody(ServerErrorMessage))
  {
    if incoming.Unreadable? || !Destructurable(incoming.json) then
      Handled(Response(500, MessageBody(ServerErrorMessage)), None)
    else
      var body := incoming.json;
      if !Truthy(Member(body, "clientId")) || !Truthy(Member(body, "clientSecret"))
         || !Truthy(Member(body, "redirectUri")) || !Truthy(Member(body, "code")) then
        Handled(Response(400, MessageBody(MissingMessage)), None)
      else
        Handled(PassThrough(upstream, ServerErrorMessage), Some(Exchange(body)))
  }

  /** The forwarded form is the authorization_code grant (section 4.1.3 of RFC 6749): it reads
      back the caller's strings under their keys, and the grant type is fixed. */
  lemma {:induction false} ExchangeFormReadsBack(clientId: string, clientSecret: string, code: string, redirectUri: string)
    ensures var form := TwitchOAuth.AuthorizationCodeForm(clientId, clientSecret, code, redirectUri);
      && Lookup(form, "client_id") == Some(clientId)
      && Lookup(form, "client_secret") == Some(clientSecret)
      && Lookup(form, "code") == Some(code)
      && Lookup(form, "grant_type") == Some("authorization_code")
      && Lookup(form, "redirect_uri") == Some(redirectUri)
  {
    var form := TwitchOAuth.AuthorizationCodeForm(clientId, clientSecret, code, redirectUri);
    assert Distinct(Keys(form));
    LookupDistinct(form, 0);
    LookupDistinct(form, 1);
    LookupDistinct(form, 2);
    LookupDistinct(form, 3);
    LookupDistinct(form, 4);
  }

  /** A body holding the four fields as non-empty strings is forwarded as a form-encoded POST
      to the token endpoint whose form carries exactly those strings. */
  lemma StringFieldsForwarded(clientId: string, clientSecret: string, redirectUri: string, code: string, upstream: Upstream)
    requires clientId != "" && clientSecret != "" && redirectUri != "" && code != ""
    ensures var body := JsObject(map["clientId" := JsString(clientId), "clientSecret" := JsString(clientSecret),
                                     "redirectUri" := JsString(redirectUri), "code" := JsString(code)]);
      var h := Post(Parsed(body), upstream);
      && h.forwarded.Some?
      && h.forwarded.value.verb == "POST" && h.forwarded.value.url == TwitchOAuth.TokenEndpoint
      && h.forwarded.value.body == Form(TwitchOAuth.AuthorizationCodeForm(clientId, clientSecret, code, redirectUri))
  {
    var body := JsObject(map["clientId" := JsString(clientId), "clientSecret" := JsString(clientSecret),
                             "redirectUri" := JsString(redirectUri), "code" := JsString(code)]);
    assert Member(body, "clientId") == JsString(clientId);
    assert Member(body, "clientSecret") == JsString(clientSecret);
    assert Member(body, "redirectUri") == JsString(redirectUri);
    assert Member(body, "code") == JsString(code);
  }

  /** Every value of a forwarded form is non-empty, whatever JSON types the caller used. */
  lemma ForwardedNeverBlank(body: JsValue)
    requires Complete(body)
    ensures var form := Exchange(body).body.params;
      forall i :: 0 <= i < |form| ==> form[i].value != ""
  {
    TruthyFormValue(Member(body, "clientId"));
    TruthyFormValue(Member(body, "clientSecret"));
    TruthyFormValue(Member(body, "redirectUri"));
    TruthyFormValue(Member(body, "code"));
  }

  /** Whatever the provider answers is returned unchanged, its status included. */
  lemma StatusPassesThrough(body: JsValue, status: int, payload: JsValue)
    requires Destructurable(body) && Complete(body)
    ensures Post(Parsed(body), Answered(status, payload)) == Handled(Response(status, payload), Some(Exchange(body)))
  {
  }
}
