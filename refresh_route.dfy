/** `POST /api/auth/refresh`: the server-side token refresh (section 6 of RFC 6749). It reads
    `clientId`, `clientSecret` and `refreshToken` from the JSON body, rejects the call when any
    is missing, and otherwise posts the refresh_token grant and returns the reply as is. */
module RefreshRoute {
  import opened Web
  import opened Proxy
  import TwitchOAuth

  const MissingMessage := "clientId, clientSecret, refreshToken이 모두 필요합니다."
  const ServerErrorMessage := "토큰 갱신 중 서버 오류가 발생했습니다."

  /** The three fields, all of which must be truthy. */
  predicate Complete(body: JsValue) {
    Truthy(Member(body, "clientId")) && Truthy(Member(body, "clientSecret")) && Truthy(Member(body, "refreshToken"))
  }

  /** The refresh_token grant's form, in the order the route builds it. */
  function RefreshForm(clientId: string, clientSecret: string, refreshToken: string): (r: seq<Param>)
    ensures Keys(r) == ["client_id", "client_secret", "refresh_token", "grant_type"]
    ensures forall i :: 0 <= i < |r| ==> r[i].value == [clientId, clientSecret, refreshToken, "refresh_token"][i]
  {
    [Param("client_id", clientId), Param("client_secret", clientSecret), Param("refresh_token", refreshToken),
     Param("grant_type", "refresh_token")]
  }

  /** The upstream request built from a complete body. */
  function Refresh(body: JsValue): Request {
    TwitchOAuth.TokenPost(RefreshForm(
      FormValue(Member(body, "clientId")), FormValue(Member(body, "clientSecret")), FormValue(Member(body, "refreshToken"))))
  }

  /** The route handler; a throw anywhere in the `try` block becomes the 500 response. */
  function Post(incoming: Incoming, upstream: Upstream): (h: Handled)
    ensures h.forwarded.Some? <==> incoming.Parsed? && Destructurable(incoming.json) && Complete(incoming.json)
    ensures h.forwarded.Some? ==> h.forwarded.value == Refresh(incoming.json)
    ensures incoming.Parsed? && Destructurable(incoming.json) && !Complete(incoming.json) ==>
              h.response == Response(400, MessageBody(MissingMessage))
    ensures h.forwarded.Some? ==> h.response == PassThrough(upstream, ServerErrorMessage)
    ensures incoming.Unreadable? || (incoming.Parsed? && !Destructurable(incoming.json)) ==>
              h.response == Response(500, MessageBody(ServerErrorMessage))
  {
    if incoming.Unreadable? || !Destructurable(incoming.json) then
      Handled(Response(500, MessageBody(ServerErrorMessage)), None)
    else
      var body := incoming.json;
      if !Truthy(Member(body, "clientId")) || !Truthy(Member(body, "clientSecret")) || !Truthy(Member(body, "refreshToken")) then
        Handled(Response(400, MessageBody(MissingMessage)), None)
      else
        Handled(PassThrough(upstream, ServerErrorMessage), Some(Refresh(body)))
  }

  /** The refresh form reads back the caller's strings under their keys, and the grant type is
      fixed. */
  lemma {:induction false} RefreshFormReadsBack(clientId: string, clientSecret: string, refreshToken: string)
    ensures var form := RefreshForm(clientId, clientSecret, refreshToken);
      && Lookup(form, "client_id") == Some(clientId)
      && Lookup(form, "client_secret") == Some(clientSecret)
      && Lookup(form, "refresh_token") == Some(refreshToken)
      && Lookup(form, "grant_type") == Some("refresh_token")
  {
    var form := RefreshForm(clientId, clientSecret, refreshToken);
    assert Distinct(Keys(form));
    LookupDistinct(form, 0);
    LookupDistinct(form, 1);
    LookupDistinct(form, 2);
    LookupDistinct(form, 3);
  }

  /** A body holding the three fields as non-empty strings is forwarded as a form-encoded POST
      to the token endpoint whose form carries exactly those strings. */
  lemma StringFieldsForwarded(clientId: string, clientSecret: string, refreshToken: string, upstream: Upstream)
    requires clientId != "" && clientSecret != "" && refreshToken != ""
    ensures var body := JsObject(map["clientId" := JsString(clientId), "clientSecret" := JsString(clientSecret),
                                     "refreshToken" := JsString(refreshToken)]);
      var h := Post(Parsed(body), upstream);
      && h.forwarded.Some?
      && h.forwarded.value.verb == "POST" && h.forwarded.value.url == TwitchOAuth.TokenEndpoint
      && h.forwarded.value.body == Form(RefreshForm(clientId, clientSecret, refreshToken))
  {
    var body := JsObject(map["clientId" := JsString(clientId), "clientSecret" := JsString(clientSecret),
                             "refreshToken" := JsString(refreshToken)]);
    assert Member(body, "clientId") == JsString(clientId);
    assert Member(body, "clientSecret") == JsString(clientSecret);
    assert Member(body, "refreshToken") == JsString(refreshToken);
  }

  /** Every value of a forwarded form is non-empty, whatever JSON types the caller used. */
  lemma ForwardedNeverBlank(body: JsValue)
    requires Complete(body)
    ensures var form := Refresh(body).body.params;
      forall i :: 0 <= i < |form| ==> form[i].value != ""
  {
    TruthyFormValue(Member(body, "clientId"));
    TruthyFormValue(Member(body, "clientSecret"));
    TruthyFormValue(Member(body, "refreshToken"));
  }

  /** Whatever the provider answers is returned unchanged, its status included. */
  lemma StatusPassesThrough(body: JsValue, status: int, payload: JsValue)
    requires Destructurable(body) && Complete(body)
    ensures Post(Parsed(body), Answered(status, payload)) == Handled(Response(status, payload), Some(Refresh(body)))
  {
  }
}
