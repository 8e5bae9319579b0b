/** The parts of the Twitch OAuth 2.0 authorization-code client that the tester page, the
    login page and the proxy routes share: the provider's endpoints, the form body of the
    authorization_code grant (section 4.1.3 of RFC 6749), how a token-endpoint reply becomes
    a token or an error message, and the expiry countdown. */
module TwitchOAuth {
  import opened Web

  const AuthorizeEndpoint := "https://id.twitch.tv/oauth2/authorize"
  const TokenEndpoint := "https://id.twitch.tv/oauth2/token"

  /** The token-request form of the authorization_code grant, in the order every caller builds it. */
  function AuthorizationCodeForm(clientId: string, clientSecret: string, code: string, redirectUri: string): (r: seq<Param>)
    ensures Keys(r) == ["client_id", "client_secret", "code", "grant_type", "redirect_uri"]
    ensures forall i :: 0 <= i < |r| ==> r[i].value == [clientId, clientSecret, code, "authorization_code", redirectUri][i]
  {
    [Param("client_id", clientId), Param("client_secret", clientSecret), Param("code", code),
     Param("grant_type", "authorization_code"), Param("redirect_uri", redirectUri)]
  }

  /** A form-encoded POST to the token endpoint. */
  function TokenPost(form: seq<Param>): Request {
    Request("POST", TokenEndpoint, [], [Param("Content-Type", "application/x-www-form-urlencoded")], Form(form))
  }

  /** The JSON body of a token-endpoint reply: the token fields on success, `message` and
      `status` on failure. Fields a reply omits are `None`. */
  datatype TokenPayload = TokenPayload(
    accessToken: string,
    refreshToken: Option<string>,
    expiresIn: int,
    scope: Option<seq<string>>,
    tokenType: string,
    message: Option<string>,
    status: Option<int>)

  /** What `fetch` followed by `response.json()` produced: a parsed reply, or a rejection
      (network failure, unparseable body), carrying the message when an `Error` was thrown. */
  datatype TokenReply =
    | Replied(ok: bool, httpStatus: int, payload: TokenPayload)
    | Threw(error: Option<string>)

  datatype Outcome = Granted(token: TokenPayload) | Refused(message: string)

  /** The failure message when the provider gives none: `<prefix> (status <n>)`, where n is the
      body's `status` if present and the HTTP status otherwise. */
  function StatusMessage(prefix: string, status: int): string {
    prefix + " (status " + Decimal(status) + ")"
  }

  /** How a handler reads a reply: a 2xx reply grants its payload; any other reply refuses with
      the provider's `message` or the status-coded fallback; a rejection refuses with the thrown
      error's message, or `unknown` when what was thrown was not an `Error`. */
  function Interpret(reply: TokenReply, prefix: string, unknown: string): (r: Outcome)
    ensures r.Granted? <==> reply.Replied? && reply.ok
    ensures r.Granted? ==> r.token == reply.payload
    ensures reply.Replied? && !reply.ok && reply.payload.message.Some? ==> r == Refused(reply.payload.message.value)
    ensures reply.Replied? && !reply.ok && reply.payload.message.None? ==>
              r == Refused(StatusMessage(prefix, reply.payload.status.GetOr(reply.httpStatus)))
    ensures reply.Threw? ==> r == Refused(reply.error.GetOr(unknown))
  {
    match reply
    case Replied(ok, httpStatus, payload) =>
      if ok then Granted(payload)
      else if payload.message.Some? then Refused(payload.message.value)
      else Refused(StatusMessage(prefix, payload.status.GetOr(httpStatus)))
    case Threw(error) => Refused(error.GetOr(unknown))
  }

  /** `Date.now() + expires_in * 1000`: the absolute expiry in epoch milliseconds. */
  function ExpiresAt(now: int, expiresIn: int): int {
    now + expiresIn * 1000
  }

  /** `tokenExpiresAt ? Math.max(0, Math.round((tokenExpiresAt - now) / 1000)) : null`.
      A zero expiry is falsy and yields null as an absent one does. `Math.round` rounds half
      up, so on whole milliseconds it is `(d + 500) div 1000` with floor division. The result
      is the nearest whole second, never negative. */
  function SecondsUntilExpiry(tokenExpiresAt: Option<int>, now: int): (r: Option<int>)
    ensures r.None? <==> tokenExpiresAt.None? || tokenExpiresAt.value == 0
    ensures r.Some? ==> r.value >= 0
    ensures r.Some? ==> (r.value == 0 <==> tokenExpiresAt.value - now < 500)
    ensures r.Some? && r.value > 0 ==>
              r.value * 1000 - 500 <= tokenExpiresAt.value - now < r.value * 1000 + 500
  {
    if tokenExpiresAt.None? || tokenExpiresAt.value == 0 then None
    else
      var rounded := (tokenExpiresAt.value - now + 500) / 1000;
      Some(if rounded < 0 then 0 else rounded)
  }

  /** Right after a grant at time `now`, the countdown shows exactly the granted lifetime. */
  lemma FreshTokenCountdown(now: int, expiresIn: int)
    requires expiresIn >= 0 && ExpiresAt(now, expiresIn) != 0
    ensures SecondsUntilExpiry(Some(ExpiresAt(now, expiresIn)), now) == Some(expiresIn)
  {
    assert ExpiresAt(now, expiresIn) - now + 500 == expiresIn * 1000 + 500;
  }

  /** The countdown never goes up as time passes. */
  lemma CountdownNonIncreasing(tokenExpiresAt: Option<int>, earlier: int, later: int)
    requires earlier <= later
    ensures SecondsUntilExpiry(tokenExpiresAt, later).Some? ==>
              SecondsUntilExpiry(tokenExpiresAt, later).value <= SecondsUntilExpiry(tokenExpiresAt, earlier).value
  {
    if tokenExpiresAt.Some? && tokenExpiresAt.value != 0 {
      var e := tokenExpiresAt.value;
      DivMonotone(e - later + 500, e - earlier + 500);
    }
  }

  lemma DivMonotone(a: int, b: int)
    requires a <= b
    ensures a / 1000 <= b / 1000
  {
  }

  /** The expiry line both pages render under a successful token: nothing without a countdown,
      the "expired" notice when the countdown is at or below 0, the seconds otherwise. */
  datatype ExpiryNotice = NoNotice | Expired | Remaining(seconds: int)

  function ExpiryNoticeFor(tokenExpiresAt: Option<int>, now: int): (r: ExpiryNotice)
    ensures r.NoNotice? <==> tokenExpiresAt.None? || tokenExpiresAt.value == 0
    ensures r.Expired? <==> tokenExpiresAt.Some? && tokenExpiresAt.value != 0 && tokenExpiresAt.value - now < 500
    ensures r.Remaining? ==> r.seconds > 0 && r.seconds * 1000 - 500 <= tokenExpiresAt.value - now
  {
    match SecondsUntilExpiry(tokenExpiresAt, now)
    case None => NoNotice
    case Some(s) => if s <= 0 then Expired else Remaining(s)
  }
}
