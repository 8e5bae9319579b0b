/** The Twitch social-login page: it sends the browser to the consent screen with every scope
    and a fresh anti-forgery `state` (section 10.12 of RFC 6749), exchanges the code the
    provider redirects back with, and forwards the tokens to a configurable backend. */
module TwitchLogin {
  import opened Web
  import opened TwitchOAuth

  /** Every scope the page requests. */
  const AllScopes: seq<string> := [
    "analytics:read:extensions",
    "analytics:read:games",
    "bits:read",
    "channel:bot",
    "channel:manage:ads",
    "channel:read:ads",
    "channel:manage:broadcast",
    "channel:read:charity",
    "channel:manage:clips",
    "channel:edit:commercial",
    "channel:read:editors",
    "channel:manage:extensions",
    "channel:read:goals",
    "channel:read:guest_star",
    "channel:manage:guest_star",
    "channel:read:hype_train",
    "channel:manage:moderators",
    "channel:read:polls",
    "channel:manage:polls",
    "channel:read:predictions",
    "channel:manage:predictions",
    "channel:manage:raids",
    "channel:read:redemptions",
    "channel:manage:redemptions",
    "channel:manage:schedule",
    "channel:read:stream_key",
    "channel:read:subscriptions",
    "channel:manage:videos",
    "channel:read:vips",
    "channel:manage:vips",
    "channel:moderate",
    "clips:edit",
    "editor:manage:clips",
    "moderation:read",
    "moderator:manage:announcements",
    "moderator:manage:automod",
    "moderator:read:automod_settings",
    "moderator:manage:automod_settings",
    "moderator:read:banned_users",
    "moderator:manage:banned_users",
    "moderator:read:blocked_terms",
    "moderator:read:chat_messages",
    "moderator:manage:blocked_terms",
    "moderator:manage:chat_messages",
    "moderator:read:chat_settings",
    "moderator:manage:chat_settings",
    "moderator:read:chatters",
    "moderator:read:followers",
    "moderator:read:guest_star",
    "moderator:manage:guest_star",
    "moderator:read:moderators",
    "moderator:read:shield_mode",
    "moderator:manage:shield_mode",
    "moderator:read:shoutouts",
    "moderator:manage:shoutouts",
    "moderator:read:suspicious_users",
    "moderator:manage:suspicious_users",
    "moderator:read:unban_requests",
    "moderator:manage:unban_requests",
    "moderator:read:vips",
    "moderator:read:warnings",
    "moderator:manage:warnings",
    "user:bot",
    "user:edit",
    "user:edit:broadcast",
    "user:read:blocked_users",
    "user:manage:blocked_users",
    "user:read:broadcast",
    "user:read:chat",
    "user:manage:chat_color",
    "user:read:email",
    "user:read:emotes",
    "user:read:follows",
    "user:read:moderated_channels",
    "user:read:subscriptions",
    "user:read:whispers",
    "user:manage:whispers",
    "user:write:chat",
    "chat:edit",
    "chat:read",
    "whispers:read"
  ]


  const StateKey := "twitch-oauth-state"

  const ConfigMessage := "환경 변수에서 Twitch 설정을 읽지 못했습니다."
  const StateMismatchMessage := "OAuth state 값이 일치하지 않습니다."
  const ExchangeFailurePrefix := "토큰 발급 실패"
  const ExchangeUnknownMessage := "토큰 발급 중 알 수 없는 오류"
  const BackendUrlMissingMessage := "백엔드 URL이 비어 있어 토큰을 전송하지 못했습니다."
  const BackendUnknownMessage := "토큰 전송 중 알 수 없는 오류"

  /** The query keys the provider's redirect carries and the page removes afterwards. */
  const RedirectKeys := {"code", "scope", "state", "error", "error_description"}

  // ---------------------------------------------------------------------------
  // Anti-forgery state: 16 random bytes in lowercase hexadecimal

  type Byte = x: int | 0 <= x < 256

  /** The lowercase alphabet of section 8 of RFC 4648. */
  const HexAlphabet := "0123456789abcdef"

  /** `byte.toString(16)`: one digit below 16, two digits otherwise. */
  function ToHex(b: Byte): string {
    if b < 16 then [HexAlphabet[b]] else [HexAlphabet[b / 16], HexAlphabet[b % 16]]
  }

  /** `s.padStart(n, c)`. */
  function PadStart(s: string, n: nat, c: char): string {
    if |s| >= n then s else seq(n - |s|, _ => c) + s
  }

  /** `byte.toString(16).padStart(2, "0")` is always two digits, high nibble first. */
  lemma HexBytePair(b: Byte)
    ensures PadStart(ToHex(b), 2, '0') == [HexAlphabet[b / 16], HexAlphabet[b % 16]]
  {
  }

  /** The state value: the bytes in order, two lowercase hex digits each. */
  function HexState(bytes: seq<Byte>): (r: string)
    ensures |r| == 2 * |bytes|
    ensures forall i :: 0 <= i < |bytes| ==>
              r[2 * i] == HexAlphabet[bytes[i] / 16] && r[2 * i + 1] == HexAlphabet[bytes[i] % 16]
  {
    if bytes == [] then ""
    else
      HexBytePair(bytes[0]);
      PadStart(ToHex(bytes[0]), 2, '0') + HexState(bytes[1..])
  }

  /** The value of a lowercase hex digit. */
  function HexValue(c: char): Option<int> {
    if '0' <= c <= '9' then Some(c as int - '0' as int)
    else if 'a' <= c <= 'f' then Some(c as int - 'a' as int + 10)
    else None
  }

  /** Decoding lowercase hex: the inverse of `HexState`. */
  function DecodeHex(s: string): Option<seq<Byte>>
    decreases |s|
  {
    if s == [] then Some([])
    else if |s| == 1 then None
    else
      match (HexValue(s[0]), HexValue(s[1]), DecodeHex(s[2..]))
      case (Some(hi), Some(lo), Some(rest)) => Some([(hi * 16 + lo) as Byte] + rest)
      case _ => None
  }

  lemma HexValueOfDigit(d: int)
    requires 0 <= d < 16
    ensures HexValue(HexAlphabet[d]) == Some(d)
  {
  }

  /** Decoding one leading pair of hex digits. */
  lemma DecodePair(hi: int, lo: int, rest: string, tail: seq<Byte>)
    requires 0 <= hi < 16 && 0 <= lo < 16
    requires DecodeHex(rest) == Some(tail)
    ensures DecodeHex([HexAlphabet[hi], HexAlphabet[lo]] + rest) == Some([(hi * 16 + lo) as Byte] + tail)
  {
    var s := [HexAlphabet[hi], HexAlphabet[lo]] + rest;
    HexValueOfDigit(hi);
    HexValueOfDigit(lo);
    assert s[2..] == rest;
  }

  /** Decoding a state value gives back the bytes it was made from. */
  lemma {:induction false} HexStateRoundTrip(bytes: seq<Byte>)
    ensures DecodeHex(HexState(bytes)) == Some(bytes)
  {
    if bytes != [] {
      var b := bytes[0];
      HexBytePair(b);
      assert HexState(bytes) == [HexAlphabet[b / 16], HexAlphabet[b % 16]] + HexState(bytes[1..]);
      HexStateRoundTrip(bytes[1..]);
      DecodePair(b / 16, b % 16, HexState(bytes[1..]), bytes[1..]);
      assert (b / 16) * 16 + b % 16 == b;
      assert [b] + bytes[1..] == bytes;
    }
  }

  /** The CSRF check of the exchange: refuse only when a stored state and a returned state both
      exist (non-empty) and differ. */
  predicate StateMismatch(expected: Option<string>, returned: Option<string>) {
    Present(expected) && Present(returned) && expected.value != returned.value
  }

  /** With 16 bytes stored by `handleLogin`, a returned state is refused exactly when it is
      non-empty and not the stored one; the provider echoing the state back always passes. */
  lemma StoredStateCheck(bytes: seq<Byte>, returned: Option<string>)
    requires |bytes| == 16
    ensures StateMismatch(Some(HexState(bytes)), returned) <==> Present(returned) && returned.value != HexState(bytes)
    ensures !StateMismatch(Some(HexState(bytes)), Some(HexState(bytes)))
  {
    var h := HexState(bytes);
    assert |h| == 32;
    assert h != "";
  }

  /** The consent-screen URL `handleLogin` navigates to; `scope` is the requested scopes
      joined by single spaces. */
  function AuthorizeUrl(clientId: string, redirectUri: string, scope: string, state: string): (u: Url)
    ensures u.base == AuthorizeEndpoint
    ensures Keys(u.query) == ["client_id", "redirect_uri", "response_type", "scope", "state"]
    ensures forall i :: 0 <= i < |u.query| ==>
              u.query[i].value == [clientId, redirectUri, "code", scope, state][i]
  {
    Url(AuthorizeEndpoint, [
      Param("client_id", clientId),
      Param("redirect_uri", redirectUri),
      Param("response_type", "code"),
      Param("scope", scope),
      Param("state", state)])
  }

  /** The five `url.searchParams.delete` calls of the redirect effect. */
  function StripRedirectParams(q: seq<Param>): seq<Param> {
    Delete(Delete(Delete(Delete(Delete(q, "code"), "scope"), "state"), "error"), "error_description")
  }

  /** Stripping removes exactly the five redirect keys and keeps every other parameter, in
      order. */
  lemma StripRedirectParamsSpec(q: seq<Param>)
    ensures StripRedirectParams(q) == Without(q, RedirectKeys)
    ensures forall p :: p in StripRedirectParams(q) <==> p in q && p.key !in RedirectKeys
  {
    DeleteIsWithout(q, "code");
    var q1 := Without(q, {"code"});
    DeleteIsWithout(q1, "scope");
    WithoutTwice(q, {"code"}, {"scope"});
    var q2 := Without(q, {"code", "scope"});
    assert {"code"} + {"scope"} == {"code", "scope"};
    DeleteIsWithout(q2, "state");
    WithoutTwice(q, {"code", "scope"}, {"state"});
    var q3 := Without(q, {"code", "scope", "state"});
    assert {"code", "scope"} + {"state"} == {"code", "scope", "state"};
    DeleteIsWithout(q3, "error");
    WithoutTwice(q, {"code", "scope", "state"}, {"error"});
    var q4 := Without(q, {"code", "scope", "state", "error"});
    assert {"code", "scope", "state"} + {"error"} == {"code", "scope", "state", "error"};
    DeleteIsWithout(q4, "error_description");
    WithoutTwice(q, {"code", "scope", "state", "error"}, {"error_description"});
    assert {"code", "scope", "state", "error"} + {"error_description"} == RedirectKeys;
    WithoutMembers(q, RedirectKeys);
  }

  // ---------------------------------------------------------------------------
  // Exchange and forwarding, as functions of the page's session

  datatype AuthStatus = Idle | Loading | Success | Error(message: string)

  datatype BackendStatus = BackendIdle | BackendLoading | BackendSuccess(message: string) | BackendError(message: string)

  /** What the backend call produced: a response (its text, "" when reading it failed), or a
      rejection carrying the message when an `Error` was thrown. */
  datatype BackendReply =
    | Answered(ok: bool, status: int, text: string)
    | Rejected(error: Option<string>)

  /** The mutable part of the page that the handlers write, with the log of sent requests. */
  datatype Session = Session(
    authStatus: AuthStatus,
    backendStatus: BackendStatus,
    accessToken: string,
    refreshToken: string,
    tokenExpiresAt: Option<int>,
    authorizedScopes: seq<string>,
    requests: seq<Request>)

  /** The page's props and backend inputs, which the handlers only read. */
  datatype Settings = Settings(
    clientId: Option<string>,
    clientSecret: Option<string>,
    redirectUri: Option<string>,
    backendUrl: string,
    backendAuthToken: string)

  /** The POST to the backend. */
  function BackendRequest(url: string, authToken: string, accessToken: string, refreshToken: string): Request {
    Request("POST", url, [],
      [Param("Content-Type", "application/json")]
      + (if authToken != "" then [Param("Authorization", "Bearer " + authToken)] else []),
      JsonFields([Param("provider", "TWITCH"), Param("accessToken", accessToken), Param("refreshToken", refreshToken)]))
  }

  /** The backend POST has a JSON content type, carries the bearer header exactly when the
      backend token is non-empty, and names the provider next to both tokens. */
  lemma BackendRequestShape(url: string, authToken: string, accessToken: string, refreshToken: string)
    ensures var r := BackendRequest(url, authToken, accessToken, refreshToken);
      && r.verb == "POST" && r.url == url
      && Lookup(r.headers, "Content-Type") == Some("application/json")
      && (Lookup(r.headers, "Authorization").Some? <==> authToken != "")
      && (authToken != "" ==> Lookup(r.headers, "Authorization") == Some("Bearer " + authToken))
      && r.body == JsonFields([Param("provider", "TWITCH"), Param("accessToken", accessToken), Param("refreshToken", refreshToken)])
  {
    var h := BackendRequest(url, authToken, accessToken, refreshToken).headers;
    if authToken != "" {
      assert h[1..] == [Param("Authorization", "Bearer " + authToken)];
    } else {
      assert h == [Param("Content-Type", "application/json")];
    }
  }

  /** `sendTokensToBackend`. */
  function SendTokens(s: Session, cfg: Settings, accessToken: string, refreshToken: string, reply: BackendReply): Session {
    if cfg.backendUrl == "" then s.(backendStatus := BackendError(BackendUrlMissingMessage))
    else
      s.(requests := s.requests + [BackendRequest(cfg.backendUrl, cfg.backendAuthToken, accessToken, refreshToken)],
         backendStatus := BackendOutcome(reply))
  }

  /** The backend status a reply leads to: the response text, or "HTTP <status>" when it is
      empty, as success or error by the response's `ok`; the thrown message on a rejection. */
  function BackendOutcome(reply: BackendReply): BackendStatus {
    match reply
    case Answered(ok, status, text) =>
      var message := if text != "" then text else "HTTP " + Decimal(status);
      if ok then BackendSuccess(message) else BackendError(message)
    case Rejected(error) => BackendError(error.GetOr(BackendUnknownMessage))
  }

  /** Forwarding: with no backend URL it fails without a request; otherwise it sends exactly
      one request and reports the response text, or "HTTP <status>" when the text is empty. */
  lemma SendTokensSpec(s: Session, cfg: Settings, accessToken: string, refreshToken: string, reply: BackendReply)
    ensures var s' := SendTokens(s, cfg, accessToken, refreshToken, reply);
      && s'.(backendStatus := s.backendStatus, requests := s.requests) == s
      && (cfg.backendUrl == "" ==> s' == s.(backendStatus := BackendError(BackendUrlMissingMessage)))
      && (cfg.backendUrl != "" ==>
            && s'.requests == s.requests + [BackendRequest(cfg.backendUrl, cfg.backendAuthToken, accessToken, refreshToken)]
            && (reply.Answered? && !reply.ok ==>
                  s'.backendStatus == BackendError(if reply.text != "" then reply.text else "HTTP " + Decimal(reply.status)))
            && (reply.Answered? && reply.ok ==>
                  s'.backendStatus == BackendSuccess(if reply.text != "" then reply.text else "HTTP " + Decimal(reply.status)))
            && (reply.Rejected? ==> s'.backendStatus == BackendError(reply.error.GetOr(BackendUnknownMessage))))
  {
  }

  /** The configuration check: client id, secret and redirect URI all present. */
  predicate Configured(cfg: Settings) {
    Present(cfg.clientId) && Present(cfg.clientSecret) && Present(cfg.redirectUri)
  }

  /** `exchangeCodeForToken`: the state check, then the configuration check, then the
      authorization_code request, then on success the tokens are stored and forwarded. */
  function ExchangeCode(s: Session, cfg: Settings, expectedState: Option<string>, code: string,
                        returnedState: Option<string>, reply: TokenReply, backendReply: BackendReply, now: int): Session
  {
    if StateMismatch(expectedState, returnedState) then s.(authStatus := Error(StateMismatchMessage))
    else if !Configured(cfg) then s.(authStatus := Error(ConfigMessage))
    else
      Answer(s.(requests := s.requests + [TokenPost(AuthorizationCodeForm(cfg.clientId.value, cfg.clientSecret.value, code, cfg.redirectUri.value))]),
             cfg, reply, backendReply, now)
  }

  /** The exchange once the token request `sent` is on the log: a refusal reports its message;
      a grant is stored and forwarded. */
  function Answer(sent: Session, cfg: Settings, reply: TokenReply, backendReply: BackendReply, now: int): Session {
    match Interpret(reply, ExchangeFailurePrefix, ExchangeUnknownMessage)
    case Refused(m) => sent.(authStatus := Error(m))
    case Granted(p) => SendTokens(StoreGrant(sent, p, now), cfg, p.accessToken, p.refreshToken.GetOr(""), backendReply)
  }

  /** The state updates of a successful exchange: both tokens (the refresh token or ""), the
      absolute expiry, the granted scopes (or none), and the success status. */
  function StoreGrant(s: Session, p: TokenPayload, now: int): Session {
    s.(accessToken := p.accessToken, refreshToken := p.refreshToken.GetOr(""),
       tokenExpiresAt := Some(ExpiresAt(now, p.expiresIn)),
       authorizedScopes := p.scope.GetOr([]), authStatus := Success)
  }

  /** A returned state that differs from the stored one is refused before anything else,
      configuration included, and nothing is requested. */
  lemma ExchangeRefusesForgedState(s: Session, cfg: Settings, expectedState: Option<string>, code: string,
                                   returnedState: Option<string>, reply: TokenReply, backendReply: BackendReply, now: int)
    requires StateMismatch(expectedState, returnedState)
    ensures ExchangeCode(s, cfg, expectedState, code, returnedState, reply, backendReply, now)
            == s.(authStatus := Error(StateMismatchMessage))
  {
  }

  /** Missing configuration fails before any request; an absent stored or returned state
      skips the state check. */
  lemma ExchangeNeedsConfiguration(s: Session, cfg: Settings, expectedState: Option<string>, code: string,
                                   returnedState: Option<string>, reply: TokenReply, backendReply: BackendReply, now: int)
    requires !Present(expectedState) || !Present(returnedState)
    ensures !Configured(cfg) ==>
              ExchangeCode(s, cfg, expectedState, code, returnedState, reply, backendReply, now) == s.(authStatus := Error(ConfigMessage))
    ensures Configured(cfg) ==>
              |ExchangeCode(s, cfg, expectedState, code, returnedState, reply, backendReply, now).requests| > |s.requests|
  {
  }

  /** The exchange once the checks pass: a refused reply reports its message and keeps the
      tokens; a granted one stores access token, refresh token (or ""), the absolute expiry and
      the granted scopes (or none), reports success, and forwards the same two tokens. */
  lemma ExchangeOutcomeSpec(s: Session, cfg: Settings, expectedState: Option<string>, code: string,
                            returnedState: Option<string>, reply: TokenReply, backendReply: BackendReply, now: int)
    requires !StateMismatch(expectedState, returnedState) && Configured(cfg)
    ensures var s' := ExchangeCode(s, cfg, expectedState, code, returnedState, reply, backendReply, now);
      var post := TokenPost(AuthorizationCodeForm(cfg.clientId.value, cfg.clientSecret.value, code, cfg.redirectUri.value));
      && |s'.requests| > |s.requests| && s'.requests[..|s.requests| + 1] == s.requests + [post]
      && (!(reply.Replied? && reply.ok) ==>
            && s' == s.(authStatus := s'.authStatus, requests := s.requests + [post])
            && (reply.Replied? ==>
                  s'.authStatus == Error(reply.payload.message.GetOr(
                                     StatusMessage(ExchangeFailurePrefix, reply.payload.status.GetOr(reply.httpStatus)))))
            && (reply.Threw? ==> s'.authStatus == Error(reply.error.GetOr(ExchangeUnknownMessage))))
      && (reply.Replied? && reply.ok ==>
            && s'.authStatus == Success
            && s'.accessToken == reply.payload.accessToken
            && s'.refreshToken == reply.payload.refreshToken.GetOr("")
            && s'.tokenExpiresAt == Some(now + reply.payload.expiresIn * 1000)
            && s'.authorizedScopes == reply.payload.scope.GetOr([])
            && (cfg.backendUrl != "" ==>
                  s'.requests == s.requests + [post, BackendRequest(cfg.backendUrl, cfg.backendAuthToken, s'.accessToken, s'.refreshToken)]))
  {
    var post := TokenPost(AuthorizationCodeForm(cfg.clientId.value, cfg.clientSecret.value, code, cfg.redirectUri.value));
    var sent := s.(requests := s.requests + [post]);
    assert ExchangeCode(s, cfg, expectedState, code, returnedState, reply, backendReply, now) == Answer(sent, cfg, reply, backendReply, now);
    if reply.Replied? && reply.ok {
      AnswerGranted(s, post, cfg, reply, backendReply, now);
    } else {
      assert Answer(sent, cfg, reply, backendReply, now).requests == s.requests + [post];
    }
  }

  /** The granted half of `ExchangeOutcomeSpec`, stated on `Answer`. */
  lemma AnswerGranted(s: Session, post: Request, cfg: Settings, reply: TokenReply, backendReply: BackendReply, now: int)
    requires reply.Replied? && reply.ok
    ensures var s' := Answer(s.(requests := s.requests + [post]), cfg, reply, backendReply, now);
      && s'.authStatus == Success
      && s'.accessToken == reply.payload.accessToken
      && s'.refreshToken == reply.payload.refreshToken.GetOr("")
      && s'.tokenExpiresAt == Some(now + reply.payload.expiresIn * 1000)
      && s'.authorizedScopes == reply.payload.scope.GetOr([])
      && |s'.requests| > |s.requests| && s'.requests[..|s.requests| + 1] == s.requests + [post]
      && (cfg.backendUrl != "" ==>
            s'.requests == s.requests + [post, BackendRequest(cfg.backendUrl, cfg.backendAuthToken, s'.accessToken, s'.refreshToken)])
  {
    var p := reply.payload;
    var stored := StoreGrant(s.(requests := s.requests + [post]), p, now);
    var s' := Answer(s.(requests := s.requests + [post]), cfg, reply, backendReply, now);
    assert s' == SendTokens(stored, cfg, p.accessToken, p.refreshToken.GetOr(""), backendReply);
    SendTokensSpec(stored, cfg, p.accessToken, p.refreshToken.GetOr(""), backendReply);
    if cfg.backendUrl != "" {
      assert s'.requests == s.requests + [post] + [BackendRequest(cfg.backendUrl, cfg.backendAuthToken, p.accessToken, p.refreshToken.GetOr(""))];
      assert s'.requests[..|s.requests| + 1] == s.requests + [post];
    } else {
      assert s'.requests == s.requests + [post];
    }
  }

  /** The mount effect on the current URL's query: an `error` sets the error status with the
      description (or the error), a `code` starts an exchange with the returned state, and
      when either is present the redirect keys are stripped from the address. */
  function RedirectEffect(s: Session, cfg: Settings, expectedState: Option<string>, query: seq<Param>,
                          reply: TokenReply, backendReply: BackendReply, now: int): (Session, seq<Param>)
  {
    var code := Lookup(query, "code");
    var error := Lookup(query, "error");
    var afterError := if Present(error) then s.(authStatus := Error(Lookup(query, "error_description").GetOr(error.value))) else s;
    var afterCode := if Present(code) then ExchangeCode(afterError, cfg, expectedState, code.value, Lookup(query, "state"), reply, backendReply, now) else afterError;
    (afterCode, if Present(code) || Present(error) then StripRedirectParams(query) else query)
  }

  /** A redirect carrying neither a code nor an error changes nothing; one carrying either
      loses exactly the redirect keys; an error alone reports its description and sends
      nothing; a code starts the exchange with the returned state, after the error (if any)
      has been reported. */
  lemma RedirectEffectSpec(s: Session, cfg: Settings, expectedState: Option<string>, query: seq<Param>,
                           reply: TokenReply, backendReply: BackendReply, now: int)
    ensures var (s', q') := RedirectEffect(s, cfg, expectedState, query, reply, backendReply, now);
      && (!Present(Lookup(query, "code")) && !Present(Lookup(query, "error")) ==> s' == s && q' == query)
      && (Present(Lookup(query, "code")) || Present(Lookup(query, "error")) ==>
            forall p :: p in q' <==> p in query && p.key !in RedirectKeys)
      && (!Present(Lookup(query, "code")) && Present(Lookup(query, "error")) ==>
            && s'.requests == s.requests
            && s'.authStatus == Error(Lookup(query, "error_description").GetOr(Lookup(query, "error").value)))
      && (Present(Lookup(query, "code")) && !Present(Lookup(query, "error")) ==>
            s' == ExchangeCode(s, cfg, expectedState, Lookup(query, "code").value, Lookup(query, "state"), reply, backendReply, now))
      && (Present(Lookup(query, "code")) && Present(Lookup(query, "error")) ==>
            s' == ExchangeCode(s.(authStatus := Error(Lookup(query, "error_description").GetOr(Lookup(query, "error").value))),
                               cfg, expectedState, Lookup(query, "code").value, Lookup(query, "state"), reply, backendReply, now))
  {
    StripRedirectParamsSpec(query);
  }

  /** The exchange overwrites the auth status on every path, so a redirect that carries both a
      code and an error ends as if only the code had come back: the error is never the
      final status. */
  lemma ExchangeOverridesStatus(s: Session, prior: AuthStatus, cfg: Settings, expectedState: Option<string>, code: string,
                                returnedState: Option<string>, reply: TokenReply, backendReply: BackendReply, now: int)
    ensures ExchangeCode(s.(authStatus := prior), cfg, expectedState, code, returnedState, reply, backendReply, now)
            == ExchangeCode(s, cfg, expectedState, code, returnedState, reply, backendReply, now)
  {
  }

  /** The login page: props, backend inputs, the status and token fields, session storage,
      the address's query, and the log of sent requests. */
  class LoginClient {
    /** The requested scopes, `AllScopes`; kept as a field so that proofs about one login do
        not unfold the whole catalogue. */
    const scopes: seq<string>
    const clientId: Option<string>
    const clientSecret: Option<string>
    const redirectUri: Option<string>
    var backendUrl: string
    var backendAuthToken: string
    var authStatus: AuthStatus
    var backendStatus: BackendStatus
    var accessToken: string
    var refreshToken: string
    var tokenExpiresAt: Option<int>
    var authorizedScopes: seq<string>
    var sessionStorage: map<string, string>
    var query: seq<Param>
    var requests: seq<Request>

    constructor (clientId: Option<string>, clientSecret: Option<string>, redirectUri: Option<string>,
                 sessionStorage: map<string, string>, query: seq<Param>)
      ensures this.clientId == clientId && this.clientSecret == clientSecret && this.redirectUri == redirectUri
      ensures scopes == AllScopes
      ensures this.sessionStorage == sessionStorage && this.query == query
      ensures backendUrl == "" && backendAuthToken == ""
      ensures Current() == Session(Idle, BackendIdle, "", "", None, [], [])
    {
      scopes := AllScopes;
      this.clientId := clientId;
      this.clientSecret := clientSecret;
      this.redirectUri := redirectUri;
      this.sessionStorage := sessionStorage;
      this.query := query;
      backendUrl := "";
      backendAuthToken := "";
      authStatus := Idle;
      backendStatus := BackendIdle;
      accessToken := "";
      refreshToken := "";
      tokenExpiresAt := None;
      authorizedScopes := [];
      requests := [];
    }

    function Current(): Session
      reads this
    {
      Session(authStatus, backendStatus, accessToken, refreshToken, tokenExpiresAt, authorizedScopes, requests)
    }

    function Config(): Settings
      reads this
    {
      Settings(clientId, clientSecret, redirectUri, backendUrl, backendAuthToken)
    }

    /** The stored anti-forgery state. */
    function ExpectedState(): Option<string>
      reads this
    {
      if StateKey in sessionStorage then Some(sessionStorage[StateKey]) else None
    }

    /** `sendTokensToBackend`. */
    method SendTokensToBackend(access: string, refresh: string, reply: BackendReply)
      modifies this`backendStatus, this`requests
      ensures Current() == SendTokens(old(Current()), Config(), access, refresh, reply)
    {
      if backendUrl == "" {
        backendStatus := BackendError(BackendUrlMissingMessage);
        return;
      }
      ghost var sent := Current().(requests := requests + [BackendRequest(backendUrl, backendAuthToken, access, refresh)]);
      backendStatus := BackendLoading;
      requests := requests + [BackendRequest(backendUrl, backendAuthToken, access, refresh)];
      match reply {
        case Answered(ok, status, text) =>
          var message := if text != "" then text else "HTTP " + Decimal(status);
          if !ok {
            backendStatus := BackendError(message);
          } else {
            backendStatus := BackendSuccess(message);
          }
        case Rejected(error) =>
          backendStatus := BackendError(error.GetOr(BackendUnknownMessage));
      }
      assert Current() == sent.(backendStatus := BackendOutcome(reply));
    }

    /** `exchangeCodeForToken`. */
    method ExchangeCodeForToken(code: string, returnedState: Option<string>, reply: TokenReply,
                                backendReply: BackendReply, now: int)
      modifies this`authStatus, this`accessToken, this`refreshToken, this`tokenExpiresAt, this`authorizedScopes
      modifies this`backendStatus, this`requests
      ensures Current() == ExchangeCode(old(Current()), Config(), ExpectedState(), code, returnedState, reply, backendReply, now)
    {
      var expectedState := ExpectedState();
      if StateMismatch(expectedState, returnedState) {
        authStatus := Error(StateMismatchMessage);
        return;
      }
      if !Present(clientId) || !Present(clientSecret) || !Present(redirectUri) {
        authStatus := Error(ConfigMessage);
        return;
      }
      RequestToken(code, reply, backendReply, now);
    }

    /** The part of `exchangeCodeForToken` after both checks pass: the token request, then
        storing and forwarding a granted token or reporting the refusal. */
    method RequestToken(code: string, reply: TokenReply, backendReply: BackendReply, now: int)
      requires Configured(Config())
      modifies this`authStatus, this`accessToken, this`refreshToken, this`tokenExpiresAt, this`authorizedScopes
      modifies this`backendStatus, this`requests
      ensures Current() == Answer(old(Current()).(requests := old(requests) + [TokenPost(AuthorizationCodeForm(clientId.value, clientSecret.value, code, redirectUri.value))]),
                                  Config(), reply, backendReply, now)
    {
      ghost var sent := Current().(requests := requests + [TokenPost(AuthorizationCodeForm(clientId.value, clientSecret.value, code, redirectUri.value))]);
      authStatus := Loading;
      requests := requests + [TokenPost(AuthorizationCodeForm(clientId.value, clientSecret.value, code, redirectUri.value))];
      match Interpret(reply, ExchangeFailurePrefix, ExchangeUnknownMessage) {
        case Refused(m) =>
          authStatus := Error(m);
          assert Current() == sent.(authStatus := Error(m));
        case Granted(p) =>
          accessToken := p.accessToken;
          refreshToken := p.refreshToken.GetOr("");
          tokenExpiresAt := Some(ExpiresAt(now, p.expiresIn));
          authorizedScopes := p.scope.GetOr([]);
          authStatus := Success;
          assert Current() == StoreGrant(sent, p, now);
          SendTokensToBackend(p.accessToken, p.refreshToken.GetOr(""), backendReply);
      }
    }

    /** `handleLogin`: without client id or redirect URI it reports the error and stores
        nothing; otherwise it stores the hex state and returns the consent URL carrying it. */
    method HandleLogin(bytes: seq<Byte>) returns (target: Option<Url>)
      requires |bytes| == 16
      modifies this
      ensures !Present(clientId) || !Present(redirectUri) ==>
                && target.None? && authStatus == Error(ConfigMessage) && sessionStorage == old(sessionStorage)
      ensures Present(clientId) && Present(redirectUri) ==>
                && sessionStorage == old(sessionStorage)[StateKey := HexState(bytes)]
                && target == Some(AuthorizeUrl(clientId.value, redirectUri.value, Join(scopes, " "), HexState(bytes)))
                && authStatus == old(authStatus)
      ensures |HexState(bytes)| == 32 && DecodeHex(HexState(bytes)) == Some(bytes)
      ensures Current() == old(Current()).(authStatus := authStatus)
      ensures Config() == old(Config()) && query == old(query)
    {
      HexStateRoundTrip(bytes);
      if !Present(clientId) || !Present(redirectUri) {
        authStatus := Error(ConfigMessage);
        return None;
      }
      var stateValue := HexState(bytes);
      sessionStorage := sessionStorage[StateKey := stateValue];
      target := Some(AuthorizeUrl(clientId.value, redirectUri.value, Join(scopes, " "), stateValue));
    }

    /** The mount effect that reads the provider's redirect from the address. */
    method HandleRedirect(reply: TokenReply, backendReply: BackendReply, now: int)
      modifies this`authStatus, this`accessToken, this`refreshToken, this`tokenExpiresAt, this`authorizedScopes
      modifies this`backendStatus, this`requests, this`query
      ensures (Current(), query) == RedirectEffect(old(Current()), Config(), ExpectedState(), old(query), reply, backendReply, now)
    {
      var code := Lookup(query, "code");
      var error := Lookup(query, "error");
      var errorDescription := Lookup(query, "error_description");
      var returnedState := Lookup(query, "state");
      if Present(error) {
        authStatus := Error(errorDescription.GetOr(error.value));
      }
      if Present(code) {
        ExchangeCodeForToken(code.value, returnedState, reply, backendReply, now);
      }
      if Present(code) || Present(error) {
        query := StripRedirectParams(query);
      }
    }

    /** `expiresIn`, read at time `now`. */
    function ExpiresIn(now: int): (r: Option<int>)
      reads this
      ensures r.None? <==> tokenExpiresAt.None? || tokenExpiresAt.value == 0
      ensures r.Some? ==> r.value >= 0
    {
      SecondsUntilExpiry(tokenExpiresAt, now)
    }
  }
}
