/** The Twitch API tester page: the persisted application state and its load/save, the
    authorization URL (without a `state` parameter), the merged scope list, and the token
    lifecycle (code exchange, refresh, logout) driven by a pasted code, a code left in
    session storage, or a code relayed by the callback window. */
module TwitchTester {
  import opened Web
  import opened TwitchOAuth

  /** The scope catalog the page offers as toggles. */
  const CatalogScopes: seq<string> := [
    "channel:manage:broadcast",
    "channel:manage:polls",
    "user:read:email",
    "user:read:follows",
    "user:read:subscriptions",
    "moderation:read",
    "chat:read",
    "chat:edit",
    "analytics:read:games",
    "analytics:read:extensions"
  ]

  const StorageKey := "twitch-api-tester-state"
  const AuthCodeKey := "twitch-auth-code"
  const AuthCodeMessageType := "twitch-auth-code"

  const ExchangeConfigMessage := "먼저 Client ID, Secret, Redirect URI를 모두 입력하세요."
  const ExchangeFailurePrefix := "토큰 발급 실패"
  const ExchangeUnknownMessage := "토큰 발급 중 알 수 없는 오류"
  const NoRefreshTokenMessage := "저장된 refresh_token 이 없습니다."
  const RefreshFailurePrefix := "토큰 갱신 실패"
  const RefreshUnknownMessage := "토큰 갱신 중 알 수 없는 오류"
  const RelayConfigMessage := "클라이언트 설정을 완료한 뒤 다시 시도하세요."
  const NoAccessTokenMessage := "액세스 토큰이 필요합니다. 먼저 인증을 완료하세요."
  const InvalidBodyMessage := "요청 본문이 올바른 JSON 형식이 아닙니다."

  // ---------------------------------------------------------------------------
  // Persisted state

  /** Everything the page keeps in local storage. */
  datatype PersistedState = PersistedState(
    clientId: string,
    clientSecret: string,
    redirectUri: string,
    scopes: seq<string>,
    customScopes: string,
    lastEndpoint: string,
    lastMethod: string,
    lastBody: string,
    accessToken: string,
    refreshToken: string,
    tokenExpiresAt: Option<int>)

  const DefaultState := PersistedState(
    "", "", "",
    [CatalogScopes[0], CatalogScopes[2], CatalogScopes[5]],
    "",
    "https://api.twitch.tv/helix/users",
    "GET",
    "",
    "", "", None)

  /** The fields of the persisted state, as `keyof PersistedState`. */
  datatype Field =
    | ClientId | ClientSecret | RedirectUri | Scopes | CustomScopes
    | LastEndpoint | LastMethod | LastBody | AccessToken | RefreshToken | TokenExpiresAt

  /** A value of some field. */
  datatype FieldValue = Text(text: string) | List(items: seq<string>) | Expiry(at: Option<int>)

  /** `PersistedState[K]`: which kind of value each field holds. */
  predicate Fits(k: Field, v: FieldValue) {
    match k
    case Scopes => v.List?
    case TokenExpiresAt => v.Expiry?
    case _ => v.Text?
  }

  /** `s[k]`. */
  function Get(s: PersistedState, k: Field): (v: FieldValue)
    ensures Fits(k, v)
  {
    match k
    case ClientId => Text(s.clientId)
    case ClientSecret => Text(s.clientSecret)
    case RedirectUri => Text(s.redirectUri)
    case Scopes => List(s.scopes)
    case CustomScopes => Text(s.customScopes)
    case LastEndpoint => Text(s.lastEndpoint)
    case LastMethod => Text(s.lastMethod)
    case LastBody => Text(s.lastBody)
    case AccessToken => Text(s.accessToken)
    case RefreshToken => Text(s.refreshToken)
    case TokenExpiresAt => Expiry(s.tokenExpiresAt)
  }

  /** `{ ...s, [k]: v }`. */
  function With(s: PersistedState, k: Field, v: FieldValue): PersistedState
    requires Fits(k, v)
  {
    match k
    case ClientId => s.(clientId := v.text)
    case ClientSecret => s.(clientSecret := v.text)
    case RedirectUri => s.(redirectUri := v.text)
    case Scopes => s.(scopes := v.items)
    case CustomScopes => s.(customScopes := v.text)
    case LastEndpoint => s.(lastEndpoint := v.text)
    case LastMethod => s.(lastMethod := v.text)
    case LastBody => s.(lastBody := v.text)
    case AccessToken => s.(accessToken := v.text)
    case RefreshToken => s.(refreshToken := v.text)
    case TokenExpiresAt => s.(tokenExpiresAt := v.at)
  }

  /** `updateState(k, v)` writes field k and no other. */
  lemma WithChangesOnlyField(s: PersistedState, k: Field, v: FieldValue)
    requires Fits(k, v)
    ensures Get(With(s, k, v), k) == v
    ensures forall other :: other != k ==> Get(With(s, k, v), other) == Get(s, other)
  {
  }

  /** A JSON object as `JSON.parse` returns it from storage: each member the stored text
      contains. A stored value that parses to something other than an object contributes no
      members when spread. */
  datatype StoredFields = StoredFields(
    clientId: Option<string>,
    clientSecret: Option<string>,
    redirectUri: Option<string>,
    scopes: Option<seq<string>>,
    customScopes: Option<string>,
    lastEndpoint: Option<string>,
    lastMethod: Option<string>,
    lastBody: Option<string>,
    accessToken: Option<string>,
    refreshToken: Option<string>,
    tokenExpiresAt: Option<Option<int>>)

  /** What `localStorage.getItem(StorageKey)` can hold, as the loader sees it. */
  datatype StoredItem =
    | EmptyText                    // "" is falsy and ignored
    | Malformed                    // JSON.parse throws
    | Json(fields: StoredFields)

  /** A stored member, if the stored object has it. */
  function StoredGet(p: StoredFields, k: Field): (r: Option<FieldValue>)
    ensures r.Some? ==> Fits(k, r.value)
  {
    match k
    case ClientId => if p.clientId.Some? then Some(Text(p.clientId.value)) else None
    case ClientSecret => if p.clientSecret.Some? then Some(Text(p.clientSecret.value)) else None
    case RedirectUri => if p.redirectUri.Some? then Some(Text(p.redirectUri.value)) else None
    case Scopes => if p.scopes.Some? then Some(List(p.scopes.value)) else None
    case CustomScopes => if p.customScopes.Some? then Some(Text(p.customScopes.value)) else None
    case LastEndpoint => if p.lastEndpoint.Some? then Some(Text(p.lastEndpoint.value)) else None
    case LastMethod => if p.lastMethod.Some? then Some(Text(p.lastMethod.value)) else None
    case LastBody => if p.lastBody.Some? then Some(Text(p.lastBody.value)) else None
    case AccessToken => if p.accessToken.Some? then Some(Text(p.accessToken.value)) else None
    case RefreshToken => if p.refreshToken.Some? then Some(Text(p.refreshToken.value)) else None
    case TokenExpiresAt => if p.tokenExpiresAt.Some? then Some(Expiry(p.tokenExpiresAt.value)) else None
  }

  /** `{ ...base, ...p }`. */
  function Spread(base: PersistedState, p: StoredFields): PersistedState {
    PersistedState(
      p.clientId.GetOr(base.clientId),
      p.clientSecret.GetOr(base.clientSecret),
      p.redirectUri.GetOr(base.redirectUri),
      p.scopes.GetOr(base.scopes),
      p.customScopes.GetOr(base.customScopes),
      p.lastEndpoint.GetOr(base.lastEndpoint),
      p.lastMethod.GetOr(base.lastMethod),
      p.lastBody.GetOr(base.lastBody),
      p.accessToken.GetOr(base.accessToken),
      p.refreshToken.GetOr(base.refreshToken),
      p.tokenExpiresAt.GetOr(base.tokenExpiresAt))
  }

  /** `loadPersistedState`: the defaults when there is no window, nothing stored, an empty
      string or unparseable text; otherwise the defaults overridden by the stored members. */
  function LoadPersistedState(hasWindow: bool, stored: Option<StoredItem>): (r: PersistedState)
    ensures !hasWindow || stored.None? || stored == Some(EmptyText) || stored == Some(Malformed) ==> r == DefaultState
  {
    if !hasWindow then DefaultState
    else match stored
      case None => DefaultState
      case Some(EmptyText) => DefaultState
      case Some(Malformed) => DefaultState
      case Some(Json(p)) => Spread(DefaultState, p)
  }

  /** `persistState`: `JSON.stringify` writes every member. */
  function PersistState(s: PersistedState): StoredItem {
    Json(StoredFields(
      Some(s.clientId), Some(s.clientSecret), Some(s.redirectUri), Some(s.scopes), Some(s.customScopes),
      Some(s.lastEndpoint), Some(s.lastMethod), Some(s.lastBody),
      Some(s.accessToken), Some(s.refreshToken), Some(s.tokenExpiresAt)))
  }

  /** Loading a stored object: every member it has wins over the default, every member it
      lacks takes the default. */
  lemma LoadOverridesDefaults(p: StoredFields, k: Field)
    ensures Get(LoadPersistedState(true, Some(Json(p))), k) == StoredGet(p, k).GetOr(Get(DefaultState, k))
  {
  }

  /** Loading what `persistState` wrote gives the same state back. */
  lemma LoadPersistRoundTrip(s: PersistedState)
    ensures LoadPersistedState(true, Some(PersistState(s))) == s
  {
  }

  // ---------------------------------------------------------------------------
  // Scopes

  /** The separators of `/[ ,\n\r]+/`. */
  predicate IsSeparator(c: char) {
    c == ' ' || c == ',' || c == '\n' || c == '\r'
  }

  /** The separator characters of `s`, in order. */
  function Separators(s: string): seq<char> {
    if s == [] then [] else (if IsSeparator(s[0]) then [s[0]] else []) + Separators(s[1..])
  }

  /** Puts one separator back between each two neighbouring pieces. */
  function Rebuild(pieces: seq<string>, seps: seq<char>): string
    requires |pieces| == |seps| + 1
  {
    if seps == [] then pieces[0] else pieces[0] + [seps[0]] + Rebuild(pieces[1..], seps[1..])
  }

  /** The pieces of `s` between separator characters, in order, empty pieces included: there is
      one more piece than separators, no piece holds a separator, and putting the separators
      back between the pieces gives `s` again. Splitting on runs of separators, as the source's
      regular expression does, yields the same non-empty pieces; the empty ones are dropped
      below either way. */
  function Pieces(s: string): (r: seq<string>)
    ensures |r| == |Separators(s)| + 1
    ensures forall i, j :: 0 <= i < |r| && 0 <= j < |r[i]| ==> !IsSeparator(r[i][j])
    ensures Rebuild(r, Separators(s)) == s
  {
    if s == [] then [""]
    else
      var rest := Pieces(s[1..]);
      if IsSeparator(s[0]) then [""] + rest
      else
        RebuildExtendsFirst(s[0], rest, Separators(s[1..]));
        assert Separators(s) == Separators(s[1..]);
        assert [s[0]] + s[1..] == s;
        [[s[0]] + rest[0]] + rest[1..]
  }

  /** Extending the first piece by a character extends the rebuilt string by it. */
  lemma RebuildExtendsFirst(c: char, pieces: seq<string>, seps: seq<char>)
    requires |pieces| == |seps| + 1
    ensures Rebuild([[c] + pieces[0]] + pieces[1..], seps) == [c] + Rebuild(pieces, seps)
  {
    var q := [[c] + pieces[0]] + pieces[1..];
    assert q[0] == [c] + pieces[0] && q[1..] == pieces[1..];
  }

  /** `.map(trim).filter(Boolean)`. */
  function TrimmedNonEmpty(pieces: seq<string>): (r: seq<string>)
    ensures |r| <= |pieces|
    ensures forall i :: 0 <= i < |r| ==> r[i] != ""
  {
    if pieces == [] then []
    else
      var t := Trim(pieces[0]);
      (if t == "" then [] else [t]) + TrimmedNonEmpty(pieces[1..])
  }

  /** Every entry is the trim of some piece. */
  lemma {:induction false} TrimmedNonEmptyFromPieces(pieces: seq<string>)
    ensures forall t :: t in TrimmedNonEmpty(pieces) ==> exists i :: 0 <= i < |pieces| && t == Trim(pieces[i])
  {
    if pieces != [] {
      TrimmedNonEmptyFromPieces(pieces[1..]);
      forall t | t in TrimmedNonEmpty(pieces)
        ensures exists i :: 0 <= i < |pieces| && t == Trim(pieces[i])
      {
        if t !in TrimmedNonEmpty(pieces[1..]) {
          assert t == Trim(pieces[0]);
        } else {
          var i :| 0 <= i < |pieces[1..]| && t == Trim(pieces[1..][i]);
          assert pieces[1..][i] == pieces[i + 1];
        }
      }
    }
  }

  /** The trim of every piece that is not all white space is an entry. */
  lemma {:induction false} TrimmedNonEmptyKeeps(pieces: seq<string>)
    ensures forall i :: 0 <= i < |pieces| && Trim(pieces[i]) != "" ==> Trim(pieces[i]) in TrimmedNonEmpty(pieces)
  {
    if pieces != [] {
      TrimmedNonEmptyKeeps(pieces[1..]);
      forall i | 0 <= i < |pieces| && Trim(pieces[i]) != ""
        ensures Trim(pieces[i]) in TrimmedNonEmpty(pieces)
      {
        if i > 0 {
          assert pieces[i] == pieces[1..][i - 1];
        }
      }
    }
  }

  /** Trimming and filtering keeps order: the entries of a concatenation are those of its two
      parts, one after the other. */
  lemma {:induction false} TrimmedNonEmptyAppend(a: seq<string>, b: seq<string>)
    ensures TrimmedNonEmpty(a + b) == TrimmedNonEmpty(a) + TrimmedNonEmpty(b)
  {
    if a != [] {
      assert (a + b)[0] == a[0] && (a + b)[1..] == a[1..] + b;
      TrimmedNonEmptyAppend(a[1..], b);
      TrimmedNonEmptyUnfold(a);
      TrimmedNonEmptyUnfold(a + b);
      calc {
        TrimmedNonEmpty(a + b);
        TrimmedNonEmpty([a[0]]) + TrimmedNonEmpty(a[1..] + b);
        TrimmedNonEmpty([a[0]]) + (TrimmedNonEmpty(a[1..]) + TrimmedNonEmpty(b));
        (TrimmedNonEmpty([a[0]]) + TrimmedNonEmpty(a[1..])) + TrimmedNonEmpty(b);
      }
    } else {
      assert a + b == b;
    }
  }

  /** The first piece's contribution comes first. */
  lemma TrimmedNonEmptyUnfold(p: seq<string>)
    requires p != []
    ensures TrimmedNonEmpty(p) == TrimmedNonEmpty([p[0]]) + TrimmedNonEmpty(p[1..])
  {
    assert [p[0]][1..] == [];
  }

  /** The scope names typed into the custom field. */
  function CustomTokens(customScopes: string): seq<string> {
    TrimmedNonEmpty(Pieces(customScopes))
  }

  /** Adding names one by one to an insertion-ordered set (`Set.prototype.add`). */
  function AddAll(acc: seq<string>, xs: seq<string>): seq<string>
    decreases |xs|
  {
    if xs == [] then acc
    else AddAll(if xs[0] in acc then acc else acc + [xs[0]], xs[1..])
  }

  /** `Array.from(new Set([...scopes, ...customTokens]))`. */
  function MergedScopes(scopes: seq<string>, customScopes: string): seq<string> {
    AddAll(AddAll([], scopes), CustomTokens(customScopes))
  }

  /** The reference definition of de-duplication: keep each element that does not occur
      earlier. */
  function FirstOccurrences(s: seq<string>): seq<string>
    decreases |s|
  {
    if s == [] then []
    else
      var init := s[..|s| - 1];
      FirstOccurrences(init) + (if s[|s| - 1] in init then [] else [s[|s| - 1]])
  }

  predicate NoDuplicates(s: seq<string>) {
    forall i, j :: 0 <= i < j < |s| ==> s[i] != s[j]
  }

  lemma {:induction false} FirstOccurrencesElements(s: seq<string>)
    ensures forall x :: x in FirstOccurrences(s) <==> x in s
    ensures NoDuplicates(FirstOccurrences(s))
    decreases |s|
  {
    if s != [] {
      var init := s[..|s| - 1];
      FirstOccurrencesElements(init);
      assert s == init + [s[|s| - 1]];
    }
  }

  /** Adding elements one at a time to the first occurrences of p gives the first occurrences
      of p followed by them. */
  lemma FirstOccurrencesContains(p: seq<string>, x: string)
    ensures x in FirstOccurrences(p) <==> x in p
  {
    FirstOccurrencesElements(p);
  }

  lemma FirstOccurrencesSnoc(p: seq<string>, x: string)
    ensures FirstOccurrences(p + [x]) == FirstOccurrences(p) + (if x in p then [] else [x])
  {
    assert (p + [x])[..|p + [x]| - 1] == p;
  }

  lemma {:induction false} AddAllIsFirstOccurrences(p: seq<string>, xs: seq<string>)
    ensures AddAll(FirstOccurrences(p), xs) == FirstOccurrences(p + xs)
    decreases |xs|
  {
    if xs == [] {
      assert p + xs == p;
    } else {
      var x := xs[0];
      FirstOccurrencesContains(p, x);
      FirstOccurrencesSnoc(p, x);
      var next := if x in FirstOccurrences(p) then FirstOccurrences(p) else FirstOccurrences(p) + [x];
      assert next == FirstOccurrences(p + [x]);
      assert AddAll(FirstOccurrences(p), xs) == AddAll(next, xs[1..]);
      AddAllIsFirstOccurrences(p + [x], xs[1..]);
      assert p + [x] + xs[1..] == p + xs;
    }
  }

  lemma {:induction false} AddAllExtends(acc: seq<string>, xs: seq<string>)
    ensures |acc| <= |AddAll(acc, xs)| && AddAll(acc, xs)[..|acc|] == acc
    decreases |xs|
  {
    if xs != [] {
      var next := if xs[0] in acc then acc else acc + [xs[0]];
      AddAllExtends(next, xs[1..]);
      assert next[..|acc|] == acc;
    }
  }

  /** The merged scope list: the selected scopes, then each custom token, each name once, in
      order of first occurrence; and the de-duplicated selection comes first. */
  lemma MergedScopesSpec(scopes: seq<string>, customScopes: string)
    ensures MergedScopes(scopes, customScopes) == FirstOccurrences(scopes + CustomTokens(customScopes))
    ensures NoDuplicates(MergedScopes(scopes, customScopes))
    ensures forall x :: x in MergedScopes(scopes, customScopes) <==> x in scopes || x in CustomTokens(customScopes)
    ensures |FirstOccurrences(scopes)| <= |MergedScopes(scopes, customScopes)|
    ensures MergedScopes(scopes, customScopes)[..|FirstOccurrences(scopes)|] == FirstOccurrences(scopes)
  {
    var tokens := CustomTokens(customScopes);
    assert FirstOccurrences([]) == [];
    AddAllIsFirstOccurrences([], scopes);
    assert [] + scopes == scopes;
    AddAllIsFirstOccurrences(scopes, tokens);
    AddAllExtends(FirstOccurrences(scopes), tokens);
    FirstOccurrencesElements(scopes + tokens);
  }

  /** A scope name that survives the custom-scope parser unchanged: non-empty, free of
      separators, and not starting or ending with white space. */
  predicate CleanScope(x: string) {
    x != "" && (forall j :: 0 <= j < |x| ==> !IsSeparator(x[j])) && !IsTrimmed(x[0]) && !IsTrimmed(x[|x| - 1])
  }

  lemma {:induction false} PiecesPlain(a: string)
    requires forall j :: 0 <= j < |a| ==> !IsSeparator(a[j])
    ensures Pieces(a) == [a]
  {
    if a != [] {
      PiecesPlain(a[1..]);
      assert [a[0]] + a[1..] == a;
    }
  }

  lemma {:induction false} PiecesAppend(a: string, b: string)
    requires forall j :: 0 <= j < |a| ==> !IsSeparator(a[j])
    ensures Pieces(a + " " + b) == [a] + Pieces(b)
  {
    var s := a + " " + b;
    if a == [] {
      assert s == " " + b && s[1..] == b;
    } else {
      assert s[0] == a[0] && s[1..] == a[1..] + " " + b;
      PiecesAppend(a[1..], b);
      assert [a[0]] + a[1..] == a;
    }
  }

  lemma {:induction false} PiecesJoin(xs: seq<string>)
    requires xs != []
    requires forall i, j :: 0 <= i < |xs| && 0 <= j < |xs[i]| ==> !IsSeparator(xs[i][j])
    ensures Pieces(Join(xs, " ")) == xs
  {
    if |xs| == 1 {
      PiecesPlain(xs[0]);
    } else {
      PiecesAppend(xs[0], Join(xs[1..], " "));
      PiecesJoin(xs[1..]);
      assert [xs[0]] + xs[1..] == xs;
    }
  }

  lemma {:induction false} TrimmedNonEmptyClean(xs: seq<string>)
    requires forall i :: 0 <= i < |xs| ==> CleanScope(xs[i])
    ensures TrimmedNonEmpty(xs) == xs
  {
    if xs != [] {
      assert Trim(xs[0]) == xs[0];
      TrimmedNonEmptyClean(xs[1..]);
      assert [xs[0]] + xs[1..] == xs;
    }
  }

  /** The `scope` parameter of the authorization URL, typed back into the custom-scope field,
      gives the same scope list. */
  lemma ScopeParamRoundTrip(xs: seq<string>)
    requires forall i :: 0 <= i < |xs| ==> CleanScope(xs[i])
    ensures CustomTokens(Join(xs, " ")) == xs
  {
    if xs == [] {
      assert Pieces("") == [""];
      assert Trim("") == "";
    } else {
      PiecesJoin(xs);
      TrimmedNonEmptyClean(xs);
    }
  }

  // ---------------------------------------------------------------------------
  // Authorization URL

  /** `buildOAuthUrl`: exactly client_id, redirect_uri, response_type=code, the scopes joined
      by single spaces and force_verify as "true"/"false"; no `state` parameter. */
  function BuildOAuthUrl(clientId: string, redirectUri: string, scopes: seq<string>, forceVerify: bool): (u: Url)
    ensures u.base == AuthorizeEndpoint
    ensures Keys(u.query) == ["client_id", "redirect_uri", "response_type", "scope", "force_verify"]
    ensures forall i :: 0 <= i < |u.query| ==>
              u.query[i].value == [clientId, redirectUri, "code", Join(scopes, " "), if forceVerify then "true" else "false"][i]
  {
    Url(AuthorizeEndpoint, [
      Param("client_id", clientId),
      Param("redirect_uri", redirectUri),
      Param("response_type", "code"),
      Param("scope", Join(scopes, " ")),
      Param("force_verify", if forceVerify then "true" else "false")])
  }

  /** The `oauthUrl` memo: no link while the client id or the redirect URI is empty. */
  function OAuthLink(s: PersistedState, forceVerify: bool): (r: Option<Url>)
    ensures r.None? <==> s.clientId == "" || s.redirectUri == ""
    ensures r.Some? ==> r.value == BuildOAuthUrl(s.clientId, s.redirectUri, MergedScopes(s.scopes, s.customScopes), forceVerify)
  {
    if s.clientId == "" || s.redirectUri == "" then None
    else Some(BuildOAuthUrl(s.clientId, s.redirectUri, MergedScopes(s.scopes, s.customScopes), forceVerify))
  }

  // ---------------------------------------------------------------------------
  // Token lifecycle

  datatype AuthStatus = Idle | Loading | Success(token: TokenPayload) | Error(error: string)

  /** `canExchangeToken`: client id, secret and redirect URI are all non-empty. */
  predicate CanExchange(s: PersistedState) {
    s.clientId != "" && s.clientSecret != "" && s.redirectUri != ""
  }

  /** The fields a grant, a refresh or a logout writes. */
  predicate IsTokenField(k: Field) {
    k == AccessToken || k == RefreshToken || k == TokenExpiresAt
  }

  /** Status and state once the code-exchange reply has arrived. */
  function ExchangeOutcome(s: PersistedState, reply: TokenReply, now: int): (AuthStatus, PersistedState) {
    match Interpret(reply, ExchangeFailurePrefix, ExchangeUnknownMessage)
    case Granted(p) =>
      (Success(p), s.(accessToken := p.accessToken, refreshToken := p.refreshToken.GetOr(""),
                      tokenExpiresAt := Some(ExpiresAt(now, p.expiresIn))))
    case Refused(m) => (Error(m), s)
  }

  /** A failed exchange reports the provider's message (or the status-coded fallback) and
      leaves the state alone; a granted one stores the new tokens, "" for a missing refresh
      token, the absolute expiry, and changes no other field. */
  lemma ExchangeOutcomeSpec(s: PersistedState, reply: TokenReply, now: int)
    ensures var (st, s') := ExchangeOutcome(s, reply, now);
      && (reply.Replied? && !reply.ok ==>
            st == Error(reply.payload.message.GetOr(
                        StatusMessage(ExchangeFailurePrefix, reply.payload.status.GetOr(reply.httpStatus)))) && s' == s)
      && (reply.Threw? ==> st == Error(reply.error.GetOr(ExchangeUnknownMessage)) && s' == s)
      && (reply.Replied? && reply.ok ==>
            && st == Success(reply.payload)
            && s'.accessToken == reply.payload.accessToken
            && s'.refreshToken == reply.payload.refreshToken.GetOr("")
            && s'.tokenExpiresAt == Some(now + reply.payload.expiresIn * 1000)
            && forall k :: !IsTokenField(k) ==> Get(s', k) == Get(s, k))
  {
  }

  /** Status and state once the refresh reply has arrived. */
  function RefreshOutcome(s: PersistedState, reply: TokenReply, now: int): (AuthStatus, PersistedState) {
    match Interpret(reply, RefreshFailurePrefix, RefreshUnknownMessage)
    case Granted(p) =>
      (Success(p), s.(accessToken := p.accessToken, refreshToken := p.refreshToken.GetOr(s.refreshToken),
                      tokenExpiresAt := Some(ExpiresAt(now, p.expiresIn))))
    case Refused(m) => (Error(m), s)
  }

  /** A failed refresh reports the provider's message (or the status-coded fallback, or the
      thrown error's message) and leaves every token as it was; a granted one keeps the
      previous refresh token when the reply omits one (section 6 of RFC 6749 lets the provider
      reuse it). */
  lemma RefreshOutcomeSpec(s: PersistedState, reply: TokenReply, now: int)
    ensures var (st, s') := RefreshOutcome(s, reply, now);
      && (reply.Replied? && !reply.ok ==>
            st == Error(reply.payload.message.GetOr(
                        StatusMessage(RefreshFailurePrefix, reply.payload.status.GetOr(reply.httpStatus)))) && s' == s)
      && (reply.Threw? ==> st == Error(reply.error.GetOr(RefreshUnknownMessage)) && s' == s)
      && (reply.Replied? && reply.ok ==>
            && st == Success(reply.payload)
            && s'.accessToken == reply.payload.accessToken
            && (reply.payload.refreshToken.None? ==> s'.refreshToken == s.refreshToken)
            && (reply.payload.refreshToken.Some? ==> s'.refreshToken == reply.payload.refreshToken.value)
            && s'.tokenExpiresAt == Some(now + reply.payload.expiresIn * 1000)
            && forall k :: !IsTokenField(k) ==> Get(s', k) == Get(s, k))
  {
  }

  /** Right after a grant, the countdown reads the granted lifetime. */
  lemma GrantedCountdown(s: PersistedState, reply: TokenReply, now: int)
    requires reply.Replied? && reply.ok && reply.payload.expiresIn >= 0
    requires ExpiresAt(now, reply.payload.expiresIn) != 0
    ensures SecondsUntilExpiry(ExchangeOutcome(s, reply, now).1.tokenExpiresAt, now) == Some(reply.payload.expiresIn)
    ensures SecondsUntilExpiry(RefreshOutcome(s, reply, now).1.tokenExpiresAt, now) == Some(reply.payload.expiresIn)
  {
    FreshTokenCountdown(now, reply.payload.expiresIn);
  }

  /** The state after logout: the three token fields blank. */
  function LoggedOut(s: PersistedState): PersistedState {
    s.(accessToken := "", refreshToken := "", tokenExpiresAt := None)
  }

  /** Logout blanks the tokens and keeps the credentials, scopes and last request. */
  lemma LoggedOutSpec(s: PersistedState)
    ensures forall k :: !IsTokenField(k) ==> Get(LoggedOut(s), k) == Get(s, k)
    ensures Get(LoggedOut(s), AccessToken) == Text("") && Get(LoggedOut(s), RefreshToken) == Text("")
    ensures Get(LoggedOut(s), TokenExpiresAt) == Expiry(None)
    ensures SecondsUntilExpiry(LoggedOut(s).tokenExpiresAt, 0) == None
  {
  }

  /** The token-request form of a refresh, in the order this page builds it. */
  function RefreshForm(refreshToken: string, clientId: string, clientSecret: string): (r: seq<Param>)
    ensures Keys(r) == ["grant_type", "refresh_token", "client_id", "client_secret"]
    ensures forall i :: 0 <= i < |r| ==> r[i].value == ["refresh_token", refreshToken, clientId, clientSecret][i]
  {
    [Param("grant_type", "refresh_token"), Param("refresh_token", refreshToken),
     Param("client_id", clientId), Param("client_secret", clientSecret)]
  }

  /** The headers of a Helix call: Client-Id and the bearer token, plus a JSON content type
      when there is a body. */
  function ApiHeaders(s: PersistedState): (h: seq<Param>)
    ensures Lookup(h, "Authorization") == Some("Bearer " + s.accessToken)
    ensures Lookup(h, "Client-Id") == Some(s.clientId)
    ensures Lookup(h, "Content-Type").Some? <==> s.lastBody != ""
    ensures s.lastBody != "" ==> Lookup(h, "Content-Type") == Some("application/json")
  {
    [Param("Client-Id", s.clientId), Param("Authorization", "Bearer " + s.accessToken)]
    + (if s.lastBody != "" then [Param("Content-Type", "application/json")] else [])
  }

  /** The code carried by a window message, if the listener accepts it: the sender's origin is
      the page's own, the data is a non-null object whose `type` is "twitch-auth-code" and
      whose `code` is a string. */
  function RelayedCode(event: MessageEvent, origin: string): (r: Option<string>)
    ensures event.origin != origin ==> r.None?
    ensures !event.data.JsObject? ==> r.None?
    ensures r.Some? ==> Member(event.data, "type") == JsString(AuthCodeMessageType)
                        && Member(event.data, "code") == JsString(r.value)
  {
    if event.origin != origin then None
    else if !event.data.JsObject? then None
    else if Member(event.data, "type") == JsString(AuthCodeMessageType) && Member(event.data, "code").JsString? then
      Some(Member(event.data, "code").s)
    else None
  }

  /** The record of the last Helix call; only its clearing is modelled. */
  datatype ApiResult = ApiResult(endpoint: string, status: int, ok: bool)

  /** The tester page: its persisted state, auth status, the two storages, and the log of the
      requests it sent. */
  class Tester {
    var state: PersistedState
    var forceVerify: bool
    var authStatus: AuthStatus
    var apiResponse: Option<ApiResult>
    var apiError: Option<string>
    var localStorage: map<string, StoredItem>
    var sessionStorage: map<string, string>
    var requests: seq<Request>
    const origin: string

    /** The persisting effect has run: local storage holds the current state. */
    ghost predicate Valid()
      reads this
    {
      StorageKey in localStorage && localStorage[StorageKey] == PersistState(state)
    }

    /** Mounting the page: load the persisted state, then persist it. */
    constructor (origin: string, localStorage: map<string, StoredItem>, sessionStorage: map<string, string>)
      ensures Valid()
      ensures state == LoadPersistedState(true, if StorageKey in localStorage then Some(localStorage[StorageKey]) else None)
      ensures this.localStorage == localStorage[StorageKey := PersistState(state)]
      ensures this.sessionStorage == sessionStorage && this.origin == origin
      ensures authStatus == Idle && apiResponse == None && apiError == None && !forceVerify && requests == []
    {
      this.origin := origin;
      state := LoadPersistedState(true, if StorageKey in localStorage then Some(localStorage[StorageKey]) else None);
      this.localStorage := localStorage[StorageKey := PersistState(LoadPersistedState(true, if StorageKey in localStorage then Some(localStorage[StorageKey]) else None))];
      this.sessionStorage := sessionStorage;
      authStatus := Idle;
      apiResponse := None;
      apiError := None;
      forceVerify := false;
      requests := [];
    }

    /** `updateState(k, v)`, followed by the persisting effect. */
    method UpdateState(k: Field, v: FieldValue)
      requires Valid() && Fits(k, v)
      modifies this
      ensures Valid()
      ensures state == With(old(state), k, v)
      ensures localStorage == old(localStorage)[StorageKey := PersistState(state)]
      ensures authStatus == old(authStatus) && apiResponse == old(apiResponse) && apiError == old(apiError)
      ensures sessionStorage == old(sessionStorage) && requests == old(requests) && forceVerify == old(forceVerify)
    {
      state := With(state, k, v);
      localStorage := localStorage[StorageKey := PersistState(state)];
    }

    /** `handleTokenExchange`: without client id, secret and redirect URI it fails before any
        request; otherwise it posts the authorization_code form and applies the reply. */
    method HandleTokenExchange(code: string, reply: TokenReply, now: int)
      requires Valid()
      modifies this
      ensures Valid()
      ensures localStorage == old(localStorage)[StorageKey := PersistState(state)]
      ensures apiResponse == old(apiResponse) && apiError == old(apiError)
      ensures sessionStorage == old(sessionStorage) && forceVerify == old(forceVerify)
      ensures !CanExchange(old(state)) ==>
                authStatus == Error(ExchangeConfigMessage) && state == old(state) && requests == old(requests)
      ensures CanExchange(old(state)) ==>
                && requests == old(requests) + [TokenPost(AuthorizationCodeForm(old(state).clientId, old(state).clientSecret, code, old(state).redirectUri))]
                && (authStatus, state) == ExchangeOutcome(old(state), reply, now)
    {
      if !CanExchange(state) {
        authStatus := Error(ExchangeConfigMessage);
        localStorage := localStorage[StorageKey := PersistState(state)];
        return;
      }
      authStatus := Loading;
      requests := requests + [TokenPost(AuthorizationCodeForm(state.clientId, state.clientSecret, code, state.redirectUri))];
      authStatus, state := ExchangeOutcome(state, reply, now).0, ExchangeOutcome(state, reply, now).1;
      localStorage := localStorage[StorageKey := PersistState(state)];
    }

    /** `handleRefreshToken`: without a stored refresh token it fails before any request;
        otherwise it posts the refresh_token form and applies the reply. */
    method HandleRefreshToken(reply: TokenReply, now: int)
      requires Valid()
      modifies this
      ensures Valid()
      ensures localStorage == old(localStorage)[StorageKey := PersistState(state)]
      ensures apiResponse == old(apiResponse) && apiError == old(apiError)
      ensures sessionStorage == old(sessionStorage) && forceVerify == old(forceVerify)
      ensures old(state).refreshToken == "" ==>
                authStatus == Error(NoRefreshTokenMessage) && state == old(state) && requests == old(requests)
      ensures old(state).refreshToken != "" ==>
                && requests == old(requests) + [TokenPost(RefreshForm(old(state).refreshToken, old(state).clientId, old(state).clientSecret))]
                && (authStatus, state) == RefreshOutcome(old(state), reply, now)
    {
      if state.refreshToken == "" {
        authStatus := Error(NoRefreshTokenMessage);
        localStorage := localStorage[StorageKey := PersistState(state)];
        return;
      }
      authStatus := Loading;
      requests := requests + [TokenPost(RefreshForm(state.refreshToken, state.clientId, state.clientSecret))];
      authStatus, state := RefreshOutcome(state, reply, now).0, RefreshOutcome(state, reply, now).1;
      localStorage := localStorage[StorageKey := PersistState(state)];
    }

    /** `handleLogout`: back to idle, the Helix call record and error cleared, the token
        fields blanked and nothing else changed. */
    method HandleLogout()
      requires Valid()
      modifies this
      ensures Valid()
      ensures authStatus == Idle && apiResponse == None && apiError == None
      ensures state == LoggedOut(old(state))
      ensures localStorage == old(localStorage)[StorageKey := PersistState(state)]
      ensures sessionStorage == old(sessionStorage) && requests == old(requests) && forceVerify == old(forceVerify)
    {
      authStatus := Idle;
      apiResponse := None;
      apiError := None;
      state := LoggedOut(state);
      localStorage := localStorage[StorageKey := PersistState(state)];
    }

    /** The guard part of `handleApiCall`: without an access token it reports that and stops;
        otherwise it clears the previous record and error, and stops again when a non-empty
        body is not valid JSON. `proceed` says whether the Helix request goes out. */
    method ApiCallGuard(bodyIsJson: bool) returns (proceed: bool)
      requires Valid()
      modifies this
      ensures Valid()
      ensures proceed <==> state.accessToken != "" && (state.lastBody == "" || bodyIsJson)
      ensures state.accessToken == "" ==> apiError == Some(NoAccessTokenMessage) && apiResponse == old(apiResponse)
      ensures state.accessToken != "" ==> apiResponse == None
      ensures state.accessToken != "" && state.lastBody != "" && !bodyIsJson ==> apiError == Some(InvalidBodyMessage)
      ensures proceed ==> apiError == None
      ensures state == old(state) && localStorage == old(localStorage) && authStatus == old(authStatus)
      ensures sessionStorage == old(sessionStorage) && requests == old(requests) && forceVerify == old(forceVerify)
    {
      if state.accessToken == "" {
        apiError := Some(NoAccessTokenMessage);
        return false;
      }
      apiError := None;
      apiResponse := None;
      if state.lastBody != "" && !bodyIsJson {
        apiError := Some(InvalidBodyMessage);
        return false;
      }
      return true;
    }

    /** The mount effect for a code the callback window left in session storage: with
        complete settings and a non-empty stored code, the code is removed first and then
        exchanged; otherwise nothing happens. */
    method RestorePendingCode(reply: TokenReply, now: int)
      requires Valid()
      modifies this
      ensures Valid()
      ensures apiResponse == old(apiResponse) && apiError == old(apiError) && forceVerify == old(forceVerify)
      ensures !(CanExchange(old(state)) && AuthCodeKey in old(sessionStorage) && old(sessionStorage)[AuthCodeKey] != "") ==>
                && state == old(state) && authStatus == old(authStatus) && requests == old(requests)
                && sessionStorage == old(sessionStorage) && localStorage == old(localStorage)
      ensures CanExchange(old(state)) && AuthCodeKey in old(sessionStorage) && old(sessionStorage)[AuthCodeKey] != "" ==>
                && sessionStorage == old(sessionStorage) - {AuthCodeKey}
                && requests == old(requests) + [TokenPost(AuthorizationCodeForm(old(state).clientId, old(state).clientSecret, old(sessionStorage)[AuthCodeKey], old(state).redirectUri))]
                && (authStatus, state) == ExchangeOutcome(old(state), reply, now)
                && localStorage == old(localStorage)[StorageKey := PersistState(state)]
    {
      if !CanExchange(state) {
        return;
      }
      if AuthCodeKey !in sessionStorage || sessionStorage[AuthCodeKey] == "" {
        return;
      }
      var storedCode := sessionStorage[AuthCodeKey];
      sessionStorage := sessionStorage - {AuthCodeKey};
      HandleTokenExchange(storedCode, reply, now);
    }

    /** The window-message listener: a message it does not accept changes nothing; an
        accepted code is exchanged when the settings are complete, and otherwise parked in
        session storage with an error. */
    method OnMessage(event: MessageEvent, reply: TokenReply, now: int)
      requires Valid()
      modifies this
      ensures Valid()
      ensures apiResponse == old(apiResponse) && apiError == old(apiError) && forceVerify == old(forceVerify)
      ensures RelayedCode(event, origin).None? ==>
                && state == old(state) && authStatus == old(authStatus) && requests == old(requests)
                && sessionStorage == old(sessionStorage) && localStorage == old(localStorage)
      ensures RelayedCode(event, origin).Some? && !CanExchange(old(state)) ==>
                && sessionStorage == old(sessionStorage)[AuthCodeKey := RelayedCode(event, origin).value]
                && authStatus == Error(RelayConfigMessage)
                && state == old(state) && requests == old(requests) && localStorage == old(localStorage)
      ensures RelayedCode(event, origin).Some? && CanExchange(old(state)) ==>
                && sessionStorage == old(sessionStorage)
                && requests == old(requests) + [TokenPost(AuthorizationCodeForm(old(state).clientId, old(state).clientSecret, RelayedCode(event, origin).value, old(state).redirectUri))]
                && (authStatus, state) == ExchangeOutcome(old(state), reply, now)
                && localStorage == old(localStorage)[StorageKey := PersistState(state)]
    {
      var code := RelayedCode(event, origin);
      if code.None? {
        return;
      }
      if !CanExchange(state) {
        sessionStorage := sessionStorage[AuthCodeKey := code.value];
        authStatus := Error(RelayConfigMessage);
        return;
      }
      HandleTokenExchange(code.value, reply, now);
    }

    /** The `AuthStatus` panel's expiry line, read at time `now`. */
    function ExpiryLine(now: int): (n: ExpiryNotice)
      reads this
      ensures !authStatus.Success? ==> n == NoNotice
      ensures authStatus.Success? ==> n == ExpiryNoticeFor(state.tokenExpiresAt, now)
      ensures authStatus.Success? && state.tokenExpiresAt.Some? && state.tokenExpiresAt.value != 0 ==> !n.NoNotice?
      ensures authStatus.Success? ==> (n.Expired? <==> SecondsUntilExpiry(state.tokenExpiresAt, now) == Some(0))
      ensures n.Remaining? ==> SecondsUntilExpiry(state.tokenExpiresAt, now) == Some(n.seconds)
    {
      if authStatus.Success? then ExpiryNoticeFor(state.tokenExpiresAt, now) else NoNotice
    }
  }
}
