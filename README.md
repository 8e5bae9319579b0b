# Twitch OAuth tester — a Dafny model

This project models the client and server logic of a small Next.js application for trying
out Twitch's OAuth 2.0 authorization-code flow (sections 4.1.1–4.1.3 of RFC 6749, with the
refresh grant of section 6). It has these parts:

- **API tester page** (`TwitchTester`, class `Tester`):
  - keeps its settings and tokens in local storage;
  - builds the consent URL from the merged scope list;
  - exchanges a code and refreshes a token against the token endpoint;
  - logs out, and guards the Helix call;
  - accepts a code relayed by the callback window or left in session storage.
- **Social-login page** (`TwitchLogin`, class `LoginClient`):
  - sends the browser to the consent screen with every scope and a 16-byte hexadecimal
    anti-forgery `state` (section 10.12 of RFC 6749);
  - exchanges the returned code after checking that state;
  - forwards the tokens to a configurable backend;
  - strips the redirect parameters from the address.
- **OAuth callback page** (`AuthCallback`, class `CallbackPage`): normalises `code`, `scope`
  and `error`, posts the code to the opener, stashes it in session storage, and chooses one of
  three views. `CodeRelay` proves that the message it posts is exactly what the tester's
  listener accepts.
- **Clip statistics panel** (`ClipStats`, class `ClipStatsPanel`): looks a streamer up, then
  pages through their clips with a cursor until a page has no cursor or at least 1000 clips
  are gathered, and sums the view counts. The `while` loop is a Dafny loop. It is proved
  against `Pagination`, a definition stated over the sequence of page replies.
- **Two proxy routes** (`TokenRoute`, `RefreshRoute`, sharing `Proxy`): each checks that
  the required body fields are truthy, builds the fixed form body, and passes the
  provider's status and JSON back unchanged. Any throw becomes a 500 response.
- **Environment check** (`Env`): `readEnv`, the three `twitchEnv` readers, and the
  configured-variables summary.

The shared modules are:

- `Web`: parameter lists as `URLSearchParams` sees them, requests, JavaScript values and
  truthiness, `trim`, `join`, and message delivery between windows.
- `TwitchOAuth`: the token endpoint, the authorization_code form, how a token reply becomes
  a grant or an error message, and the expiry countdown.

The modelling conventions are:

- Network replies and the clock are parameters: `TokenReply`, `BackendReply`, `UserReply`,
  the `PageReply` sequence, `Upstream`, and `now`.
- Every outgoing request is appended to a `requests` log. "No request is made" is stated as
  "the log is unchanged".
- Each asynchronous handler runs to completion in one method call.

## Model

| member | source | states |
|---|---|---|
| Web.Lookup | src/app/twitch/twitch-login-client.tsx:244-248 | `searchParams.get`: absent exactly when no pair has the key; otherwise the value of the first pair with that key |
| Web.LookupDistinct | src/app/twitch/twitch-login-client.tsx:244-248 | in a parameter list with distinct keys, looking up a pair's key yields that pair's value |
| Web.DeleteIsWithout | src/app/twitch/twitch-login-client.tsx:258-263 | `searchParams.delete(k)` removes exactly the pairs with key k and keeps the rest in order |
| Web.WithoutTwice | src/app/twitch/twitch-login-client.tsx:259-263 | deleting one key set and then another equals deleting their union |
| Web.WithoutMembers | src/app/twitch/twitch-login-client.tsx:258-263 | after deleting a key set, a pair remains iff it was there and its key is not in the set |
| Web.TrimStart | src/components/clip-stats.tsx:44 | the result is a suffix of the input that does not start with a white-space or line-terminator character, and everything removed is white space |
| Web.TrimEnd | src/components/clip-stats.tsx:44 | the result is a prefix of the input that does not end with a white-space or line-terminator character, and everything removed is white space |
| Web.TrimBlank | src/components/clip-stats.tsx:44 | the trimmed name is empty exactly when every character of the input is white space, which is the blank-name guard |
| Web.Deliver | src/app/auth/callback/page.tsx:31 | a message posted with a target origin reaches a window iff that window has that origin, stamped with the sender's origin and carrying the same data |
| TwitchOAuth.AuthorizationCodeForm | src/components/twitch-tester.tsx:157-163 | the authorization_code form is exactly client_id, client_secret, code, grant_type=authorization_code, redirect_uri, in that order |
| TwitchOAuth.Interpret | src/components/twitch-tester.tsx:170-184 | a 2xx reply grants its payload; a non-ok reply refuses with the provider's `message`, or else `<prefix> (status n)`, where n is the body's status or else the HTTP status; a throw refuses with the error's message or the fixed fallback |
| TwitchOAuth.SecondsUntilExpiry | src/components/twitch-tester.tsx:605 | no countdown iff the expiry is null or 0; otherwise the countdown is non-negative, is 0 iff under half a second remains, and is within half a second of the remaining time |
| TwitchOAuth.FreshTokenCountdown | src/components/twitch-tester.tsx:175 | right after a grant, the countdown shows exactly `expires_in` |
| TwitchOAuth.CountdownNonIncreasing | src/components/twitch-tester.tsx:605 | the countdown never increases as time passes |
| TwitchOAuth.ExpiryNoticeFor | src/components/twitch-tester.tsx:604-616 | no line without a countdown; the "expired" line iff under half a second remains; otherwise a positive number of seconds |
| TwitchTester.Get | src/components/twitch-tester.tsx:50-62 | reading a field yields a value of that field's type |
| TwitchTester.WithChangesOnlyField | src/components/twitch-tester.tsx:144-146 | `updateState(k, v)` sets field k to v and leaves every other field as it was |
| TwitchTester.StoredGet | src/components/twitch-tester.tsx:85-86 | a stored member, when present, has its field's type |
| TwitchTester.LoadPersistedState | src/components/twitch-tester.tsx:78-91 | defaults when there is no window, nothing stored, an empty string or unparseable text |
| TwitchTester.LoadOverridesDefaults | src/components/twitch-tester.tsx:86 | after loading a stored object, each field holds the stored member if present and the default otherwise |
| TwitchTester.LoadPersistRoundTrip | src/components/twitch-tester.tsx:86-99 | loading what `persistState` wrote returns the same state |
| TwitchTester.Pieces | src/components/twitch-tester.tsx:133 | splitting yields one more piece than there are separators, no piece contains a separator, and putting the separators back between the pieces gives the input again |
| TwitchTester.TrimmedNonEmpty | src/components/twitch-tester.tsx:134-135 | after trim and filter, no entry is empty and there are no more entries than pieces |
| TwitchTester.TrimmedNonEmptyFromPieces | src/components/twitch-tester.tsx:134-135 | every entry is the trim of some piece |
| TwitchTester.TrimmedNonEmptyKeeps | src/components/twitch-tester.tsx:134-135 | the trim of every piece that is not all white space is an entry |
| TwitchTester.TrimmedNonEmptyAppend | src/components/twitch-tester.tsx:134-135 | trim-and-filter keeps order: the entries of a concatenation are those of its first part followed by those of its second |
| TwitchTester.FirstOccurrencesElements | src/components/twitch-tester.tsx:131-137 | de-duplication keeps exactly the elements of the input, each once |
| TwitchTester.AddAllIsFirstOccurrences | src/components/twitch-tester.tsx:131-137 | adding names one by one to an insertion-ordered `Set` is the same as keeping each name's first occurrence |
| TwitchTester.AddAllExtends | src/components/twitch-tester.tsx:136 | adding to a `Set` keeps what it held as a prefix |
| TwitchTester.MergedScopesSpec | src/components/twitch-tester.tsx:130-138 | the merged list is the first occurrences of the selected scopes followed by the custom tokens: no duplicates, exactly the names of either, selected scopes first |
| TwitchTester.ScopeParamRoundTrip | src/components/twitch-tester.tsx:101-138 | a `scope` value built from clean scope names, typed back into the custom field, parses to the same list |
| TwitchTester.BuildOAuthUrl | src/components/twitch-tester.tsx:101-116 | the consent URL carries exactly client_id, redirect_uri, response_type=code, the scopes joined by single spaces and force_verify as "true"/"false"; there is no `state` parameter |
| TwitchTester.OAuthLink | src/components/twitch-tester.tsx:298-301 | there is no link iff the client id or the redirect URI is empty; otherwise the link is built from the merged scopes |
| TwitchTester.ExchangeOutcomeSpec | src/components/twitch-tester.tsx:170-186 | a failed exchange reports the provider's message, or the status fallback, or the thrown error's message, and keeps the state; a grant stores the access token, the refresh token or "", and now + expires_in·1000, and changes no other field |
| TwitchTester.RefreshOutcomeSpec | src/components/twitch-tester.tsx:209-222 | a failed refresh reports the provider's message, or the status fallback, or the thrown error's message, and keeps every token; a successful one keeps the previous refresh token when the reply omits one and changes no non-token field |
| TwitchTester.GrantedCountdown | src/components/twitch-tester.tsx:214-219 | after a grant or a refresh, the countdown reads the granted lifetime |
| TwitchTester.LoggedOutSpec | src/components/twitch-tester.tsx:290-295 | logout blanks the access token, the refresh token and the expiry, and every other field is unchanged |
| TwitchTester.RefreshForm | src/components/twitch-tester.tsx:197-202 | the refresh form is exactly grant_type=refresh_token, refresh_token, client_id, client_secret, in that order |
| TwitchTester.ApiHeaders | src/components/twitch-tester.tsx:247-253 | a Helix call carries Client-Id and the bearer token, plus `Content-Type: application/json` iff there is a body |
| TwitchTester.RelayedCode | src/components/twitch-tester.tsx:315-318 | the listener accepts only messages from its own origin whose data is an object with type "twitch-auth-code" and a string code |
| TwitchTester.Tester.constructor | src/components/twitch-tester.tsx:118-142 | mounting loads the persisted state (defaults when absent), writes it back to local storage, and starts idle with no response, no error and no request |
| TwitchTester.Tester.UpdateState | src/components/twitch-tester.tsx:140-146 | one field changes, and local storage holds the new state |
| TwitchTester.Tester.HandleTokenExchange | src/components/twitch-tester.tsx:148-187 | incomplete settings give the error and no request; otherwise exactly one authorization_code POST is made and the reply is applied as `ExchangeOutcome` |
| TwitchTester.Tester.HandleRefreshToken | src/components/twitch-tester.tsx:189-224 | no refresh token gives the error and no request; otherwise exactly one refresh POST is made and the reply is applied as `RefreshOutcome` |
| TwitchTester.Tester.HandleLogout | src/components/twitch-tester.tsx:286-296 | idle status, the call record and error cleared, tokens blanked, storage updated |
| TwitchTester.Tester.ApiCallGuard | src/components/twitch-tester.tsx:226-245 | the Helix call proceeds iff there is an access token and the body is empty or valid JSON; each refusal sets its message |
| TwitchTester.Tester.RestorePendingCode | src/components/twitch-tester.tsx:305-311 | with complete settings and a stored code, the code is removed and then exchanged; otherwise nothing changes |
| TwitchTester.Tester.OnMessage | src/components/twitch-tester.tsx:313-331 | a rejected message changes nothing; an accepted code is exchanged when the settings are complete, and is otherwise parked in session storage with an error |
| TwitchTester.Tester.ExpiryLine | src/components/twitch-tester.tsx:589-622 | no line unless the status is success; on success the line is the expiry notice of the stored expiry: present for a non-zero expiry, "expired" iff the countdown is 0, otherwise the countdown's seconds |
| TwitchLogin.HexBytePair | src/app/twitch/twitch-login-client.tsx:229 | `byte.toString(16).padStart(2, "0")` is always the two hex digits of the byte, high nibble first |
| TwitchLogin.HexState | src/app/twitch/twitch-login-client.tsx:227-229 | the state is two lowercase hex digits per byte, in byte order |
| TwitchLogin.HexStateRoundTrip | src/app/twitch/twitch-login-client.tsx:229 | decoding the state gives back the bytes, so distinct byte strings give distinct states |
| TwitchLogin.StoredStateCheck | src/app/twitch/twitch-login-client.tsx:171-175 | with a stored login state, a returned state is refused iff it is non-empty and different; echoing the stored one always passes |
| TwitchLogin.AuthorizeUrl | src/app/twitch/twitch-login-client.tsx:232-239 | the consent URL carries exactly client_id, redirect_uri, response_type=code, scope and state |
| TwitchLogin.StripRedirectParamsSpec | src/app/twitch/twitch-login-client.tsx:258-263 | stripping removes exactly code, scope, state, error and error_description and keeps the rest in order |
| TwitchLogin.BackendRequestShape | src/app/twitch/twitch-login-client.tsx:139-152 | the backend POST has a JSON content type, a bearer header iff the backend token is non-empty, and provider TWITCH with both tokens |
| TwitchLogin.SendTokensSpec | src/app/twitch/twitch-login-client.tsx:130-167 | with no backend URL, the status is an error and no request is made; otherwise exactly one request is made and the status carries the response text or "HTTP n" (success when ok, error otherwise), or the thrown message; nothing but the backend status and the log changes |
| TwitchLogin.ExchangeRefusesForgedState | src/app/twitch/twitch-login-client.tsx:171-175 | a mismatching state is refused before the configuration check, with no request |
| TwitchLogin.ExchangeNeedsConfiguration | src/app/twitch/twitch-login-client.tsx:176-179 | missing configuration fails with no request; complete configuration always makes a request |
| TwitchLogin.ExchangeOutcomeSpec | src/app/twitch/twitch-login-client.tsx:181-216 | the token POST is made first; a refusal keeps the tokens and sets the error to the provider's message, the status fallback or the thrown error's message; a grant stores both tokens, the expiry and the scopes, reports success, and forwards the same tokens |
| TwitchLogin.ExchangeOverridesStatus | src/app/twitch/twitch-login-client.tsx:250-256 | the exchange sets the auth status on every path, so an error that came back beside a code is never the final status |
| TwitchLogin.AnswerGranted | src/app/twitch/twitch-login-client.tsx:202-212 | a granted reply stores and forwards the tokens it carries |
| TwitchLogin.RedirectEffectSpec | src/app/twitch/twitch-login-client.tsx:242-266 | with neither a code nor an error nothing changes; with either, exactly the redirect keys are removed; an error alone reports its description (or the error) and makes no request; a code starts the exchange with the returned state, after any error was reported |
| TwitchLogin.LoginClient.constructor | src/app/twitch/twitch-login-client.tsx:118-125 | the initial page state: idle, no tokens, empty backend fields |
| TwitchLogin.LoginClient.SendTokensToBackend | src/app/twitch/twitch-login-client.tsx:130-167 | the new session is `SendTokens` of the old one; only the backend status and the log may change |
| TwitchLogin.LoginClient.ExchangeCodeForToken | src/app/twitch/twitch-login-client.tsx:169-219 | the new session is `ExchangeCode` of the old one with the stored state; storage, settings and address are untouched |
| TwitchLogin.LoginClient.RequestToken | src/app/twitch/twitch-login-client.tsx:181-216 | after the checks: the token POST is logged and the reply is applied as `Answer` |
| TwitchLogin.LoginClient.HandleLogin | src/app/twitch/twitch-login-client.tsx:221-240 | without a client id or redirect URI: the error and nothing stored; otherwise the 32-digit hex state is stored and the consent URL carries it and every scope |
| TwitchLogin.LoginClient.HandleRedirect | src/app/twitch/twitch-login-client.tsx:242-266 | the session and the address become `RedirectEffect` of the old ones |
| TwitchLogin.LoginClient.ExpiresIn | src/app/twitch/twitch-login-client.tsx:268-270 | no countdown iff there is no expiry (or it is 0); otherwise non-negative |
| AuthCallback.FirstValue | src/app/auth/callback/page.tsx:11-25 | `code` and `error`: the string, the first repetition, or "" when absent or empty |
| AuthCallback.Scope | src/app/auth/callback/page.tsx:16-20 | `scope`: the string, or every repetition joined with single spaces, or "" |
| AuthCallback.NormalisationAgrees | src/app/auth/callback/page.tsx:11-25 | a value given once reads the same as a string or as a one-element list |
| AuthCallback.RelayMessage | src/app/auth/callback/page.tsx:31 | the relayed message has type "twitch-auth-code", the code and the scope |
| AuthCallback.RelaySpec | src/app/auth/callback/page.tsx:27-37 | new messages go only to the page's own origin, and the status turns sent only with the code stored; without a code or when posting throws nothing changes; otherwise the message goes out (if there is an opener), then the code is stored and the status sent unless storing throws |
| AuthCallback.Render | src/app/auth/callback/page.tsx:39-108 | an error wins over a code, then a missing code, then the code view with a scope line iff the scope is non-empty |
| AuthCallback.CallbackPage.constructor | src/app/auth/callback/page.tsx:10 | the status starts pending |
| AuthCallback.CallbackPage.RelayEffect | src/app/auth/callback/page.tsx:27-37 | the page's state becomes `Relay` of the old one |
| AuthCallback.CallbackPage.CopyCode | src/app/auth/callback/page.tsx:90-92 | a completed clipboard write sets the status to copied, and nothing else changes |
| CodeRelay.RelayedCodeArrives | src/app/auth/callback/page.tsx:31-32 | the callback's message reaches a tester window iff it is at the same origin, and the listener then accepts exactly the callback's code; the session-storage copy is under the key the tester reads |
| CodeRelay.RelayStaysSameOrigin | src/app/auth/callback/page.tsx:31 | no message from the relay is delivered to another origin |
| ClipStats.ClipsRequestQuery | src/components/clip-stats.tsx:88-94 | a clips request asks for broadcaster_id and first=100, and carries `after` iff there is a cursor |
| ClipStats.StopFrom | src/components/clip-stats.tsx:87-123 | the first page from k on that ends the loop |
| ClipStats.PagesUsed | src/components/clip-stats.tsx:87-123 | the number of pages requested: every page before the last continued the loop, and the last one ends it |
| ClipStats.ClipsRequests | src/components/clip-stats.tsx:88-101 | the k-th clips request carries the cursor of the page before it |
| ClipStats.CursorChain | src/components/clip-stats.tsx:88-118 | the first clips request has no `after`; each later one carries the previous page's cursor |
| ClipStats.TotalViewsAppend | src/components/clip-stats.tsx:127 | the view total of two clip lists is the sum of their totals |
| ClipStats.TotalViewsBounds | src/components/clip-stats.tsx:127 | with non-negative view counts, the total is at least each clip's count and at least 0 |
| ClipStats.Pagination | src/components/clip-stats.tsx:83-124 | the loop's outcome, decided by the page that ends it |
| ClipStats.PaginateAgrees | src/components/clip-stats.tsx:87-124 | running the loop page by page gives `Pagination`, and runs out of replies iff no page ends it |
| ClipStats.PaginationStops | src/components/clip-stats.tsx:103-123 | every page before the last one read was a success with a cursor; the loop collects iff the last one read succeeded, and otherwise fails with its message |
| ClipStats.PaginationGathers | src/components/clip-stats.tsx:109-123 | the collected clips are every clip of the pages read, in order; the loop stopped on a missing cursor or at 1000 or more, and overshoots 1000 by less than one page |
| ClipStats.SearchSpec | src/components/clip-stats.tsx:58-135 | the user lookup comes first; an empty lookup ends the search with "not found"; a result reports the first user, the gathered clips, their number and their summed views, after one clips request per page read |
| ClipStats.CapOvershoots | src/components/clip-stats.tsx:120-123 | the cap is checked after appending, so 999 clips and a page of 100 give 1099 |
| ClipStats.ClipStatsPanel.constructor | src/components/clip-stats.tsx:38-41 | empty name, not loading, no error, no result |
| ClipStats.ClipStatsPanel.HandleSearch | src/components/clip-stats.tsx:43-142 | a blank name or missing authentication sets its error with no request; otherwise the log grows by the search's requests, the result or the error is set, and loading ends false |
| ClipStats.ClipStatsPanel.RunSearch | src/components/clip-stats.tsx:58-138 | the `try` block: the requests and the result or error of `Search` |
| ClipStats.ClipStatsPanel.FetchAllClips | src/components/clip-stats.tsx:83-124 | the `while` loop returns `Pagination`'s clips or failure message, after exactly its clips requests |
| Proxy.MessageBody | src/app/api/auth/token/route.ts:19-44 | the routes' error body has the message under `message` |
| Proxy.FormValue | src/app/api/auth/token/route.ts:24-30 | a string field goes into the form unchanged |
| Proxy.TruthyFormValue | src/app/api/auth/token/route.ts:17-30 | a field that passes the `!field` check never becomes an empty form value |
| Proxy.PassThrough | src/app/api/auth/token/route.ts:38-47 | the provider's status and JSON are returned verbatim; a failed exchange gives 500 with the route's message |
| TokenRoute.Post | src/app/api/auth/token/route.ts:12-48 | a request goes upstream iff the body parses, is not null, and has all four fields truthy; it is then the authorization_code POST and the reply passes through; a missing field gives 400 with its message; an unreadable or null body gives 500 |
| TokenRoute.ExchangeFormReadsBack | src/app/api/auth/token/route.ts:24-30 | the forwarded form reads back the caller's client_id, client_secret, code and redirect_uri, with grant_type=authorization_code |
| TokenRoute.StringFieldsForwarded | src/app/api/auth/token/route.ts:14-36 | a body of four non-empty strings is forwarded as a form POST to the token endpoint carrying exactly those strings |
| TokenRoute.ForwardedNeverBlank | src/app/api/auth/token/route.ts:17-30 | no forwarded form value is empty |
| TokenRoute.StatusPassesThrough | src/app/api/auth/token/route.ts:38-40 | any provider status and body come back unchanged |
| RefreshRoute.RefreshForm | src/app/api/auth/refresh/route.ts:23-28 | the refresh form is exactly client_id, client_secret, refresh_token, grant_type=refresh_token, in that order |
| RefreshRoute.Post | src/app/api/auth/refresh/route.ts:11-46 | a request goes upstream iff the body parses, is not null, and has all three fields truthy; it is then the refresh POST and the reply passes through; a missing field gives 400; an unreadable or null body gives 500 |
| RefreshRoute.RefreshFormReadsBack | src/app/api/auth/refresh/route.ts:23-28 | the forwarded form reads back the caller's client_id, client_secret and refresh_token, with grant_type=refresh_token |
| RefreshRoute.StringFieldsForwarded | src/app/api/auth/refresh/route.ts:13-34 | a body of three non-empty strings is forwarded as a form POST to the token endpoint carrying exactly those strings |
| RefreshRoute.ForwardedNeverBlank | src/app/api/auth/refresh/route.ts:16-28 | no forwarded form value is empty |
| RefreshRoute.StatusPassesThrough | src/app/api/auth/refresh/route.ts:36-38 | any provider status and body come back unchanged |
| Env.MissingMessage | src/lib/env.ts:8 | the error message is the variable's name followed by the fixed suffix |
| Env.ReadEnv | src/lib/env.ts:5-11 | the value iff the variable is set and non-empty; otherwise the error naming it |
| Env.MissingMessageNamesKey | src/lib/env.ts:8 | two variables never share an error message |
| Env.TwitchEnvReads | src/lib/env.ts:13-17 | clientId, clientSecret and callbackUri read TWITCH_CLIENT_ID, TWITCH_CLIENT_SECRET and TWITCH_CALLBACK_URI |
| Env.Summarize | src/lib/env.ts:19-21 | one entry per key, in order, configured iff reading it would succeed |
| Env.SummaryAgreesWithReaders | src/lib/env.ts:1-21 | the summary lists the three required variables in declared order, each configured iff its reader succeeds |

## Left out

- Sending the requests is out of scope: `fetch`, `response.json()` and `text()`, `NextResponse`, percent-encoding and `JSON.parse`/`stringify`. Requests are logged as values, and replies are parameters.
- Randomness and time are out of scope: the 16 state bytes and `Date.now()` are parameters. `performance.now()` and `durationMs` are floating-point timing.
- Browser side effects are not modelled: navigation to the consent URL (the URL is returned instead), `history.replaceState` (the address's query is a field), `window.focus`, `window.close`, `alert` and the clipboard write itself.
- The `typeof window === "undefined"` branches are not modelled, except in `loadPersistedState`: the effects only run in a browser.
- React scheduling and interleaving are not modelled. Each handler runs to completion atomically. The source has no single-flight or stale-response guard, and none is added.
- The rest of `handleApiCall` after its guard is not modelled: sending the Helix call, recording headers and body, and the JSON fallback text. It is I/O and display.
- Presentation is not modelled: JSX, styling, the toggles (`forceVerify`, scope checkboxes, form inputs) other than through `UpdateState`, and the clip list's number and date formatting.
- TwitchTester.Tester.Valid: the `catch` of `persistState` is not modelled. When `setItem` throws (quota or disabled storage), the source only warns and keeps the old stored value. The model always stores, so `Valid` (local storage holds the current state) claims more than a page with failing storage gets.
- `loadPersistedState` does not check JSON types: a stored member of the wrong type is not representable in the model.
- ClipStats.ClipStatsPanel.HandleSearch: requires that some page in the given replies ends the loop. Against a provider that returns a cursor forever with empty pages, the source loops without end; the model does not cover that run.
- TwitchLogin.LoginClient.HandleLogin: the scope catalogue is held in the `scopes` field, set to `AllScopes` by the constructor, so proofs about a login do not unfold the 81-entry literal.
- Proxy.Upstream: a reply whose status `NextResponse.json` would reject, such as one outside 200–599, is not distinguished from one it accepts.
- The login page's ordering of `setAuthStatus` inside the exchange is not modelled: the `loading` status is overwritten in the same call, so only the final status is visible.
