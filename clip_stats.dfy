/** The clip statistics panel: it looks a streamer up by login name, then pages through the
    streamer's clips a hundred at a time, following the pagination cursor until there is none
    or at least 1000 clips are gathered, and reports the clip count and the summed views. */
module ClipStats {
  import opened Web

  const UsersEndpoint := "https://api.twitch.tv/helix/users"
  const ClipsEndpoint := "https://api.twitch.tv/helix/clips"

  /** The count at or above which no further page is requested. */
  const ClipCap := 1000

  const NameMissingMessage := "스트리머 이름을 입력해주세요."
  const AuthMissingMessage := "먼저 Twitch 인증을 완료해주세요."
  const UserLookupPrefix := "사용자 정보 조회 실패"
  const NotFoundMessage := "해당 스트리머를 찾을 수 없습니다."
  const ClipsPrefix := "클립 조회 실패"
  const UnknownMessage := "알 수 없는 오류가 발생했습니다."

  /** A clip, as far as the statistics look into it. */
  datatype Clip = Clip(id: string, viewCount: int)

  datatype User = User(id: string, displayName: string)

  /** The user lookup: a 2xx reply with its `data` (absent when the body has none), another
      status, or a rejection carrying the thrown message when there is one. */
  datatype UserReply = UserOk(users: Option<seq<User>>) | UserNotOk(status: int) | UserThrew(error: Option<string>)

  /** One page of clips: a 2xx reply with its `data` and `pagination.cursor`, another status,
      or a rejection. */
  datatype PageReply = PageOk(data: Option<seq<Clip>>, cursor: Option<string>) | PageNotOk(status: int) | PageThrew(error: Option<string>)

  datatype ClipStatsResult = ClipStatsResult(
    totalClips: int,
    totalViews: int,
    clips: seq<Clip>,
    broadcasterName: string,
    broadcasterId: string)

  /** The failure message for a non-2xx status: `<prefix> (<status>)`. */
  function StatusError(prefix: string, status: int): string {
    prefix + " (" + Decimal(status) + ")"
  }

  /** Both Helix calls carry the client id and the bearer token. */
  function HelixHeaders(clientId: string, accessToken: string): seq<Param> {
    [Param("Client-Id", clientId), Param("Authorization", "Bearer " + accessToken)]
  }

  function UserRequest(login: string, clientId: string, accessToken: string): Request {
    Request("GET", UsersEndpoint, [Param("login", login)], HelixHeaders(clientId, accessToken), NoBody)
  }

  /** A clips request: broadcaster and page size, then `after` only when there is a cursor. */
  function ClipsRequest(broadcasterId: string, cursor: Option<string>, clientId: string, accessToken: string): Request {
    Request("GET", ClipsEndpoint,
      [Param("broadcaster_id", broadcasterId), Param("first", "100")]
      + (if Present(cursor) then [Param("after", cursor.value)] else []),
      HelixHeaders(clientId, accessToken), NoBody)
  }

  /** A clips request asks for the broadcaster's clips a hundred at a time, and carries
      `after` exactly when there is a cursor. */
  lemma ClipsRequestQuery(broadcasterId: string, cursor: Option<string>, clientId: string, accessToken: string)
    ensures var q := ClipsRequest(broadcasterId, cursor, clientId, accessToken).query;
      && Lookup(q, "broadcaster_id") == Some(broadcasterId) && Lookup(q, "first") == Some("100")
      && Lookup(q, "after") == (if Present(cursor) then cursor else None)
  {
    var q := ClipsRequest(broadcasterId, cursor, clientId, accessToken).query;
    assert q[0].key == "broadcaster_id" && q[1].key == "first";
    if Present(cursor) {
      assert q[2] == Param("after", cursor.value);
      assert Lookup(q[2..], "after") == Some(cursor.value);
    } else {
      assert q == [Param("broadcaster_id", broadcasterId), Param("first", "100")];
    }
  }

  // ---------------------------------------------------------------------------
  // Pagination, stated over the sequence of page replies

  /** The clips a page adds: its data, or nothing when the body has none. */
  function PageClips(p: PageReply): seq<Clip> {
    if p.PageOk? && p.data.Some? then p.data.value else []
  }

  /** The clips of the first `n` pages, in order. */
  function Gathered(pages: seq<PageReply>, n: nat): (r: seq<Clip>)
    requires n <= |pages|
  {
    if n == 0 then [] else Gathered(pages, n - 1) + PageClips(pages[n - 1])
  }

  /** The loop goes on after page `k`: it was a success with a cursor and fewer than 1000 clips
      are gathered so far. */
  predicate Continues(pages: seq<PageReply>, k: nat)
    requires k < |pages|
  {
    pages[k].PageOk? && Present(pages[k].cursor) && |Gathered(pages, k + 1)| < ClipCap
  }

  /** The replies cover the whole loop: some page ends it. */
  predicate Stops(pages: seq<PageReply>) {
    exists k :: 0 <= k < |pages| && !Continues(pages, k)
  }

  /** The index of the page that ends the loop, looking from `k` on. */
  function StopFrom(pages: seq<PageReply>, k: nat): (r: nat)
    requires k <= |pages|
    requires exists j :: k <= j < |pages| && !Continues(pages, j)
    ensures k <= r < |pages| && !Continues(pages, r)
    ensures forall j :: k <= j < r ==> Continues(pages, j)
    decreases |pages| - k
  {
    if !Continues(pages, k) then k else StopFrom(pages, k + 1)
  }

  /** The number of pages requested. */
  function PagesUsed(pages: seq<PageReply>): (n: nat)
    requires Stops(pages)
    ensures 1 <= n <= |pages| && !Continues(pages, n - 1)
    ensures forall j :: 0 <= j < n - 1 ==> Continues(pages, j)
  {
    StopFrom(pages, 0) + 1
  }

  /** The `after` value of the k-th clips request: none for the first, the previous page's
      cursor afterwards. */
  function AfterFor(pages: seq<PageReply>, k: nat): Option<string>
    requires k < |pages|
  {
    if k == 0 || !pages[k - 1].PageOk? then None else pages[k - 1].cursor
  }

  /** The clips requests of the first `n` pages. */
  function ClipsRequests(broadcasterId: string, pages: seq<PageReply>, n: nat, clientId: string, accessToken: string): (r: seq<Request>)
    requires n <= |pages|
    ensures |r| == n
    ensures forall k :: 0 <= k < n ==> r[k] == ClipsRequest(broadcasterId, AfterFor(pages, k), clientId, accessToken)
  {
    if n == 0 then []
    else ClipsRequests(broadcasterId, pages, n - 1, clientId, accessToken) + [ClipsRequest(broadcasterId, AfterFor(pages, n - 1), clientId, accessToken)]
  }

  /** The cursor chain: the first clips request has no `after`, and while the loop goes on
      each later one carries the cursor of the page before it. */
  lemma CursorChain(broadcasterId: string, pages: seq<PageReply>, n: nat, clientId: string, accessToken: string)
    requires 1 <= n <= |pages|
    requires forall j :: 0 <= j < n - 1 ==> Continues(pages, j)
    ensures var reqs := ClipsRequests(broadcasterId, pages, n, clientId, accessToken);
      && Lookup(reqs[0].query, "after") == None
      && forall k :: 0 <= k < n - 1 ==> pages[k].PageOk? && Lookup(reqs[k + 1].query, "after") == pages[k].cursor
  {
    var reqs := ClipsRequests(broadcasterId, pages, n, clientId, accessToken);
    ClipsRequestQuery(broadcasterId, None, clientId, accessToken);
    forall k | 0 <= k < n - 1
      ensures pages[k].PageOk? && Lookup(reqs[k + 1].query, "after") == pages[k].cursor
    {
      assert Continues(pages, k);
      ClipsRequestQuery(broadcasterId, AfterFor(pages, k + 1), clientId, accessToken);
    }
  }

  /** `allClips.reduce((sum, clip) => sum + clip.view_count, 0)`. */
  function TotalViews(clips: seq<Clip>): int {
    if clips == [] then 0 else TotalViews(clips[..|clips| - 1]) + clips[|clips| - 1].viewCount
  }

  lemma {:induction false} TotalViewsAppend(a: seq<Clip>, b: seq<Clip>)
    ensures TotalViews(a + b) == TotalViews(a) + TotalViews(b)
    decreases |b|
  {
    if b != [] {
      assert (a + b)[..|a + b| - 1] == a + b[..|b| - 1];
      TotalViewsAppend(a, b[..|b| - 1]);
    } else {
      assert a + b == a;
    }
  }

  /** The total counts every clip's views: with no negative view count it is at least each
      single count, and it is zero for no clips. */
  lemma {:induction false} TotalViewsBounds(clips: seq<Clip>)
    requires forall i :: 0 <= i < |clips| ==> clips[i].viewCount >= 0
    ensures TotalViews(clips) >= 0
    ensures forall i :: 0 <= i < |clips| ==> clips[i].viewCount <= TotalViews(clips)
  {
    if clips != [] {
      var init := clips[..|clips| - 1];
      TotalViewsBounds(init);
      assert forall i :: 0 <= i < |init| ==> init[i] == clips[i];
    }
  }

  /** How the pagination loop ends: with the gathered clips, or with a failed page's message,
      after `used` clips requests; or the given replies ran out first. */
  datatype Pages = Collected(clips: seq<Clip>, used: nat) | PageFailed(message: string, used: nat) | OutOfReplies

  /** The failure a page that is not a success reports. */
  function PageError(p: PageReply): string
    requires !p.PageOk?
  {
    match p
    case PageNotOk(status) => StatusError(ClipsPrefix, status)
    case PageThrew(e) => e.GetOr(UnknownMessage)
  }

  /** The outcome stated over the pages: the page that ends the loop decides between the clips
      of every page read so far and that page's failure. */
  function Pagination(pages: seq<PageReply>): (r: Pages)
    requires Stops(pages)
    ensures !r.OutOfReplies? && r.used == PagesUsed(pages)
  {
    var n := PagesUsed(pages);
    if pages[n - 1].PageOk? then Collected(Gathered(pages, n), n) else PageFailed(PageError(pages[n - 1]), n)
  }

  /** The loop itself, one iteration per call: page `i` is read with `clips` gathered so far. */
  function Paginate(pages: seq<PageReply>, i: nat, clips: seq<Clip>): Pages
    requires i <= |pages|
    decreases |pages| - i
  {
    if i == |pages| then OutOfReplies
    else match pages[i]
      case PageOk(data, next) =>
        var gathered := if data.Some? && |data.value| > 0 then clips + data.value else clips;
        if Present(next) && |gathered| < ClipCap then Paginate(pages, i + 1, gathered) else Collected(gathered, i + 1)
      case _ => PageFailed(PageError(pages[i]), i + 1)
  }

  /** The loop computes the outcome stated over the pages, and it runs out of replies exactly
      when no page ends it. */
  lemma {:induction false} PaginateAgrees(pages: seq<PageReply>, i: nat)
    requires i <= |pages|
    requires forall j :: 0 <= j < i ==> Continues(pages, j)
    ensures Stops(pages) ==> Paginate(pages, i, Gathered(pages, i)) == Pagination(pages)
    ensures !Stops(pages) ==> Paginate(pages, i, Gathered(pages, i)).OutOfReplies?
    decreases |pages| - i
  {
    if i == |pages| {
      assert !Stops(pages);
    } else {
      var page := pages[i];
      assert PageClips(page) == (if page.PageOk? && page.data.Some? && |page.data.value| > 0 then page.data.value else []);
      assert Gathered(pages, i + 1) == Gathered(pages, i) + PageClips(page);
      if page.PageOk? {
        var gathered := if page.data.Some? && |page.data.value| > 0 then Gathered(pages, i) + page.data.value else Gathered(pages, i);
        assert Gathered(pages, i) + [] == Gathered(pages, i);
        assert gathered == Gathered(pages, i + 1);
      }
      if Continues(pages, i) {
        PaginateAgrees(pages, i + 1);
        assert Paginate(pages, i, Gathered(pages, i)) == Paginate(pages, i + 1, Gathered(pages, i + 1));
      } else {
        assert Stops(pages);
        assert PagesUsed(pages) == i + 1;
      }
    }
  }

  /** Where the loop stops: every page before the last one read was a success with a cursor;
      the last one decides between collecting and failing with its message. */
  lemma PaginationStops(pages: seq<PageReply>)
    requires Stops(pages)
    ensures 1 <= Pagination(pages).used <= |pages|
    ensures forall k :: 0 <= k < Pagination(pages).used - 1 ==> pages[k].PageOk? && Present(pages[k].cursor)
    ensures Pagination(pages).Collected? <==> pages[Pagination(pages).used - 1].PageOk?
    ensures Pagination(pages).PageFailed? ==> Pagination(pages).message == PageError(pages[Pagination(pages).used - 1])
  {
    var n := PagesUsed(pages);
    forall k | 0 <= k < n - 1
      ensures pages[k].PageOk? && Present(pages[k].cursor)
    {
      assert Continues(pages, k);
    }
  }

  /** What the loop gathers: every clip of the pages it read, in order. It stops at a page
      without a cursor or once the count reaches 1000, so the count exceeds 1000 by less than
      the last page's size. */
  lemma PaginationGathers(pages: seq<PageReply>)
    requires Stops(pages) && Pagination(pages).Collected?
    ensures Pagination(pages).clips == Gathered(pages, Pagination(pages).used)
    ensures !Present(pages[Pagination(pages).used - 1].cursor) || |Pagination(pages).clips| >= ClipCap
    ensures |Pagination(pages).clips| < ClipCap + |PageClips(pages[Pagination(pages).used - 1])|
  {
    var n := PagesUsed(pages);
    assert Gathered(pages, n) == Gathered(pages, n - 1) + PageClips(pages[n - 1]);
    assert !Continues(pages, n - 1);
    if n >= 2 {
      assert Continues(pages, n - 2);
    }
  }

  /** What a search does after the guards: the outcome, and the requests it sends. */
  datatype SearchRun = SearchRun(outcome: Result<ClipStatsResult, string>, requests: seq<Request>)

  function Search(login: string, clientId: string, accessToken: string, userReply: UserReply, pages: seq<PageReply>): SearchRun
    requires Stops(pages)
  {
    var lookup := UserRequest(login, clientId, accessToken);
    match userReply
    case UserNotOk(status) => SearchRun(Err(StatusError(UserLookupPrefix, status)), [lookup])
    case UserThrew(e) => SearchRun(Err(e.GetOr(UnknownMessage)), [lookup])
    case UserOk(users) =>
      if users.None? || users.value == [] then SearchRun(Err(NotFoundMessage), [lookup])
      else
        var user := users.value[0];
        var r := Pagination(pages);
        var sent := [lookup] + ClipsRequests(user.id, pages, r.used, clientId, accessToken);
        if r.PageFailed? then SearchRun(Err(r.message), sent)
        else SearchRun(Ok(ClipStatsResult(|r.clips|, TotalViews(r.clips), r.clips, user.displayName, user.id)), sent)
  }

  /** A search first looks the name up; a missing user ends it there. A successful search
      reports the gathered clips, their number and their summed views for the first user
      found, after one clips request per page read (whose `after` values `CursorChain`
      describes). */
  lemma SearchSpec(login: string, clientId: string, accessToken: string, userReply: UserReply, pages: seq<PageReply>)
    requires Stops(pages)
    ensures var run := Search(login, clientId, accessToken, userReply, pages);
      && |run.requests| >= 1 && run.requests[0] == UserRequest(login, clientId, accessToken)
      && (userReply.UserOk? && (userReply.users.None? || userReply.users.value == []) ==>
            run == SearchRun(Err(NotFoundMessage), [UserRequest(login, clientId, accessToken)]))
      && (run.outcome.Ok? ==>
            var r := run.outcome.value;
            && userReply.UserOk? && userReply.users.Some? && userReply.users.value != []
            && r.broadcasterId == userReply.users.value[0].id
            && r.broadcasterName == userReply.users.value[0].displayName
            && r.clips == Pagination(pages).clips
            && r.totalClips == |r.clips| && r.totalViews == TotalViews(r.clips)
            && run.requests == [UserRequest(login, clientId, accessToken)]
                 + ClipsRequests(r.broadcasterId, pages, PagesUsed(pages), clientId, accessToken))
  {
  }

  /** The 1000-clip cap is checked after a page is appended: 999 clips and a cursor, then a page
      of 100, gives 1099. */
  lemma CapOvershoots(first: seq<Clip>, second: seq<Clip>)
    requires |first| == 999 && |second| == 100
    ensures var pages := [PageOk(Some(first), Some("next")), PageOk(Some(second), Some("more"))];
      && Stops(pages)
      && Pagination(pages) == Collected(first + second, 2)
      && |Pagination(pages).clips| == 1099
  {
    var pages := [PageOk(Some(first), Some("next")), PageOk(Some(second), Some("more"))];
    assert Gathered(pages, 1) == first by { assert Gathered(pages, 0) == []; }
    assert Gathered(pages, 2) == first + second;
    assert Continues(pages, 0);
    assert !Continues(pages, 1);
    assert PagesUsed(pages) == 2;
  }

  /** The panel: the props, the input field, and the state `handleSearch` writes, with the log
      of sent requests. */
  class ClipStatsPanel {
    const accessToken: string
    const clientId: string
    var streamerName: string
    var loading: bool
    var error: Option<string>
    var result: Option<ClipStatsResult>
    var requests: seq<Request>

    constructor (accessToken: string, clientId: string)
      ensures this.accessToken == accessToken && this.clientId == clientId
      ensures streamerName == "" && !loading && error.None? && result.None? && requests == []
    {
      this.accessToken := accessToken;
      this.clientId := clientId;
      streamerName := "";
      loading := false;
      error := None;
      result := None;
      requests := [];
    }

    /** `handleSearch`. The Helix replies are parameters: the user lookup's, and one per clips
        request in order. */
    method HandleSearch(userReply: UserReply, pages: seq<PageReply>)
      requires Stops(pages)
      modifies this
      ensures streamerName == old(streamerName)
      ensures Trim(streamerName) == "" ==>
                error == Some(NameMissingMessage) && loading == old(loading) && result == old(result) && requests == old(requests)
      ensures Trim(streamerName) != "" && (accessToken == "" || clientId == "") ==>
                error == Some(AuthMissingMessage) && loading == old(loading) && result == old(result) && requests == old(requests)
      ensures Trim(streamerName) != "" && accessToken != "" && clientId != "" ==>
                var run := Search(Trim(streamerName), clientId, accessToken, userReply, pages);
                && !loading
                && requests == old(requests) + run.requests
                && (run.outcome.Ok? ==> result == Some(run.outcome.value) && error.None?)
                && (run.outcome.Err? ==> result.None? && error == Some(run.outcome.error))
    {
      var login := Trim(streamerName);
      if login == "" {
        error := Some(NameMissingMessage);
        return;
      }
      if accessToken == "" || clientId == "" {
        error := Some(AuthMissingMessage);
        return;
      }
      loading := true;
      error := None;
      result := None;
      RunSearch(login, userReply, pages);
      loading := false;
    }

    /** The body of the `try` block: the user lookup, then the clips loop, then the totals. */
    method RunSearch(login: string, userReply: UserReply, pages: seq<PageReply>)
      requires Stops(pages) && error.None? && result.None?
      modifies this`requests, this`error, this`result
      ensures var run := Search(login, clientId, accessToken, userReply, pages);
        && requests == old(requests) + run.requests
        && (run.outcome.Ok? ==> result == Some(run.outcome.value) && error.None?)
        && (run.outcome.Err? ==> result.None? && error == Some(run.outcome.error))
    {
      requests := requests + [UserRequest(login, clientId, accessToken)];
      match userReply {
        case UserNotOk(status) =>
          error := Some(StatusError(UserLookupPrefix, status));
          return;
        case UserThrew(e) =>
          error := Some(e.GetOr(UnknownMessage));
          return;
        case UserOk(users) =>
          if users.None? || users.value == [] {
            error := Some(NotFoundMessage);
            return;
          }
      }
      var broadcasterId := userReply.users.value[0].id;
      var broadcasterName := userReply.users.value[0].displayName;
      var clips := FetchAllClips(broadcasterId, pages);
      match clips {
        case Err(message) =>
          error := Some(message);
        case Ok(allClips) =>
          var totalViews := TotalViews(allClips);
          result := Some(ClipStatsResult(|allClips|, totalViews, allClips, broadcasterName, broadcasterId));
      }
    }

    /** The `while (hasMore)` loop: one clips request per iteration; a failed page ends it with
        that page's message, as the thrown error would. */
    method FetchAllClips(broadcasterId: string, pages: seq<PageReply>) returns (outcome: Result<seq<Clip>, string>)
      requires Stops(pages)
      modifies this`requests
      ensures Pagination(pages).Collected? ==> outcome == Ok(Pagination(pages).clips)
      ensures Pagination(pages).PageFailed? ==> outcome == Err(Pagination(pages).message)
      ensures requests == old(requests) + ClipsRequests(broadcasterId, pages, Pagination(pages).used, clientId, accessToken)
    {
      PaginateAgrees(pages, 0);
      ghost var before := requests;
      var allClips: seq<Clip> := [];
      var cursor: Option<string> := None;
      var hasMore := true;
      var i := 0;
      while hasMore
        invariant 0 <= i <= |pages|
        invariant hasMore ==> Paginate(pages, i, allClips) == Pagination(pages) && cursor == AfterFor(pages, i)
        invariant !hasMore ==> Pagination(pages) == Collected(allClips, i)
        invariant requests == before + ClipsRequests(broadcasterId, pages, i, clientId, accessToken)
        decreases |pages| - i
      {
        requests := requests + [ClipsRequest(broadcasterId, cursor, clientId, accessToken)];
        var page := pages[i];
        if !page.PageOk? {
          return Err(PageError(page));
        }
        if page.data.Some? && |page.data.value| > 0 {
          allClips := allClips + page.data.value;
        }
        if Present(page.cursor) {
          cursor := page.cursor;
        } else {
          hasMore := false;
        }
        if |allClips| >= ClipCap {
          hasMore := false;
        }
        i := i + 1;
      }
      return Ok(allClips);
    }
  }
}
