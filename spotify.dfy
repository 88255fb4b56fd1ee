/** The Spotify Web API client's control logic (src/lib/spotify.ts): the 401/429
    retry policy of `fetch`, the pagination loops and the batching of deletes.

    The network is an oracle. `net(k)` is the reply to the client's k-th request
    and `auth(k)` what its k-th call to the refresh route produced (the new access
    token, or None when the route answered non-ok or the call threw). Response
    bodies are not interpreted by the policy; the pages and delete calls are
    given their own per-call oracles. */
module SpotifyApi {
  import opened Types

  const MAX_RETRIES: nat := 3
  const MAX_RETRY_AFTER_SECONDS: nat := 30
  const DEFAULT_RETRY_AFTER_SECONDS: nat := 5
  const PLAYLIST_TRACKS_PAGE_LIMIT: nat := 100
  const USER_PLAYLISTS_PAGE_LIMIT: nat := 50
  const PLAYLIST_DELETE_BATCH: nat := 100
  const LIKED_DELETE_BATCH: nat := 50

  /** `Math.ceil(a / b)` on naturals. */
  function CeilDiv(a: nat, b: nat): nat
    requires b > 0
  {
    (a + b - 1) / b
  }

  // ─── The reply oracle and the outcome of a request ──────────────

  /** What `fetch(url, ...)` gave: a response (status and the parsed Retry-After
      header, None when it is missing or empty), or a rejected promise. */
  datatype Reply = Reply(status: nat, retryAfter: Option<nat>) | NetworkFailure

  predicate Ok(status: nat)
  {
    200 <= status <= 299
  }

  /** The wait the rate-limit message announces. */
  datatype WaitEstimate = Minutes(minutes: nat) | Hours(hours: nat)

  datatype FetchError =
    | SessionExpired                   // 401 and the refresh failed
    | RateLimited(wait: WaitEstimate)  // 429 asking for more than 30 s
    | TooManyRetries                   // a fourth 429 in a row
    | HttpError(status: nat)           // any other non-ok status
    | NetworkError                     // fetch itself threw

  datatype FetchOutcome = Json | NoContent | Failed(error: FetchError)

  /** The wait the message reports for `seconds`: whole minutes rounded up, or whole
      hours rounded up once that is an hour or more. */
  function EstimateWait(seconds: nat): (w: WaitEstimate)
    ensures w.Minutes? <==> CeilDiv(seconds, 60) < 60
    ensures w.Minutes? ==> w.minutes == CeilDiv(seconds, 60)
    ensures w.Hours? ==> w.hours == CeilDiv(CeilDiv(seconds, 60), 60)
  {
    var minutes := CeilDiv(seconds, 60);
    if minutes >= 60 then Hours(CeilDiv(minutes, 60)) else Minutes(minutes)
  }

  /** Rounding up twice, to minutes and then to hours, is rounding up to hours. */
  lemma {:induction false} HoursRoundUp(seconds: nat)
    requires EstimateWait(seconds).Hours?
    ensures EstimateWait(seconds).hours == CeilDiv(seconds, 3600)
  {
    var m := CeilDiv(seconds, 60);
    var h := CeilDiv(m, 60);
    assert 60 * m - 59 <= seconds <= 60 * m;
    assert 60 * h - 59 <= m <= 60 * h;
    assert 3600 * h - 3599 <= seconds <= 3600 * h;
    var c := CeilDiv(seconds, 3600);
    assert 3600 * c - 3599 <= seconds <= 3600 * c;
  }

  lemma WaitExamples()
    ensures EstimateWait(31) == Minutes(1)
    ensures EstimateWait(3540) == Minutes(59)
    ensures EstimateWait(3541) == Hours(1)
    ensures EstimateWait(86400) == Hours(24)
  {
  }

  /** The seconds a 429 asks to wait: the Retry-After header, or 5 when it is absent. */
  function RetryAfterSeconds(header: Option<nat>): (s: nat)
    ensures header.None? ==> s == DEFAULT_RETRY_AFTER_SECONDS
    ensures header.Some? ==> s == header.value
  {
    if header.Some? then header.value else DEFAULT_RETRY_AFTER_SECONDS
  }

  /** The outcome of a response that is neither handled as 401 nor as 429. */
  function PlainOutcome(status: nat): (o: FetchOutcome)
    ensures o == NoContent <==> status == 204
    ensures o == Json <==> Ok(status) && status != 204
    ensures o.Failed? <==> !Ok(status)
    ensures o.Failed? ==> o.error == HttpError(status)
  {
    if !Ok(status) then Failed(HttpError(status))
    else if status == 204 then NoContent
    else Json
  }

  // ─── The retry and refresh policy, as a specification ───────────

  /** The client's observable state: the token, the token each request carried, the
      sleeps between rate-limited attempts (seconds), the refresh attempts made, and
      the tokens handed to `onTokenRefresh`. */
  datatype ClientState = ClientState(
    accessToken: string,
    sent: seq<string>,
    sleeps: seq<nat>,
    refreshes: nat,
    announced: seq<string>)

  /** Sends one request with the current token. */
  function Send(s: ClientState): ClientState
  {
    s.(sent := s.sent + [s.accessToken])
  }

  /** `refreshToken`: one call to the refresh route; the token changes only on success. */
  function Refresh(s: ClientState, auth: nat -> Option<string>): (r: (bool, ClientState))
    ensures r.1.refreshes == s.refreshes + 1 && r.1.sent == s.sent && r.1.sleeps == s.sleeps
    ensures r.0 <==> auth(s.refreshes).Some?
    ensures r.0 ==> r.1.accessToken == auth(s.refreshes).value && r.1.announced == s.announced + [r.1.accessToken]
    ensures !r.0 ==> r.1.accessToken == s.accessToken && r.1.announced == s.announced
  {
    var attempted := s.(refreshes := s.refreshes + 1);
    match auth(s.refreshes)
    case None => (false, attempted)
    case Some(token) => (true, attempted.(accessToken := token, announced := s.announced + [token]))
  }

  /** `fetch(endpoint, options, currentRetry)` from state `s`. */
  function FetchRun(s: ClientState, net: nat -> Reply, auth: nat -> Option<string>, currentRetry: nat): (FetchOutcome, ClientState)
    requires currentRetry <= MAX_RETRIES
    decreases MAX_RETRIES - currentRetry
  {
    var s1 := Send(s);
    match net(|s.sent|)
    case NetworkFailure => (Failed(NetworkError), s1)
    case Reply(status, retryAfter) =>
      if status == 401 then
        var (refreshed, s2) := Refresh(s1, auth);
        if refreshed then
          var s3 := Send(s2);
          match net(|s2.sent|)
          case NetworkFailure => (Failed(NetworkError), s3)
          case Reply(retryStatus, _) => (PlainOutcome(retryStatus), s3)
        else (Failed(SessionExpired), s2)
      else if status == 429 then
        var seconds := RetryAfterSeconds(retryAfter);
        if seconds > MAX_RETRY_AFTER_SECONDS then (Failed(RateLimited(EstimateWait(seconds))), s1)
        else if currentRetry + 1 > MAX_RETRIES then (Failed(TooManyRetries), s1)
        else FetchRun(s1.(sleeps := s1.sleeps + [seconds]), net, auth, currentRetry + 1)
      else (PlainOutcome(status), s1)
  }

  /** A request only appends to the logs; nothing recorded earlier changes. */
  lemma {:induction false} FetchRunExtends(s: ClientState, net: nat -> Reply, auth: nat -> Option<string>, currentRetry: nat)
    requires currentRetry <= MAX_RETRIES
    ensures var t := FetchRun(s, net, auth, currentRetry).1;
      && |s.sent| < |t.sent| && t.sent[..|s.sent|] == s.sent
      && |s.sleeps| <= |t.sleeps| && t.sleeps[..|s.sleeps|] == s.sleeps
      && |s.announced| <= |t.announced| && t.announced[..|s.announced|] == s.announced
      && s.refreshes <= t.refreshes
    decreases MAX_RETRIES - currentRetry
  {
    var s1 := Send(s);
    if net(|s.sent|).Reply? && net(|s.sent|).status == 429 {
      var seconds := RetryAfterSeconds(net(|s.sent|).retryAfter);
      if seconds <= MAX_RETRY_AFTER_SECONDS && currentRetry + 1 <= MAX_RETRIES {
        var s2 := s1.(sleeps := s1.sleeps + [seconds]);
        FetchRunExtends(s2, net, auth, currentRetry + 1);
        var t := FetchRun(s2, net, auth, currentRetry + 1).1;
        assert t.sent[..|s.sent|] == t.sent[..|s2.sent|][..|s.sent|];
        assert t.sleeps[..|s.sleeps|] == t.sleeps[..|s2.sleeps|][..|s.sleeps|];
      }
    }
  }

  /** From retry counter `c`, a request makes at most `3 - c` sleeps and `3 - c + 2`
      requests (the rate-limit retries plus one 401 retry), and at most one refresh. */
  lemma {:induction false} FetchRunBounded(s: ClientState, net: nat -> Reply, auth: nat -> Option<string>, currentRetry: nat)
    requires currentRetry <= MAX_RETRIES
    ensures var t := FetchRun(s, net, auth, currentRetry).1;
      && |t.sleeps| - |s.sleeps| <= MAX_RETRIES - currentRetry
      && |t.sent| - |s.sent| <= MAX_RETRIES - currentRetry + 2
      && t.refreshes <= s.refreshes + 1
    decreases MAX_RETRIES - currentRetry
  {
    if net(|s.sent|).Reply? && net(|s.sent|).status == 429 {
      var seconds := RetryAfterSeconds(net(|s.sent|).retryAfter);
      if seconds <= MAX_RETRY_AFTER_SECONDS && currentRetry + 1 <= MAX_RETRIES {
        FetchRunBounded(Send(s).(sleeps := s.sleeps + [seconds]), net, auth, currentRetry + 1);
      }
    }
  }

  /** A 429 asking for more than 30 seconds fails at once: one request, no sleep. */
  lemma LongRetryAfterFailsFast(s: ClientState, net: nat -> Reply, auth: nat -> Option<string>, currentRetry: nat, seconds: nat)
    requires currentRetry <= MAX_RETRIES
    requires net(|s.sent|) == Reply(429, Some(seconds)) && seconds > MAX_RETRY_AFTER_SECONDS
    ensures FetchRun(s, net, auth, currentRetry) == (Failed(RateLimited(EstimateWait(seconds))), Send(s))
  {
  }

  /** A 429 without Retry-After sleeps 5 seconds before the next attempt, unless the
      retries are used up. */
  lemma MissingRetryAfterWaitsFive(s: ClientState, net: nat -> Reply, auth: nat -> Option<string>, currentRetry: nat)
    requires currentRetry < MAX_RETRIES
    requires net(|s.sent|) == Reply(429, None)
    ensures var t := FetchRun(s, net, auth, currentRetry).1;
      |t.sleeps| > |s.sleeps| && t.sleeps[|s.sleeps|] == DEFAULT_RETRY_AFTER_SECONDS
  {
    var s2 := Send(s).(sleeps := s.sleeps + [DEFAULT_RETRY_AFTER_SECONDS]);
    FetchRunExtends(s2, net, auth, currentRetry + 1);
    var t := FetchRun(s2, net, auth, currentRetry + 1).1;
    assert t.sleeps[..|s2.sleeps|] == s2.sleeps;
    assert t.sleeps[|s.sleeps|] == t.sleeps[..|s2.sleeps|][|s.sleeps|];
  }

  /** A 429 met with the retry counter at 3 throws without sleeping. */
  lemma RetriesExhausted(s: ClientState, net: nat -> Reply, auth: nat -> Option<string>, retryAfter: Option<nat>)
    requires net(|s.sent|) == Reply(429, retryAfter) && RetryAfterSeconds(retryAfter) <= MAX_RETRY_AFTER_SECONDS
    ensures FetchRun(s, net, auth, MAX_RETRIES) == (Failed(TooManyRetries), Send(s))
  {
  }

  /** Against a server that keeps answering 429 with a short Retry-After, a request from
      counter `c` gives up with "too many retries" after exactly `4 - c` attempts and
      `3 - c` sleeps. */
  lemma {:induction false} PersistentRateLimit(s: ClientState, net: nat -> Reply, auth: nat -> Option<string>, currentRetry: nat)
    requires currentRetry <= MAX_RETRIES
    requires forall k :: k >= |s.sent| ==> net(k).Reply? && net(k).status == 429 &&
                                            RetryAfterSeconds(net(k).retryAfter) <= MAX_RETRY_AFTER_SECONDS
    ensures var (o, t) := FetchRun(s, net, auth, currentRetry);
      && o == Failed(TooManyRetries)
      && |t.sent| == |s.sent| + MAX_RETRIES - currentRetry + 1
      && |t.sleeps| == |s.sleeps| + MAX_RETRIES - currentRetry
      && t.accessToken == s.accessToken && t.refreshes == s.refreshes
    decreases MAX_RETRIES - currentRetry
  {
    var reply := net(|s.sent|);
    assert reply.Reply? && reply.status == 429;
    if currentRetry < MAX_RETRIES {
      var s2 := Send(s).(sleeps := s.sleeps + [RetryAfterSeconds(reply.retryAfter)]);
      PersistentRateLimit(s2, net, auth, currentRetry + 1);
    }
  }

  /** On a 401 exactly one refresh is attempted. A failed refresh ends in "session
      expired" after the one request; a successful one sends exactly one more request,
      with the new token, whose status decides the outcome (a second 401 is not refreshed). */
  lemma UnauthorizedRefreshesOnce(s: ClientState, net: nat -> Reply, auth: nat -> Option<string>, currentRetry: nat, retryAfter: Option<nat>)
    requires currentRetry <= MAX_RETRIES
    requires net(|s.sent|) == Reply(401, retryAfter)
    ensures var (o, t) := FetchRun(s, net, auth, currentRetry);
      && t.refreshes == s.refreshes + 1 && t.sleeps == s.sleeps
      && (auth(s.refreshes).None? ==>
            o == Failed(SessionExpired) && t.sent == s.sent + [s.accessToken] && t.accessToken == s.accessToken)
      && (auth(s.refreshes).Some? ==>
            t.accessToken == auth(s.refreshes).value &&
            t.sent == s.sent + [s.accessToken, t.accessToken] &&
            t.announced == s.announced + [t.accessToken] &&
            o == (match net(|s.sent| + 1)
                  case NetworkFailure => Failed(NetworkError)
                  case Reply(status, _) => PlainOutcome(status)))
  {
  }

  /** The token changes only through a successful refresh: afterwards it is the last token
      announced to `onTokenRefresh`, or unchanged when nothing was announced. */
  lemma {:induction false} TokenChangesOnlyOnRefresh(s: ClientState, net: nat -> Reply, auth: nat -> Option<string>, currentRetry: nat)
    requires currentRetry <= MAX_RETRIES
    ensures var t := FetchRun(s, net, auth, currentRetry).1;
      && (|t.announced| == |s.announced| ==> t.accessToken == s.accessToken)
      && (|t.announced| > |s.announced| ==> t.accessToken == t.announced[|t.announced| - 1])
      && |t.announced| <= |s.announced| + 1
    decreases MAX_RETRIES - currentRetry
  {
    if net(|s.sent|).Reply? && net(|s.sent|).status == 429 {
      var seconds := RetryAfterSeconds(net(|s.sent|).retryAfter);
      if seconds <= MAX_RETRY_AFTER_SECONDS && currentRetry + 1 <= MAX_RETRIES {
        TokenChangesOnlyOnRefresh(Send(s).(sleeps := s.sleeps + [seconds]), net, auth, currentRetry + 1);
      }
    }
  }

  /** A response other than 401 and 429 decides the outcome from its status alone. */
  lemma OtherStatusDecides(s: ClientState, net: nat -> Reply, auth: nat -> Option<string>, currentRetry: nat, status: nat, retryAfter: Option<nat>)
    requires currentRetry <= MAX_RETRIES
    requires net(|s.sent|) == Reply(status, retryAfter) && status != 401 && status != 429
    ensures FetchRun(s, net, auth, currentRetry) == (PlainOutcome(status), Send(s))
  {
  }

  // ─── The client object ──────────────────────────────────────────

  class SpotifyClient {
    var accessToken: string
    /** The token each request carried, in the order they were sent. */
    var sent: seq<string>
    /** The Retry-After sleeps taken, in seconds. */
    var sleeps: seq<nat>
    /** Calls made to the refresh route. */
    var refreshes: nat
    /** The tokens handed to `onTokenRefresh`. */
    var announced: seq<string>
    const net: nat -> Reply
    const auth: nat -> Option<string>

    function State(): ClientState
      reads this
    {
      ClientState(accessToken, sent, sleeps, refreshes, announced)
    }

    constructor (accessToken: string, net: nat -> Reply, auth: nat -> Option<string>)
      ensures State() == ClientState(accessToken, [], [], 0, [])
      ensures this.net == net && this.auth == auth
    {
      this.accessToken := accessToken;
      this.net := net;
      this.auth := auth;
      sent := [];
      sleeps := [];
      refreshes := 0;
      announced := [];
    }

    /** `updateToken` */
    method UpdateToken(token: string)
      modifies this
      ensures State() == old(State()).(accessToken := token)
    {
      accessToken := token;
    }

    /** Sends one request carrying the current token. */
    method SendRequest() returns (reply: Reply)
      modifies this
      ensures reply == net(|old(sent)|)
      ensures State() == Send(old(State()))
    {
      reply := net(|sent|);
      sent := sent + [accessToken];
    }

    /** `refreshToken` */
    method RefreshToken() returns (refreshed: bool)
      modifies this
      ensures (refreshed, State()) == Refresh(old(State()), auth)
    {
      var token := auth(refreshes);
      refreshes := refreshes + 1;
      if token.None? {
        return false;
      }
      accessToken := token.value;
      announced := announced + [token.value];
      refreshed := true;
    }

    /** `fetch(endpoint, options, currentRetry)` */
    method Fetch(currentRetry: nat) returns (outcome: FetchOutcome)
      requires currentRetry <= MAX_RETRIES
      modifies this
      ensures (outcome, State()) == FetchRun(old(State()), net, auth, currentRetry)
      decreases MAX_RETRIES - currentRetry
    {
      var reply := SendRequest();
      if reply.NetworkFailure? {
        return Failed(NetworkError);
      }
      if reply.status == 401 {
        var refreshed := RefreshToken();
        if refreshed {
          var retryReply := SendRequest();
          if retryReply.NetworkFailure? {
            return Failed(NetworkError);
          }
          return PlainOutcome(retryReply.status);
        }
        return Failed(SessionExpired);
      }
      if reply.status == 429 {
        var seconds := RetryAfterSeconds(reply.retryAfter);
        if seconds > MAX_RETRY_AFTER_SECONDS {
          return Failed(RateLimited(EstimateWait(seconds)));
        }
        var nextRetry := currentRetry + 1;
        if nextRetry > MAX_RETRIES {
          return Failed(TooManyRetries);
        }
        sleeps := sleeps + [seconds];
        outcome := Fetch(nextRetry);
        return;
      }
      outcome := PlainOutcome(reply.status);
    }
  }

  // ─── Pagination ─────────────────────────────────────────────────

  /** What one page request gave: the failure `fetch` threw, or the page body. `items`
      is None when the body has no `items` array; an element is None when it is null
      (for tracks: the item's `track` is null). */
  datatype PageReply<T> = PageFailed(error: FetchError) | Page(items: Option<seq<Option<T>>>, total: nat)

  datatype PagingError = PageFetchFailed(error: FetchError) | MissingItems

  datatype Paged<T> = Collected(items: seq<T>) | PagingFailed(error: PagingError)

  /** The non-null elements of a page, in order (`filter(Boolean)`, `if (item.track)`). */
  function Kept<T>(items: seq<Option<T>>): (r: seq<T>)
    ensures |r| <= |items|
    ensures forall k :: 0 <= k < |r| ==> Some(r[k]) in items
  {
    if items == [] then []
    else Kept(items[..|items| - 1]) + (match items[|items| - 1] case Some(x) => [x] case None => [])
  }

  lemma {:induction false} KeptAppend<T>(a: seq<Option<T>>, b: seq<Option<T>>)
    ensures Kept(a + b) == Kept(a) + Kept(b)
    decreases |b|
  {
    if b == [] {
      assert a + b == a;
    } else {
      assert (a + b)[..|a + b| - 1] == a + b[..|b| - 1];
      KeptAppend(a, b[..|b| - 1]);
    }
  }

  lemma {:induction false} KeptAllPresent<T>(xs: seq<T>)
    ensures Kept(seq(|xs|, i requires 0 <= i < |xs| => Some(xs[i]))) == xs
  {
    if xs != [] {
      var wrapped := seq(|xs|, i requires 0 <= i < |xs| => Some(xs[i]));
      var init := xs[..|xs| - 1];
      assert wrapped[..|wrapped| - 1] == seq(|init|, i requires 0 <= i < |init| => Some(init[i]));
      KeptAllPresent(init);
    }
  }

  /** The offset of page `i`: the loop starts at 0 and adds `limit` after each page. */
  function Offset(i: nat, limit: nat): nat
  {
    if i == 0 then 0 else Offset(i - 1, limit) + limit
  }

  lemma {:induction false} OffsetIsProduct(i: nat, limit: nat)
    ensures Offset(i, limit) == i * limit
  {
    if i > 0 {
      OffsetIsProduct(i - 1, limit);
      assert (i - 1) * limit + limit == i * limit;
    }
  }

  predicate PageStops<T>(p: PageReply<T>, limit: nat)
  {
    p.PageFailed? || p.items.None? || |p.items.value| < limit
  }

  /** The loop of `getAllPlaylistTracks` (strict: a page without `items` throws) and of
      `getAllUserPlaylists` (not strict: such a page ends the loop), from the page at
      offset `Offset(i, limit)` (that is, `i * limit`) with `acc` collected. `lastPage` is a page known to stop the
      loop; it only bounds the recursion and the result does not depend on it. */
  function Paginate<T>(pages: nat -> PageReply<T>, limit: nat, strict: bool, i: nat, acc: seq<T>, lastPage: nat): Paged<T>
    requires limit > 0 && i <= lastPage && PageStops(pages(Offset(lastPage, limit)), limit)
    decreases lastPage - i
  {
    match pages(Offset(i, limit))
    case PageFailed(e) => PagingFailed(PageFetchFailed(e))
    case Page(items, total) =>
      if items.None? then (if strict then PagingFailed(MissingItems) else Collected(acc))
      else
        var collected := acc + Kept(items.value);
        if |collected| >= total || |items.value| < limit then Collected(collected)
        else Paginate(pages, limit, strict, i + 1, collected, lastPage)
  }

  /** Which stopping page bounds the recursion makes no difference. */
  lemma {:induction false} PaginateIndependent<T>(pages: nat -> PageReply<T>, limit: nat, strict: bool, i: nat, acc: seq<T>, l1: nat, l2: nat)
    requires limit > 0 && i <= l1 && i <= l2
    requires PageStops(pages(Offset(l1, limit)), limit) && PageStops(pages(Offset(l2, limit)), limit)
    ensures Paginate(pages, limit, strict, i, acc, l1) == Paginate(pages, limit, strict, i, acc, l2)
    decreases l1 - i
  {
    if pages(Offset(i, limit)).Page? && pages(Offset(i, limit)).items.Some? {
      var collected := acc + Kept(pages(Offset(i, limit)).items.value);
      if !(|collected| >= pages(Offset(i, limit)).total || |pages(Offset(i, limit)).items.value| < limit) {
        PaginateIndependent(pages, limit, strict, i + 1, collected, l1, l2);
      }
    }
  }

  /** The non-null elements of pages `0 .. m-1` (each with items), in page order. */
  function PagesContent<T>(pages: nat -> PageReply<T>, limit: nat, m: nat): seq<T>
  {
    if m == 0 then []
    else PagesContent(pages, limit, m - 1) +
         (var p := pages(Offset(m - 1, limit)); if p.Page? && p.items.Some? then Kept(p.items.value) else [])
  }

  /** The number of pages the loop has read when it stops: it stops at a failed page or a
      page without items before reading it, and right after a short or final page. */
  function PagesRead<T>(pages: nat -> PageReply<T>, limit: nat, strict: bool, i: nat, acc: seq<T>, lastPage: nat): nat
    requires limit > 0 && i <= lastPage && PageStops(pages(Offset(lastPage, limit)), limit)
    decreases lastPage - i
  {
    match pages(Offset(i, limit))
    case PageFailed(_) => i
    case Page(items, total) =>
      if items.None? then i
      else
        var collected := acc + Kept(items.value);
        if |collected| >= total || |items.value| < limit then i + 1
        else PagesRead(pages, limit, strict, i + 1, collected, lastPage)
  }

  /** What is collected is the pages' non-null elements in page order: the first `m` pages,
      each read at the offset one limit past the previous, none dropped or reordered. */
  lemma PaginateIsPagePrefix<T>(pages: nat -> PageReply<T>, limit: nat, strict: bool, i: nat, acc: seq<T>, lastPage: nat)
    requires limit > 0 && i <= lastPage && PageStops(pages(Offset(lastPage, limit)), limit)
    requires acc == PagesContent(pages, limit, i)
    ensures var r := Paginate(pages, limit, strict, i, acc, lastPage);
      var m := PagesRead(pages, limit, strict, i, acc, lastPage);
      i <= m <= lastPage + 1 && (r.Collected? ==> r.items == PagesContent(pages, limit, m))
  {
    PagesReadBounded(pages, limit, strict, i, acc, lastPage);
    PaginateReadsPages(pages, limit, strict, i, acc, lastPage);
  }

  lemma {:induction false} PagesReadBounded<T>(pages: nat -> PageReply<T>, limit: nat, strict: bool, i: nat, acc: seq<T>, lastPage: nat)
    requires limit > 0 && i <= lastPage && PageStops(pages(Offset(lastPage, limit)), limit)
    ensures i <= PagesRead(pages, limit, strict, i, acc, lastPage) <= lastPage + 1
    decreases lastPage - i
  {
    var p := pages(Offset(i, limit));
    if p.Page? && p.items.Some? {
      var collected := acc + Kept(p.items.value);
      if !(|collected| >= p.total || |p.items.value| < limit) {
        PagesReadBounded(pages, limit, strict, i + 1, collected, lastPage);
      }
    }
  }

  lemma {:induction false} PaginateReadsPages<T>(pages: nat -> PageReply<T>, limit: nat, strict: bool, i: nat, acc: seq<T>, lastPage: nat)
    requires limit > 0 && i <= lastPage && PageStops(pages(Offset(lastPage, limit)), limit)
    requires acc == PagesContent(pages, limit, i)
    ensures var r := Paginate(pages, limit, strict, i, acc, lastPage);
      r.Collected? ==> r.items == PagesContent(pages, limit, PagesRead(pages, limit, strict, i, acc, lastPage))
    decreases lastPage - i
  {
    var p := pages(Offset(i, limit));
    if p.Page? && p.items.Some? {
      var collected := acc + Kept(p.items.value);
      assert collected == PagesContent(pages, limit, i + 1);
      if !(|collected| >= p.total || |p.items.value| < limit) {
        PaginateReadsPages(pages, limit, strict, i + 1, collected, lastPage);
      }
    }
  }

  /** The page a well-behaved server returns at offset `o` of `xs`: the next `limit`
      elements (fewer at the end), none null. */
  function PageOf<T>(xs: seq<T>, o: nat, limit: nat): seq<Option<T>>
    requires o <= |xs|
  {
    var n := if o + limit <= |xs| then limit else |xs| - o;
    seq(n, k requires 0 <= k < n => Some(xs[o + k]))
  }

  lemma KeptPageOf<T>(xs: seq<T>, o: nat, limit: nat)
    requires o <= |xs|
    ensures |PageOf(xs, o, limit)| == (if o + limit <= |xs| then limit else |xs| - o)
    ensures Kept(PageOf(xs, o, limit)) == xs[o..o + |PageOf(xs, o, limit)|]
  {
    var n := if o + limit <= |xs| then limit else |xs| - o;
    var slice := xs[o..o + n];
    KeptAllPresent(slice);
    assert PageOf(xs, o, limit) == seq(|slice|, k requires 0 <= k < |slice| => Some(slice[k]));
  }

  /** A well-behaved server holding `xs`: each page has the `limit` elements from its
      offset on, none null, and the true total. */
  predicate ServesAll<T(==)>(pages: nat -> PageReply<T>, limit: nat, xs: seq<T>)
  {
    forall o :: 0 <= o <= |xs| ==> pages(o) == Page(Some(PageOf(xs, o, limit)), |xs|)
  }

  /** Such a server's listing is collected whole and in order. */
  lemma {:induction false} PaginateServesAll<T>(pages: nat -> PageReply<T>, limit: nat, strict: bool, xs: seq<T>, i: nat, lastPage: nat)
    requires limit > 0 && ServesAll(pages, limit, xs)
    requires Offset(i, limit) <= |xs| && i <= lastPage && PageStops(pages(Offset(lastPage, limit)), limit)
    ensures Paginate(pages, limit, strict, i, xs[..Offset(i, limit)], lastPage) == Collected(xs)
    decreases lastPage - i
  {
    ServedPageStep(pages, limit, strict, xs, i, lastPage);
    if Offset(i, limit) + limit < |xs| {
      PaginateServesAll(pages, limit, strict, xs, i + 1, lastPage);
    }
  }

  /** For a well-behaved server the page at offset `|xs| / limit * limit` is short, so
      the loop is bounded, and it returns the whole listing. */
  lemma WellBehavedServerListsAll<T>(pages: nat -> PageReply<T>, limit: nat, strict: bool, xs: seq<T>)
    requires limit > 0 && ServesAll(pages, limit, xs)
    ensures var lastPage := |xs| / limit;
      PageStops(pages(Offset(lastPage, limit)), limit) &&
      Paginate(pages, limit, strict, 0, [], lastPage) == Collected(xs)
  {
    ServedLastPageStops(pages, limit, xs);
    assert xs[..Offset(0, limit)] == [];
    PaginateServesAll(pages, limit, strict, xs, 0, |xs| / limit);
  }

  /** The page at offset `|xs| / limit * limit` of a well-behaved server is short. */
  lemma ServedLastPageStops<T>(pages: nat -> PageReply<T>, limit: nat, xs: seq<T>)
    requires limit > 0 && ServesAll(pages, limit, xs)
    ensures PageStops(pages(Offset(|xs| / limit, limit)), limit)
  {
    var o := Offset(|xs| / limit, limit);
    OffsetIsProduct(|xs| / limit, limit);
    LastPageOffset(|xs|, limit);
    assert pages(o) == Page(Some(PageOf(xs, o, limit)), |xs|);
    KeptPageOf(xs, o, limit);
  }

  lemma LastPageOffset(n: nat, limit: nat)
    requires limit > 0
    ensures n / limit * limit <= n < n / limit * limit + limit
  {
    assert n == n / limit * limit + n % limit;
  }

  /** One page of a well-behaved server: either the listing is complete, or the loop
      moves on to the next offset with everything before it collected. */
  lemma ServedPageStep<T>(pages: nat -> PageReply<T>, limit: nat, strict: bool, xs: seq<T>, i: nat, lastPage: nat)
    requires limit > 0 && Offset(i, limit) <= |xs| && i <= lastPage && PageStops(pages(Offset(lastPage, limit)), limit)
    requires pages(Offset(i, limit)) == Page(Some(PageOf(xs, Offset(i, limit), limit)), |xs|)
    ensures Offset(i, limit) + limit >= |xs| ==> Paginate(pages, limit, strict, i, xs[..Offset(i, limit)], lastPage) == Collected(xs)
    ensures Offset(i, limit) + limit < |xs| ==>
      Offset(i + 1, limit) <= |xs| && i < lastPage &&
      Paginate(pages, limit, strict, i, xs[..Offset(i, limit)], lastPage) ==
      Paginate(pages, limit, strict, i + 1, xs[..Offset(i + 1, limit)], lastPage)
  {
    PageCollect(xs, Offset(i, limit), limit);
    PaginateUnfold(pages, limit, strict, i, xs[..Offset(i, limit)], lastPage);
  }

  /** What the loop holds after a well-behaved server's page at offset `o`. */
  lemma PageCollect<T>(xs: seq<T>, o: nat, limit: nat)
    requires limit > 0 && o <= |xs|
    ensures var page := PageOf(xs, o, limit);
      && (o + limit >= |xs| ==> xs[..o] + Kept(page) == xs)
      && (o + limit < |xs| ==> |page| == limit && xs[..o] + Kept(page) == xs[..o + limit] && o + limit < |xs|)
  {
    var page := PageOf(xs, o, limit);
    KeptPageOf(xs, o, limit);
    assert xs[..o] + xs[o..o + |page|] == xs[..o + |page|];
  }

  /** One step of the pagination loop on a page with items. */
  lemma PaginateUnfold<T>(pages: nat -> PageReply<T>, limit: nat, strict: bool, i: nat, acc: seq<T>, lastPage: nat)
    requires limit > 0 && i <= lastPage && PageStops(pages(Offset(lastPage, limit)), limit)
    requires pages(Offset(i, limit)).Page? && pages(Offset(i, limit)).items.Some?
    ensures var p := pages(Offset(i, limit));
      var collected := acc + Kept(p.items.value);
      if |collected| >= p.total || |p.items.value| < limit then
        Paginate(pages, limit, strict, i, acc, lastPage) == Collected(collected)
      else
        i < lastPage && Paginate(pages, limit, strict, i, acc, lastPage) == Paginate(pages, limit, strict, i + 1, collected, lastPage)
  {
  }

  /** `getAllPlaylistTracks` (limit 100, strict) and `getAllUserPlaylists` (limit 50):
      `while (true)` over pages at offsets 0, limit, 2·limit, ... */
  method CollectAllPages<T>(pages: nat -> PageReply<T>, limit: nat, strict: bool, ghost lastPage: nat) returns (r: Paged<T>)
    requires limit > 0 && PageStops(pages(Offset(lastPage, limit)), limit)
    ensures r == Paginate(pages, limit, strict, 0, [], lastPage)
  {
    var collected: seq<T> := [];
    var offset := 0;
    ghost var i := 0;
    while true
      invariant i <= lastPage && offset == Offset(i, limit)
      invariant Paginate(pages, limit, strict, i, collected, lastPage) == Paginate(pages, limit, strict, 0, [], lastPage)
      decreases lastPage - i
    {
      var page := pages(offset);
      if page.PageFailed? {
        return PagingFailed(PageFetchFailed(page.error));
      }
      if page.items.None? {
        if strict {
          return PagingFailed(MissingItems);
        }
        return Collected(collected);
      }
      collected := collected + Kept(page.items.value);
      if |collected| >= page.total || |page.items.value| < limit {
        return Collected(collected);
      }
      offset := offset + limit;
      i := i + 1;
    }
  }

  /** `getAllPlaylistTracks` */
  method GetAllPlaylistTracks(pages: nat -> PageReply<Track>, ghost lastPage: nat) returns (r: Paged<Track>)
    requires PageStops(pages(Offset(lastPage, PLAYLIST_TRACKS_PAGE_LIMIT)), PLAYLIST_TRACKS_PAGE_LIMIT)
    ensures r == Paginate(pages, PLAYLIST_TRACKS_PAGE_LIMIT, true, 0, [], lastPage)
    ensures r.Collected? ==> exists m :: 0 <= m <= lastPage + 1 && r.items == PagesContent(pages, PLAYLIST_TRACKS_PAGE_LIMIT, m)
  {
    r := CollectAllPages(pages, PLAYLIST_TRACKS_PAGE_LIMIT, true, lastPage);
    PaginateIsPagePrefix(pages, PLAYLIST_TRACKS_PAGE_LIMIT, true, 0, [], lastPage);
    ghost var m := PagesRead(pages, PLAYLIST_TRACKS_PAGE_LIMIT, true, 0, [], lastPage);
    assert r.Collected? ==> r.items == PagesContent(pages, PLAYLIST_TRACKS_PAGE_LIMIT, m);
  }

  /** `getAllUserPlaylists` */
  method GetAllUserPlaylists(pages: nat -> PageReply<Playlist>, ghost lastPage: nat) returns (r: Paged<Playlist>)
    requires PageStops(pages(Offset(lastPage, USER_PLAYLISTS_PAGE_LIMIT)), USER_PLAYLISTS_PAGE_LIMIT)
    ensures r == Paginate(pages, USER_PLAYLISTS_PAGE_LIMIT, false, 0, [], lastPage)
    ensures r.Collected? ==> exists m :: 0 <= m <= lastPage + 1 && r.items == PagesContent(pages, USER_PLAYLISTS_PAGE_LIMIT, m)
    ensures r.PagingFailed? ==> r.error.PageFetchFailed?
  {
    r := CollectAllPages(pages, USER_PLAYLISTS_PAGE_LIMIT, false, lastPage);
    PaginateIsPagePrefix(pages, USER_PLAYLISTS_PAGE_LIMIT, false, 0, [], lastPage);
    ghost var m := PagesRead(pages, USER_PLAYLISTS_PAGE_LIMIT, false, 0, [], lastPage);
    assert r.Collected? ==> r.items == PagesContent(pages, USER_PLAYLISTS_PAGE_LIMIT, m);
    NonStrictOnlyFetchFails(pages, USER_PLAYLISTS_PAGE_LIMIT, 0, [], lastPage);
  }

  /** The playlist loop never throws for a missing `items`; only a failed request fails it. */
  lemma {:induction false} NonStrictOnlyFetchFails<T>(pages: nat -> PageReply<T>, limit: nat, i: nat, acc: seq<T>, lastPage: nat)
    requires limit > 0 && i <= lastPage && PageStops(pages(Offset(lastPage, limit)), limit)
    ensures var r := Paginate(pages, limit, false, i, acc, lastPage);
      r.PagingFailed? ==> r.error.PageFetchFailed?
    decreases lastPage - i
  {
    var p := pages(Offset(i, limit));
    if p.Page? && p.items.Some? {
      var collected := acc + Kept(p.items.value);
      if !(|collected| >= p.total || |p.items.value| < limit) {
        NonStrictOnlyFetchFails(pages, limit, i + 1, collected, lastPage);
      }
    }
  }

  // ─── Batched deletes ────────────────────────────────────────────

  function Flatten(bs: seq<seq<string>>): seq<string>
  {
    if bs == [] then [] else Flatten(bs[..|bs| - 1]) + bs[|bs| - 1]
  }

  /** The batching loop: `for (i = 0; i < n; i += size) batches.push(xs.slice(i, i + size))`. */
  method Batches(xs: seq<string>, size: nat) returns (batches: seq<seq<string>>)
    requires size > 0
    ensures Flatten(batches) == xs
    ensures |batches| == CeilDiv(|xs|, size)
    ensures forall k :: 0 <= k < |batches| ==> 0 < |batches[k]| <= size
    ensures forall k :: 0 <= k < |batches| - 1 ==> |batches[k]| == size
  {
    batches := [];
    var i := 0;
    while i < |xs|
      invariant BatchState(xs, size, i, batches)
      decreases |xs| - i
    {
      var end := if i + size <= |xs| then i + size else |xs|;
      BatchStep(xs, size, i, batches);
      batches := batches + [xs[i..end]];
      i := i + size;
    }
    BatchDone(xs, size, i, batches);
  }

  /** The loop state after some batches: `i` is their count times `size`, they are the
      consecutive slices of `xs` up to `i`, and only the last may be short. */
  predicate BatchState(xs: seq<string>, size: nat, i: nat, batches: seq<seq<string>>)
  {
    && size > 0
    && i == Offset(|batches|, size)
    && i < |xs| + size
    && Flatten(batches) == xs[..if i <= |xs| then i else |xs|]
    && (forall k :: 0 <= k < |batches| ==> 0 < |batches[k]| <= size)
    && (forall k :: 0 <= k < |batches| ==> (|batches[k]| == size || (k == |batches| - 1 && i > |xs|)))
  }

  lemma BatchStep(xs: seq<string>, size: nat, i: nat, batches: seq<seq<string>>)
    requires BatchState(xs, size, i, batches) && i < |xs|
    ensures var end := if i + size <= |xs| then i + size else |xs|;
      BatchState(xs, size, i + size, batches + [xs[i..end]])
  {
    var end := if i + size <= |xs| then i + size else |xs|;
    var batch := xs[i..end];
    FlattenSnoc(batches, batch);
    assert xs[..i] + xs[i..end] == xs[..end];
  }

  lemma FlattenSnoc(bs: seq<seq<string>>, b: seq<string>)
    ensures Flatten(bs + [b]) == Flatten(bs) + b
  {
    assert (bs + [b])[..|bs|] == bs;
  }

  lemma BatchDone(xs: seq<string>, size: nat, i: nat, batches: seq<seq<string>>)
    requires BatchState(xs, size, i, batches) && i >= |xs|
    ensures Flatten(batches) == xs
    ensures |batches| == CeilDiv(|xs|, size)
    ensures forall k :: 0 <= k < |batches| ==> 0 < |batches[k]| <= size
    ensures forall k :: 0 <= k < |batches| - 1 ==> |batches[k]| == size
  {
    assert xs[..|xs|] == xs;
    OffsetIsProduct(|batches|, size);
    CeilDivOfBatches(|xs|, size, |batches|);
  }

  /** `q` is `a / d` when `q * d <= a < q * d + d`. */
  lemma DivUnique(a: nat, d: nat, q: nat)
    requires d > 0 && q * d <= a < q * d + d
    ensures a / d == q
  {
    var r := a / d;
    assert a == r * d + a % d && 0 <= a % d < d;
    if r < q {
      MulMonotone(r + 1, q, d);
    } else if r > q {
      MulMonotone(q + 1, r, d);
    }
  }

  lemma MulMonotone(x: nat, y: nat, d: nat)
    requires x <= y
    ensures x * d <= y * d
  {
  }

  lemma CeilDivOfBatches(n: nat, size: nat, count: nat)
    requires size > 0 && n <= count * size < n + size
    ensures count == CeilDiv(n, size)
  {
    DivUnique(n + size - 1, size, count);
  }

  /** The DELETE calls made for `batches` when the k-th call's fetch has outcome
      `delete(k)`: one per batch, in order, up to and including the first failure. */
  function DeleteRun(batches: seq<seq<string>>, delete: nat -> FetchOutcome, k: nat): (r: (Option<FetchError>, seq<seq<string>>))
    requires k <= |batches|
    ensures |r.1| <= |batches| - k
    ensures r.0.None? ==> r.1 == batches[k..]
    decreases |batches| - k
  {
    if k == |batches| then (None, [])
    else if delete(k).Failed? then (Some(delete(k).error), [batches[k]])
    else var rest := DeleteRun(batches, delete, k + 1); (rest.0, [batches[k]] + rest.1)
  }

  /** The batches sent are a prefix of the batches; a failed call is the last one sent. */
  lemma {:induction false} DeleteRunPrefix(batches: seq<seq<string>>, delete: nat -> FetchOutcome, k: nat)
    requires k <= |batches|
    ensures var (err, calls) := DeleteRun(batches, delete, k);
      && calls == batches[k..k + |calls|]
      && (err.Some? <==> exists j :: k <= j < |batches| && delete(j).Failed?)
      && (err.Some? ==> |calls| > 0 && delete(k + |calls| - 1) == Failed(err.value) &&
                         forall j :: k <= j < k + |calls| - 1 ==> !delete(j).Failed?)
    decreases |batches| - k
  {
    if k < |batches| && !delete(k).Failed? {
      DeleteRunPrefix(batches, delete, k + 1);
      var rest := DeleteRun(batches, delete, k + 1);
      if rest.0.None? {
        assert forall j :: k <= j < |batches| ==> !delete(j).Failed? by {
          forall j | k <= j < |batches| ensures !delete(j).Failed? {
            if j > k {
              assert !(k + 1 <= j < |batches| && delete(j).Failed?);
            }
          }
        }
      }
    }
  }

  /** The DELETE loop's state after `k` calls that did not throw. */
  predicate SendState(batches: seq<seq<string>>, delete: nat -> FetchOutcome, k: nat, calls: seq<seq<string>>)
  {
    && k <= |batches|
    && calls == batches[..k]
    && DeleteRun(batches, delete, 0).0 == DeleteRun(batches, delete, k).0
    && DeleteRun(batches, delete, 0).1 == calls + DeleteRun(batches, delete, k).1
  }

  /** One call of the DELETE loop that throws: the run ends with this batch the last one sent. */
  lemma SendStepFailed(batches: seq<seq<string>>, delete: nat -> FetchOutcome, k: nat, calls: seq<seq<string>>)
    requires k < |batches| && SendState(batches, delete, k, calls) && delete(k).Failed?
    ensures DeleteRun(batches, delete, 0) == (Some(delete(k).error), calls + [batches[k]])
  {
    var here := DeleteRun(batches, delete, k);
    assert here == (Some(delete(k).error), [batches[k]]);
  }

  /** One call of the DELETE loop that does not throw: the loop goes on from the next batch. */
  lemma SendStepOk(batches: seq<seq<string>>, delete: nat -> FetchOutcome, k: nat, calls: seq<seq<string>>)
    requires k < |batches| && SendState(batches, delete, k, calls) && !delete(k).Failed?
    ensures SendState(batches, delete, k + 1, calls + [batches[k]])
  {
    var b := batches[k];
    TakeSnoc(batches, k);
    var rest := DeleteRun(batches, delete, k + 1);
    assert DeleteRun(batches, delete, k) == (rest.0, [b] + rest.1);
    assert calls + ([b] + rest.1) == (calls + [b]) + rest.1;
  }

  lemma TakeSnoc<T>(s: seq<T>, k: nat)
    requires k < |s|
    ensures s[..k] + [s[k]] == s[..k + 1]
  {
  }

  /** After the last batch the loop has sent them all without error. */
  lemma SendDone(batches: seq<seq<string>>, delete: nat -> FetchOutcome, calls: seq<seq<string>>)
    requires SendState(batches, delete, |batches|, calls)
    ensures DeleteRun(batches, delete, 0) == (None, calls)
  {
    assert calls + [] == calls;
  }

  /** The DELETE loop: one call per batch, in order, until one throws. */
  method SendBatches(batches: seq<seq<string>>, delete: nat -> FetchOutcome)
    returns (error: Option<FetchError>, calls: seq<seq<string>>)
    ensures error == DeleteRun(batches, delete, 0).0 && calls == DeleteRun(batches, delete, 0).1
  {
    error := None;
    calls := [];
    var k := 0;
    while k < |batches|
      invariant SendState(batches, delete, k, calls)
    {
      if delete(k).Failed? {
        SendStepFailed(batches, delete, k, calls);
        calls := calls + [batches[k]];
        error := Some(delete(k).error);
        return;
      }
      SendStepOk(batches, delete, k, calls);
      calls := calls + [batches[k]];
      k := k + 1;
    }
    SendDone(batches, delete, calls);
  }

  /** `removeTracksFromPlaylist` and `removeLikedSongs`: batch, then send the batches. */
  method RemoveInBatches(xs: seq<string>, size: nat, delete: nat -> FetchOutcome)
    returns (error: Option<FetchError>, calls: seq<seq<string>>)
    requires size > 0
    ensures exists batches: seq<seq<string>> ::
      Flatten(batches) == xs && |batches| == CeilDiv(|xs|, size) &&
      (forall k :: 0 <= k < |batches| ==> 0 < |batches[k]| <= size) &&
      (forall k :: 0 <= k < |batches| - 1 ==> |batches[k]| == size) &&
      error == DeleteRun(batches, delete, 0).0 && calls == DeleteRun(batches, delete, 0).1
    ensures forall k :: 0 <= k < |calls| ==> 0 < |calls[k]| <= size
    ensures Flatten(calls) <= xs
    ensures forall k :: 0 <= k < |calls| && k < CeilDiv(|xs|, size) - 1 ==> |calls[k]| == size
    ensures error.None? <==> forall k :: 0 <= k < CeilDiv(|xs|, size) ==> !delete(k).Failed?
    ensures error.Some? ==> |calls| > 0 && delete(|calls| - 1) == Failed(error.value) &&
                            forall k :: 0 <= k < |calls| - 1 ==> !delete(k).Failed?
    ensures error.None? ==> Flatten(calls) == xs && |calls| == CeilDiv(|xs|, size)
    ensures xs == [] ==> calls == [] && error.None?
  {
    var batches := Batches(xs, size);
    error, calls := SendBatches(batches, delete);
    DeleteRunSendsPrefix(batches, delete);
    DeleteRunFailure(batches, delete);
    if xs == [] {
      assert |batches| == 0;
    }
  }

  /** `removeTracksFromPlaylist` */
  method RemoveTracksFromPlaylist(trackUris: seq<string>, delete: nat -> FetchOutcome)
    returns (error: Option<FetchError>, calls: seq<seq<string>>)
    ensures forall k :: 0 <= k < |calls| ==> 0 < |calls[k]| <= PLAYLIST_DELETE_BATCH
    ensures Flatten(calls) <= trackUris
    ensures forall k :: 0 <= k < |calls| && k < CeilDiv(|trackUris|, PLAYLIST_DELETE_BATCH) - 1 ==> |calls[k]| == PLAYLIST_DELETE_BATCH
    ensures error.None? <==> forall k :: 0 <= k < CeilDiv(|trackUris|, PLAYLIST_DELETE_BATCH) ==> !delete(k).Failed?
    ensures error.Some? ==> |calls| > 0 && delete(|calls| - 1) == Failed(error.value) &&
                            forall k :: 0 <= k < |calls| - 1 ==> !delete(k).Failed?
    ensures error.None? ==> Flatten(calls) == trackUris && |calls| == CeilDiv(|trackUris|, PLAYLIST_DELETE_BATCH)
    ensures trackUris == [] ==> calls == [] && error.None?
  {
    error, calls := RemoveInBatches(trackUris, PLAYLIST_DELETE_BATCH, delete);
  }

  /** `removeLikedSongs` */
  method RemoveLikedSongs(trackIds: seq<string>, delete: nat -> FetchOutcome)
    returns (error: Option<FetchError>, calls: seq<seq<string>>)
    ensures forall k :: 0 <= k < |calls| ==> 0 < |calls[k]| <= LIKED_DELETE_BATCH
    ensures Flatten(calls) <= trackIds
    ensures forall k :: 0 <= k < |calls| && k < CeilDiv(|trackIds|, LIKED_DELETE_BATCH) - 1 ==> |calls[k]| == LIKED_DELETE_BATCH
    ensures error.None? <==> forall k :: 0 <= k < CeilDiv(|trackIds|, LIKED_DELETE_BATCH) ==> !delete(k).Failed?
    ensures error.Some? ==> |calls| > 0 && delete(|calls| - 1) == Failed(error.value) &&
                            forall k :: 0 <= k < |calls| - 1 ==> !delete(k).Failed?
    ensures error.None? ==> Flatten(calls) == trackIds && |calls| == CeilDiv(|trackIds|, LIKED_DELETE_BATCH)
    ensures trackIds == [] ==> calls == [] && error.None?
  {
    error, calls := RemoveInBatches(trackIds, LIKED_DELETE_BATCH, delete);
  }

  /** The batches a run of DELETEs sends are its first batches, so their items are a prefix
      of all the items. */
  lemma DeleteRunSendsPrefix(batches: seq<seq<string>>, delete: nat -> FetchOutcome)
    ensures var calls := DeleteRun(batches, delete, 0).1;
      && (forall k :: 0 <= k < |calls| ==> calls[k] == batches[k])
      && Flatten(calls) <= Flatten(batches)
  {
    var calls := DeleteRun(batches, delete, 0).1;
    DeleteRunPrefix(batches, delete, 0);
    assert calls == batches[..|calls|];
    FlattenPrefix(batches, |calls|);
  }

  /** A run of DELETEs fails iff one of the calls fails, and then the last call sent is the
      first failing one. */
  lemma DeleteRunFailure(batches: seq<seq<string>>, delete: nat -> FetchOutcome)
    ensures var (error, calls) := DeleteRun(batches, delete, 0);
      && (error.None? <==> forall k :: 0 <= k < |batches| ==> !delete(k).Failed?)
      && (error.Some? ==> |calls| > 0 && delete(|calls| - 1) == Failed(error.value) &&
                          forall k :: 0 <= k < |calls| - 1 ==> !delete(k).Failed?)
  {
    DeleteRunPrefix(batches, delete, 0);
  }

  /** The batches before `m` flatten to a prefix of all of them flattened. */
  lemma {:induction false} FlattenPrefix(bs: seq<seq<string>>, m: nat)
    requires m <= |bs|
    ensures Flatten(bs[..m]) <= Flatten(bs)
    decreases |bs|
  {
    if m == |bs| {
      assert bs[..m] == bs;
    } else {
      var init := bs[..|bs| - 1];
      assert init[..m] == bs[..m];
      FlattenPrefix(init, m);
      assert Flatten(bs) == Flatten(init) + bs[|bs| - 1];
    }
  }
}
