/**
 * The infinite-scroll state machine: the `scrollState` record and `loadMore`,
 * which admits a request, resolves its URL (the stored cursor, or a URL built
 * from the page's earliest timestamp), fetches it and folds the outcome back
 * into the record, plus the debug `reset` and `status`.
 *
 * `loadMore` is split at its `await`: `Begin` runs up to and including
 * `isLoading = true` and says what to fetch; `Complete` takes the fetch's
 * outcome and runs the rest up to `finally`. The network is the `FetchOutcome`
 * parameter; the DOM container is a ghost log of appended fragments.
 */
module Pagination {
  import opened Wrappers
  import opened Text
  import opened FeedUrls
  import opened Timestamps

  /** `MAX_RETRY` */
  const MaxRetry: nat := 3
  /** Each retry rewinds `24 * retryCount` hours from the URL just tried. */
  const HoursPerRetry: nat := 24
  /** A `blotter_html` must be longer than this to be accepted. */
  const MinFragmentLength: nat := 100

  /** The `scrollState` record, as `status()` copies it. */
  datatype Snapshot = Snapshot(isLoading: bool, hasMore: bool, nextUrl: Option<string>, retryCount: nat)

  /** The record at start-up and after `reset()`. */
  const Initial := Snapshot(false, true, None, 0)

  /** What `loadMore` reads from the page: its path and the seed sources. */
  datatype Page = Page(pathname: string, statusIds: seq<string>, dataTimestamps: seq<string>, dayIds: seq<string>)

  /** The fields of the JSON body that `loadMore` reads. */
  datatype Response = Response(success: bool, blotterHtml: Option<string>, nextRequest: Option<string>)

  /** How the `fetch` ends: it throws, answers non-ok, answers ok with a body
      that cannot be read as that JSON, or answers ok with a response. */
  datatype FetchOutcome = TransportError | HttpError | BodyUnreadable | HttpOk(body: Response)

  /** Whether `Begin` starts a request, and for which URL (`None` is `null`,
      which `fetch` is still called with). */
  datatype Dispatch = NoFetch | Fetch(url: Option<string>)

  datatype Began = Began(state: Snapshot, dispatch: Dispatch)

  /** JavaScript truthiness of a string that may be `null`. */
  predicate Truthy(u: Option<string>)
  {
    u.Some? && u.value != ""
  }

  /** The invariant the retry budget keeps: a record that may still load has budget left. */
  predicate RetryBound(s: Snapshot)
  {
    s.hasMore ==> s.retryCount < MaxRetry
  }

  /** `json.success && json.blotter_html && json.blotter_html.length > 100` */
  predicate Accepted(r: Response)
  {
    r.success && r.blotterHtml.Some? && r.blotterHtml.value != "" && |r.blotterHtml.value| > MinFragmentLength
  }

  /** The fragments an outcome adds to the feed container, when there is one. */
  function Appended(outcome: FetchOutcome, hasContainer: bool): seq<string>
  {
    if outcome.HttpOk? && Accepted(outcome.body) && hasContainer then [outcome.body.blotterHtml.value] else []
  }

  /** The seed text `getInitialTimestamp()` returns for a page. */
  function Seed(page: Page): Option<string>
  {
    SeedText(InitialTimestamp(page.statusIds, page.dataTimestamps, page.dayIds))
  }

  /** `loadMore` up to its `fetch`. */
  function BeginStep(s: Snapshot, page: Page): (r: Began)
    ensures s.isLoading || !s.hasMore ==> r == Began(s, NoFetch)
    ensures r.dispatch.Fetch? <==> !s.isLoading && s.hasMore && (Truthy(s.nextUrl) || Truthy(Seed(page)))
    ensures r.dispatch.Fetch? ==> r.state == s.(isLoading := true)
    ensures r.dispatch.Fetch? && Truthy(s.nextUrl) ==> r.dispatch.url == s.nextUrl
    ensures r.dispatch.Fetch? && !Truthy(s.nextUrl) ==> r.dispatch.url == BuildApiUrl(page.pathname, Seed(page).value)
    ensures !s.isLoading && s.hasMore && !Truthy(s.nextUrl) && !Truthy(Seed(page)) ==> r == Began(s.(hasMore := false), NoFetch)
    ensures RetryBound(s) ==> RetryBound(r.state)
  {
    if s.isLoading || !s.hasMore then Began(s, NoFetch)
    else if Truthy(s.nextUrl) then Began(s.(isLoading := true), Fetch(s.nextUrl))
    else
      var ts := Seed(page);
      if !Truthy(ts) then Began(s.(hasMore := false), NoFetch)
      else Began(s.(isLoading := true), Fetch(BuildApiUrl(page.pathname, ts.value)))
  }

  /** `loadMore` from its `fetch` to the end of `finally`, for a request to `url`. */
  function CompleteStep(s: Snapshot, url: Option<string>, outcome: FetchOutcome): (r: Snapshot)
    ensures !r.isLoading
    ensures RetryBound(s) ==> RetryBound(r)
    ensures outcome.TransportError? ==> r == s.(isLoading := false)
    ensures outcome.HttpError? ==>
      && r.retryCount == s.retryCount + 1
      && (r.retryCount < MaxRetry ==> r.hasMore == s.hasMore)
      && (r.retryCount >= MaxRetry ==> !r.hasMore && r.nextUrl == s.nextUrl)
    ensures outcome.HttpError? && r.retryCount < MaxRetry && url.Some? ==>
      r.nextUrl == GetEarlierUrl(url.value, HoursPerRetry * r.retryCount)
    ensures outcome.HttpError? && url.None? ==> r.nextUrl == s.nextUrl
    ensures !outcome.TransportError? && !outcome.HttpError? ==> r.retryCount == 0
    ensures outcome.BodyUnreadable? ==> r == s.(isLoading := false, retryCount := 0)
    ensures outcome.HttpOk? && Accepted(outcome.body) ==>
      r.nextUrl == outcome.body.nextRequest && (r.hasMore <==> Truthy(outcome.body.nextRequest))
    ensures outcome.HttpOk? && !Accepted(outcome.body) ==> !r.hasMore && r.nextUrl == s.nextUrl
  {
    match outcome
    case TransportError => s.(isLoading := false)
    case HttpError =>
      var k := s.retryCount + 1;
      if k < MaxRetry then
        // `getEarlierUrl(null, …)` throws inside the `try`; the catch swallows it.
        var next := if url.Some? then GetEarlierUrl(url.value, HoursPerRetry * k) else s.nextUrl;
        s.(retryCount := k, nextUrl := next, isLoading := false)
      else
        s.(retryCount := k, hasMore := false, isLoading := false)
    case BodyUnreadable => s.(retryCount := 0, isLoading := false)
    case HttpOk(body) =>
      if Accepted(body) then
        s.(retryCount := 0, nextUrl := body.nextRequest, hasMore := Truthy(body.nextRequest), isLoading := false)
      else
        s.(retryCount := 0, hasMore := false, isLoading := false)
  }

  /** One whole `loadMore()` call that is not interleaved with another. */
  function LoadMoreStep(s: Snapshot, page: Page, outcome: FetchOutcome): (r: Began)
    ensures r.dispatch == BeginStep(s, page).dispatch
    ensures !s.isLoading ==> !r.state.isLoading
    ensures RetryBound(s) ==> RetryBound(r.state)
  {
    var b := BeginStep(s, page);
    if b.dispatch.Fetch? then Began(CompleteStep(b.state, b.dispatch.url, outcome), b.dispatch) else b
  }

  /** The `scrollState` object. */
  class ScrollState {
    var isLoading: bool
    var hasMore: bool
    var nextUrl: Option<string>
    var retryCount: nat
    /** Fragments moved into the feed container so far, in order. */
    ghost var appended: seq<string>
    /** Requests started by `Begin` and not yet completed. */
    ghost var inFlight: nat

    /** `status()`: a copy of the record. */
    function Status(): Snapshot
      reads this
    {
      Snapshot(isLoading, hasMore, nextUrl, retryCount)
    }

    predicate Valid()
      reads this
    {
      RetryBound(Status())
    }

    /** At most one request is in flight, and `isLoading` says whether one is. */
    ghost predicate Exclusive()
      reads this
    {
      inFlight == (if isLoading then 1 else 0)
    }

    constructor()
      ensures Status() == Initial && appended == [] && inFlight == 0
      ensures Valid() && Exclusive()
    {
      isLoading, hasMore, nextUrl, retryCount := false, true, None, 0;
      appended, inFlight := [], 0;
    }

    /** `reset()`. Clearing `isLoading` while a request is in flight lets a
        second one start, so exclusion survives exactly when none is. */
    method Reset()
      modifies this
      ensures Status() == Initial
      ensures appended == old(appended) && inFlight == old(inFlight)
      ensures Valid()
      ensures Exclusive() <==> old(inFlight) == 0
    {
      isLoading := false;
      hasMore := true;
      nextUrl := None;
      retryCount := 0;
    }

    /** `loadMore()` up to its `fetch`: returns what to fetch, if anything. */
    method Begin(page: Page) returns (d: Dispatch)
      requires Valid()
      modifies this
      ensures Began(Status(), d) == BeginStep(old(Status()), page)
      ensures appended == old(appended)
      ensures inFlight == old(inFlight) + (if d.Fetch? then 1 else 0)
      ensures Valid()
      ensures old(Exclusive()) ==> Exclusive()
    {
      if isLoading || !hasMore {
        return NoFetch;
      }
      var url := nextUrl;
      if !Truthy(url) {
        var ts := GetInitialTimestamp(page.statusIds, page.dataTimestamps, page.dayIds);
        if !Truthy(ts) {
          hasMore := false;
          return NoFetch;
        }
        url := BuildApiUrl(page.pathname, ts.value);
      }
      isLoading := true;
      inFlight := inFlight + 1;
      d := Fetch(url);
    }

    /** `loadMore()` after its request to `url` ended with `outcome`;
        `hasContainer` says whether `#blotter_content` exists. */
    method Complete(url: Option<string>, outcome: FetchOutcome, hasContainer: bool)
      requires Valid() && inFlight > 0
      modifies this
      ensures Status() == CompleteStep(old(Status()), url, outcome)
      ensures appended == old(appended) + Appended(outcome, hasContainer)
      ensures inFlight == old(inFlight) - 1
      ensures Valid()
      ensures old(Exclusive()) ==> Exclusive()
    {
      match outcome {
        case TransportError =>
        case HttpError =>
          retryCount := retryCount + 1;
          if retryCount < MaxRetry {
            if url.Some? {
              nextUrl := GetEarlierUrl(url.value, HoursPerRetry * retryCount);
            }
          } else {
            hasMore := false;
          }
        case BodyUnreadable =>
          retryCount := 0;
        case HttpOk(body) =>
          retryCount := 0;
          if Accepted(body) {
            if hasContainer {
              appended := appended + [body.blotterHtml.value];
            }
            nextUrl := body.nextRequest;
            hasMore := Truthy(body.nextRequest);
          } else {
            hasMore := false;
          }
      }
      isLoading := false;
      inFlight := inFlight - 1;
    }

    /** A whole `loadMore()` call whose request, if any, ends with `outcome`. */
    method LoadMore(page: Page, outcome: FetchOutcome, hasContainer: bool) returns (d: Dispatch)
      requires Valid()
      modifies this
      ensures LoadMoreStep(old(Status()), page, outcome) == Began(Status(), d)
      ensures appended == old(appended) + (if d.Fetch? then Appended(outcome, hasContainer) else [])
      ensures inFlight == old(inFlight)
      ensures Valid()
      ensures old(Exclusive()) ==> Exclusive()
    {
      d := Begin(page);
      if d.Fetch? {
        Complete(d.url, outcome, hasContainer);
      }
    }
  }

  /** A `LoadMoreStep` result's record. */
  function After(s: Snapshot, page: Page, outcome: FetchOutcome): Snapshot
  {
    LoadMoreStep(s, page, outcome).state
  }

  /** A non-ok answer to a request for the stored cursor `u`, with budget left,
      rewinds the cursor by `24 * retryCount` hours from `u`. */
  lemma RetryRewinds(u: string, k: nat, page: Page)
    requires u != "" && k + 1 < MaxRetry
    ensures After(Snapshot(false, true, Some(u), k), page, HttpError)
         == Snapshot(false, true, GetEarlierUrl(u, HoursPerRetry * (k + 1)), k + 1)
  {
  }

  /** The non-ok answer that spends the last retry ends loading and keeps the cursor. */
  lemma LastRetryExhausts(u: string, k: nat, page: Page)
    requires u != "" && k + 1 == MaxRetry
    ensures After(Snapshot(false, true, Some(u), k), page, HttpError) == Snapshot(false, false, Some(u), k + 1)
  {
  }

  /**
   * Retries rewind from the URL just tried and run out after three failures:
   * starting from a cursor whose `start=` is at least a day, the first non-ok
   * answer moves it back 24 hours, the second 48 more (72 in all), the third
   * ends loading, and from then on `loadMore` fetches nothing.
   */
  lemma RetriesRewindThenExhaust(u: string, page: Page, outcome: FetchOutcome)
    requires StartValue(u).Some? && StartValue(u).value >= HoursToSeconds(HoursPerRetry)
    ensures var s1 := After(Snapshot(false, true, Some(u), 0), page, HttpError);
      var s2 := After(s1, page, HttpError);
      var s3 := After(s2, page, HttpError);
      && s1 == Snapshot(false, true, GetEarlierUrl(u, 24), 1)
      && s2 == Snapshot(false, true, GetEarlierUrl(u, 72), 2)
      && s3 == Snapshot(false, false, GetEarlierUrl(u, 72), 3)
      && LoadMoreStep(s3, page, outcome) == Began(s3, NoFetch)
  {
    RewindsCompose(u, 24, 48);
    var u1 := GetEarlierUrl(u, 24).value;
    GetEarlierUrlKeepsKey(u, 24);
    GetEarlierUrlKeepsKey(u1, 48);
    var u2 := GetEarlierUrl(u1, 48).value;
    RetryRewinds(u, 0, page);
    RetryRewinds(u1, 1, page);
    LastRetryExhausts(u2, 2, page);
  }

  /**
   * From any idle record that keeps the retry bound, three `loadMore` calls
   * that each meet a non-ok answer (when they fetch at all) leave nothing more
   * to load, and a later trigger fetches nothing: whatever the cursor is, with
   * or without `start=`, `null` included, and whether the first URL came from
   * the cursor or from the page's seed.
   */
  lemma ThreeFailuresExhaustAnywhere(s: Snapshot, page: Page, later: FetchOutcome)
    requires RetryBound(s) && !s.isLoading
    ensures var s3 := After(After(After(s, page, HttpError), page, HttpError), page, HttpError);
      && !s3.hasMore && !s3.isLoading
      && LoadMoreStep(s3, page, later) == Began(s3, NoFetch)
  {
  }

  /** With no cursor and no timestamp on the page, `loadMore` gives up for good
      without fetching, and keeps fetching nothing. */
  lemma NoSeedStopsLoading(s: Snapshot, page: Page, outcome: FetchOutcome)
    requires !s.isLoading && s.hasMore && !Truthy(s.nextUrl)
    requires InitialTimestamp(page.statusIds, page.dataTimestamps, page.dayIds).None?
    ensures LoadMoreStep(s, page, outcome) == Began(s.(hasMore := false), NoFetch)
    ensures LoadMoreStep(s.(hasMore := false), page, outcome) == Began(s.(hasMore := false), NoFetch)
  {
  }

  /** A page with a timestamp seeds the first request from it. */
  lemma SeedBuildsFirstUrl(page: Page, outcome: FetchOutcome)
    requires InitialTimestamp(page.statusIds, page.dataTimestamps, page.dayIds).Some?
    ensures var ts := InitialTimestamp(page.statusIds, page.dataTimestamps, page.dayIds).value;
      LoadMoreStep(Initial, page, outcome).dispatch == Fetch(BuildApiUrl(page.pathname, IntToString(ts)))
  {
    var ts := InitialTimestamp(page.statusIds, page.dataTimestamps, page.dayIds).value;
    IntToStringNonEmpty(ts);
  }

  /** An accepted page moves the cursor to `next_request`, and the next trigger
      fetches exactly that URL, without consulting the page again. */
  lemma CursorReusedVerbatim(s: Snapshot, page: Page, body: Response, later: FetchOutcome)
    requires !s.isLoading && s.hasMore && Accepted(body) && Truthy(body.nextRequest)
    requires LoadMoreStep(s, page, HttpOk(body)).dispatch.Fetch?
    ensures var s1 := After(s, page, HttpOk(body));
      && s1 == Snapshot(false, true, body.nextRequest, 0)
      && LoadMoreStep(s1, page, later).dispatch == Fetch(body.nextRequest)
  {
  }

  /** An accepted page without `next_request` ends loading; later triggers fetch nothing. */
  lemma LastPageStops(s: Snapshot, page: Page, body: Response, later: FetchOutcome)
    requires LoadMoreStep(s, page, HttpOk(body)).dispatch.Fetch?
    requires Accepted(body) && body.nextRequest.None?
    ensures var s1 := After(s, page, HttpOk(body));
      && !s1.hasMore && s1.retryCount == 0
      && LoadMoreStep(s1, page, later) == Began(s1, NoFetch)
  {
  }

  /** A fragment of at most 100 characters ends loading whatever `success` says,
      and spends no retry budget. */
  lemma ShortFragmentStops(s: Snapshot, page: Page, body: Response, later: FetchOutcome)
    requires LoadMoreStep(s, page, HttpOk(body)).dispatch.Fetch?
    requires body.blotterHtml.None? || |body.blotterHtml.value| <= MinFragmentLength
    ensures var s1 := After(s, page, HttpOk(body));
      && !s1.hasMore && s1.retryCount == 0 && s1.nextUrl == s.nextUrl
      && LoadMoreStep(s1, page, later) == Began(s1, NoFetch)
  {
  }

  /** A transport failure changes nothing but the loading flag, so the next
      trigger asks for the same request again. */
  lemma TransportFailureRetriesSameRequest(s: Snapshot, page: Page, later: FetchOutcome)
    requires LoadMoreStep(s, page, TransportError).dispatch.Fetch?
    ensures After(s, page, TransportError) == s
    ensures LoadMoreStep(After(s, page, TransportError), page, later).dispatch == LoadMoreStep(s, page, TransportError).dispatch
  {
  }
}
