# FSA infinite scroll, modelled in Dafny

FSA ("Fix Steam Activities") is a user script for Steam Community activity pages. It repairs the feed's infinite scroll. This project models its pagination core in Dafny 4 and proves the properties below. The core has three parts.

- **The `scrollState` record and `loadMore`** (module `Pagination`). `loadMore` has three phases:
  - It admits a request only when nothing is loading and more may come.
  - It uses the stored cursor URL. If there is none, it builds a URL from the page's earliest timestamp.
  - It fetches that URL and folds the answer back into the record.

  On the k-th failure in a row the retry path rewinds the URL just tried by 24·k hours: 24 hours, then 48 more. The third failure (`MAX_RETRY = 3`) ends loading instead. The debug `reset()` and `status()` are modelled too.
- **The request builder** (module `FeedUrls`):
  - `buildApiUrl` derives the `ajaxgetusernews` endpoint from the page path.
  - `getEarlierUrl` rewrites the first `start=<digits>` parameter of a URL to an earlier time.
- **The seed resolver** (module `Timestamps`). `getInitialTimestamp` takes one minimum over the `userstatus_<ts>_` ids and the truthy `data-timestamp` values together. Only when both give nothing does it fall back to the id of the last `.blotter_day` block.

How the model is built:

- `Text` holds the character-level pieces the script uses:
  - its regular expressions. Each `Pattern` is "literal, then a greedy run of one character class, then an optional closing character". The path regex `/\/(id|profiles)\/([^/]+)/` is an alternation; `FeedUrls.ProfileMatch` models it as two `Pattern`s, taking whichever matches first;
  - `parseInt(…, 10)`;
  - `String(n)`.
- `UrlCases` holds the builder's boundary cases.
- `loadMore` has two `await`s: `fetch` (`fsa.user.js:196`) and `response.json()` (`fsa.user.js:216`). The model splits it at the first:
  - `ScrollState.Begin` runs the guard, resolves the URL and sets `isLoading`.
  - `ScrollState.Complete` takes the fetch's outcome and runs the rest through `finally`. The outcome already includes the result of the second `await`: `BodyUnreadable` or the parsed body.
  - `ScrollState.LoadMore` is the two in sequence.
- Each method is proved against a pure step function on `Snapshot`: `BeginStep`, `CompleteStep` or `LoadMoreStep`. The multi-step lemmas are stated over these functions.
- The network is the `FetchOutcome` parameter, with four cases:
  - `TransportError`: `fetch` throws.
  - `HttpError`: the response is not ok.
  - `BodyUnreadable`: `response.json()` or reading its fields throws.
  - `HttpOk(Response(success, blotterHtml, nextRequest))`.
- A ghost sequence stands for the feed container, and a ghost `inFlight` count stands for the suspended `loadMore` calls.

Behaviour of the code that the model keeps, because a reader might expect otherwise:

- **One minimum, not an ordered ladder.** The status ids and the `data-timestamp` values feed one minimum (`fsa.user.js:130-143`). A `data-timestamp` smaller than every status id therefore wins even when status ids exist.
- **URL resolved before `isLoading` is set.** `isLoading` is set only after the URL is resolved (`fsa.user.js:179-190`). When no seed exists, the call sets `hasMore` to false and returns without ever setting `isLoading`.
- **A null URL is still fetched.** A page path without an actor segment makes `buildApiUrl` return `null`, and that `null` is passed to `fetch` anyway (`fsa.user.js:186-196`). If that request answers non-ok while `retryCount` stays below 3 after the increment, `getEarlierUrl(null, …)` throws inside the `try`. The catch swallows the throw. The retry counter has already been raised, and the cursor stays as it was. On the third failure the call is never made, and loading ends (`fsa.user.js:206-211`).
- **Only two rewinds.** A rewind is computed only while `retryCount` stays below 3 after the increment. So the first failure rewinds 24 hours and the second 48 more (72 in all), counted from the URL just tried. The third failure ends loading without a rewind (`fsa.user.js:204-211`).
- **A rewind can go below zero.** A rewind longer than the timestamp writes a negative value (`start=1000` becomes `start=-85400`). `start=(\d+)` cannot match that value again.
- **Reset breaks exclusion while a request is pending.** `reset()` clears `isLoading` even while a request is suspended (`fsa.user.js:406-411`). A second request can then start while the first is pending. `ScrollState.Reset` states exactly this: exclusion holds afterwards if and only if no request was in flight. Every other operation preserves at-most-one-request-in-flight (`Exclusive`).

## Model

| member | source | states |
|---|---|---|
| Text.Run | fsa.user.js:170 | The greedy run of a character class that `\d+` or `[^/]+` consumes: every character in it belongs to the class, and the character after it does not. |
| Text.FindFirst | fsa.user.js:157 | The leftmost match at or after `from`, as `String.prototype.match` finds it: the result matches, no earlier position matches, and `None` means no position matches. |
| Text.Captured | fsa.user.js:160 | The captured group of a match is non-empty and made of class characters. |
| Text.FirstMatchValue | fsa.user.js:133-135 | The value of the first match's digit group is absent exactly when no position matches. |
| Text.DecimalValue | fsa.user.js:135 | `parseInt(match[1], 10)` on a `\d+` capture: the base-10 value of the digits. `Text.ParseIntOfDigits` proves `parseInt` gives it, and `Text.NatToStringDecodes` proves it reads `String(n)` back as `n`. |
| Text.Contains | fsa.user.js:161 | `s.includes(pat)` holds exactly when `pat` occurs in `s` at some position. |
| Text.ParseInt | fsa.user.js:141 | `parseInt(s, 10)` gives `NaN` (`None`) exactly when the character after the leading JavaScript white space and the optional sign is not a digit, or there is none. |
| Text.ParseIntOfPrefix | fsa.user.js:141 | The value `parseInt` reads from text of the form: JavaScript white space, then an optional `+` or `-`, then a digit run, then anything not starting with a digit. It is the decimal value of the digit run, negated after `-`. Example: `" 42abc"` reads as 42. |
| Text.ParseIntOfDigits | fsa.user.js:141 | `parseInt` of a digit string is its decimal value. |
| Text.ParseIntOfNegated | fsa.user.js:141 | `parseInt` of `-` followed by digits is the negated decimal value. |
| Text.ParseIntOfIntToString | fsa.user.js:153 | `parseInt(String(n))` is `n` for every integer. |
| Text.NatToStringDecodes | fsa.user.js:153 | `String(n)` of a non-negative `n` has these properties: it is non-empty; it is all digits; it has no leading zero; it reads back as `n`. |
| Text.NatToString | fsa.user.js:153 | `String(n)` of a non-negative integer, in decimal. Its meaning is given by `Text.NatToStringDecodes`. |
| Text.IntToString | fsa.user.js:153 | `String(n)`: a `-` before the digits of the magnitude when `n < 0`. `Text.ParseIntOfIntToString` shows `parseInt` reads `n` back, and `Text.IntToStringNonEmpty` shows it is never empty. |
| Text.IntToStringNonEmpty | fsa.user.js:182 | `String(minTs)` is never the empty string, so `!ts` holds only for `null`. |
| FeedUrls.ProfileMatch | fsa.user.js:157 | `/\/(id\|profiles)\/([^/]+)/` on the path: none exactly when neither alternative matches anywhere; otherwise the leftmost match, its actor type, and its identifier, which is non-empty and has no `/`. |
| FeedUrls.BuildApiUrl | fsa.user.js:156-167 | `null` exactly when the path has no `/(id\|profiles)/<segment>`. Otherwise it is `https://steamcommunity.com/<type>/<identifier>/ajaxgetusernews/?start=<ts>` for the leftmost match, plus `&myactivity=1` exactly when the path includes `myactivity`. |
| FeedUrls.ApiUrl | fsa.user.js:163-164 | The endpoint template `https://steamcommunity.com/<type>/<identifier>/ajaxgetusernews/?start=<ts>`, with `&myactivity=1` appended when the flag is set. `FeedUrls.BuildApiUrl` returns it for the path's leftmost match, and `FeedUrls.ApiUrlRewindFor` proves rewinding it is the template of the earlier time. |
| FeedUrls.StartValue | fsa.user.js:170-171 | The first `start=<digits>` value of a URL is absent exactly when no `start=` is directly followed by a digit. |
| FeedUrls.GetEarlierUrl | fsa.user.js:169-174 | `getEarlierUrl(url, hoursBack)`, defined on the first `start=(\d+)` match. Its meaning is proved separately: `null` exactly when no match (`FeedUrls.GetEarlierUrlFails`); only that match rewritten, every other character kept (`FeedUrls.SplitAtStart` with `FeedUrls.RewriteOfFirstStart`); rewinds add up (`FeedUrls.RewindsCompose`); a rewound API URL is the API URL of the earlier time (`FeedUrls.ApiUrlRewind`). |
| FeedUrls.HoursToSeconds | fsa.user.js:172 | `hoursBack * 3600`, exact on integers. `FeedUrls.ShiftTwice` relies on it being additive: a rewind of `a` hours followed by one of `b` hours equals one rewind of `a + b` hours. |
| FeedUrls.Shifted | fsa.user.js:171-173 | The text written back for the digits: `String(parseInt(digits) - hoursBack * 3600)`. `FeedUrls.ShiftedDecodes` and `FeedUrls.ShiftTwice` give its meaning. |
| FeedUrls.GetEarlierUrlFails | fsa.user.js:169-171 | `getEarlierUrl` returns `null` exactly when the URL has no `start=` directly followed by a digit. |
| FeedUrls.GetEarlierUrlKeepsKey | fsa.user.js:173 | A rewritten URL includes `start=` (at the position of the original match), so it is non-empty and truthy as a cursor. |
| FeedUrls.FirstStartAt | fsa.user.js:170 | In `pre + "start=" + digits + tail`, where nothing in `pre` starts a match and `tail` does not continue the digits, the first match is right after `pre` and its digits are exactly `digits`. |
| FeedUrls.RewriteOfFirstStart | fsa.user.js:169-174 | Only the first `start=<digits>` is replaced: `pre + "start=" + w + tail` becomes `pre + "start=" + (w − 3600·h) + tail`, with every other character kept, and its start value is the value of `w`. |
| FeedUrls.SplitAtStart | fsa.user.js:170 | Any URL with a start value can be cut as `pre + "start=" + digits + tail`, with no earlier match, where the digits read as that value. |
| FeedUrls.SamePrefixSameStartMatch | fsa.user.js:170 | A match that ends inside `x` does not depend on which digit follows `x`. |
| FeedUrls.SamePrefixNoStart | fsa.user.js:173 | Replacing the digits after the first `start=` with other digits keeps it the first match. |
| FeedUrls.ShiftedDecodes | fsa.user.js:171-173 | A rewind that stays non-negative writes back a non-empty digit string that reads as the value minus `3600·h`. |
| FeedUrls.ShiftTwice | fsa.user.js:171 | Rewinding by `a` hours and then `b` hours shifts the value like one rewind by `a + b` hours. |
| FeedUrls.RewindValue | fsa.user.js:169-174 | A rewind that stays non-negative gives a URL whose start value is the old one minus `3600·h`. |
| FeedUrls.RewindsCompose | fsa.user.js:207 | Rewinds accumulate: `getEarlierUrl(getEarlierUrl(u, a), b) = getEarlierUrl(u, a + b)` when the first rewind stays non-negative. |
| FeedUrls.NoStartInSlashWindow | fsa.user.js:163 | Suppose the only `=` before a position lies in a window that follows a `/` and does not contain `start=`. Then no `start=` match begins before that position. |
| FeedUrls.NoStartAroundIdentifier | fsa.user.js:163 | In `a + identifier + b + "start=" + rest`, no match begins before `start=` when `a` ends with `/`, neither `a` nor `b` holds `=`, and the identifier has no `start=`. |
| FeedUrls.NoStartBeforeQuery | fsa.user.js:163 | A built endpoint has no `start=` match before its query when the identifier has none. |
| FeedUrls.ShiftedCanonical | fsa.user.js:171-173 | Rewinding the canonical text of `t` gives the canonical text of `t − 3600·h`. |
| FeedUrls.ApiUrlRewindFor | fsa.user.js:163-173 | On the endpoint template, rewinding the URL for timestamp `t` gives the URL for `t − 3600·h`. |
| FeedUrls.ApiUrlRewind | fsa.user.js:156-174 | Round trip: `getEarlierUrl(buildApiUrl(T), h) = buildApiUrl(T − 3600·h)` for a canonical decimal `T ≥ 3600·h` and an identifier without `start=`. |
| UrlCases.NoActorSegmentBuildsNothing | fsa.user.js:157-158 | A path containing neither `/id/` nor `/profiles/` builds no URL. |
| UrlCases.MyHomeBuildsNothing | fsa.user.js:9 | On `/my/home`, where the script also runs, `buildApiUrl` returns `null`. |
| UrlCases.MyActivityBuildsNothing | fsa.user.js:12 | On `/my/myactivity`, `buildApiUrl` returns `null`. |
| UrlCases.ProfileAtStart | fsa.user.js:157 | A path that begins with `/id/` or `/profiles/`, followed by a segment without `/`, matches that alternative at position 0 with that segment as its identifier, provided the other alternative does not match at 0. |
| UrlCases.AliceProfile | fsa.user.js:157 | On `/id/alice/myactivity` the path regex gives actor type `id` and identifier `alice`. |
| UrlCases.AliceActivityUrl | fsa.user.js:156-167 | `buildApiUrl` on `/id/alice/myactivity` gives the `id/alice` endpoint with `&myactivity=1`. |
| UrlCases.NumericProfile | fsa.user.js:157 | On `/profiles/12345/home` the path regex gives actor type `profiles` and identifier `12345`. |
| UrlCases.NumericHomeUrl | fsa.user.js:156-167 | `buildApiUrl` on `/profiles/12345/home` gives the `profiles/12345` endpoint without the `myactivity` flag. |
| UrlCases.NoEqualsCannotRewind | fsa.user.js:170-171 | A URL without `=` has no `start` parameter, and `getEarlierUrl` returns `null`. |
| UrlCases.ShiftOfThousand | fsa.user.js:171 | `1000` moved back 24 hours is written `-85400`. |
| UrlCases.NoEqualsNoEarlierStart | fsa.user.js:170 | With no `=` before a `start=`, no match begins before it. When a digit follows it, it is the URL's first match. |
| UrlCases.RewindOfSmallStart | fsa.user.js:169-174 | `getEarlierUrl("…start=1000…", 24)` is `"…start=-85400…"`. |
| Timestamps.StatusValue | fsa.user.js:133-136 | The timestamp a `userstatus_` id contributes: the digits of `/userstatus_(\d+)_/`, or nothing when it does not match. |
| Timestamps.DataValue | fsa.user.js:140-142 | The timestamp a `data-timestamp` value contributes: `parseInt` of it, kept only when it is truthy (neither `NaN` nor 0). |
| Timestamps.Lower | fsa.user.js:136-142 | One `if (ts < minTs) minTs = ts` step. A missing candidate is skipped, and a tie keeps the earlier value. `Timestamps.MinOfIsMinimum` proves that the steps together give the least candidate. |
| Timestamps.MinOf | fsa.user.js:130-143 | The running `if (ts < minTs) minTs = ts` over a sequence of candidates, `None` standing for `Infinity`. `Timestamps.MinOfIsMinimum` gives its meaning. |
| Timestamps.DayFallback | fsa.user.js:145-151 | The fallback: the digits of `/blotter_day_(\d+)/` in the id of the last day block, or nothing when there is no block or it does not match. |
| Timestamps.InitialTimestamp | fsa.user.js:129-153 | The value `getInitialTimestamp` settles on. `Timestamps.InitialTimestampChoice` proves it is the least candidate of both sources, the day fallback only without candidates, and `null` exactly when all three give nothing. |
| Timestamps.SeedText | fsa.user.js:153 | `Infinity` becomes `null`, any other value `String(minTs)`. |
| Timestamps.MinOfIsMinimum | fsa.user.js:130-143 | The running `minTs` after a scan is absent exactly when the start value and every candidate are absent. It is the start value or one of the candidates. It is at most each of them. |
| Timestamps.MinOfBoth | fsa.user.js:130-143 | Two scans in a row compute the minimum of both candidate lists together. |
| Timestamps.InitialTimestampChoice | fsa.user.js:129-154 | When either source has a candidate, the result is the least candidate of both sources and is one of them. Only when both are empty is it the last day block's timestamp. It is `null` exactly when all three give nothing. |
| Timestamps.GetInitialTimestamp | fsa.user.js:129-154 | The two `forEach` scans and the fallback return `String` of that value, or `null`. |
| Pagination.Truthy | fsa.user.js:179 | JavaScript truthiness of a URL: neither `null` nor the empty string. |
| Pagination.Seed | fsa.user.js:181 | The value of the `getInitialTimestamp()` call for a page: `SeedText` of `InitialTimestamp`, equal to what the method `Timestamps.GetInitialTimestamp` returns. |
| Pagination.Appended | fsa.user.js:219-225 | The fragments added to the feed container: the accepted `blotter_html` when the container exists, otherwise nothing. `Pagination.ScrollState.Complete` extends its log by exactly this. |
| Pagination.Accepted | fsa.user.js:218 | The acceptance test: `success`, a truthy fragment, and a fragment longer than 100 characters. |
| Pagination.BeginStep | fsa.user.js:176-190 | The guard: while loading or exhausted, nothing changes and nothing is fetched. A request starts exactly when a truthy cursor or a seed exists, and only `isLoading` changes. A truthy cursor is fetched verbatim; otherwise the URL built from the seed is fetched, `null` included. No seed sets `hasMore` to false without fetching. The retry bound is kept. |
| Pagination.CompleteStep | fsa.user.js:195-238 | `isLoading` is false on every exit. A transport throw changes nothing else. A non-ok answer raises `retryCount` by one. Below 3 it rewinds from the URL just tried by `24·retryCount` hours; a `null` URL throws and keeps the cursor; at 3 it ends loading. An unreadable body only resets `retryCount`. An accepted page resets `retryCount`, sets the cursor to `next_request`, and keeps loading exactly when that is truthy. A rejected page ends loading. `hasMore ⇒ retryCount < 3` is preserved. |
| Pagination.LoadMoreStep | fsa.user.js:176-239 | A whole call dispatches what `BeginStep` dispatches, is not loading afterwards when it was not before, and keeps the retry bound. |
| Pagination.ScrollState.constructor | fsa.user.js:122-127 | The initial record is `false`, `true`, `null`, `0`, with no fragment and no request in flight. |
| Pagination.ScrollState.Reset | fsa.user.js:406-411 | Restores exactly the initial record and leaves the appended fragments alone. Exclusion holds afterwards exactly when no request was in flight. |
| Pagination.ScrollState.Begin | fsa.user.js:176-190 | Updates the fields as `BeginStep` says and counts a started request. Keeps the retry bound and exclusion. |
| Pagination.ScrollState.Complete | fsa.user.js:195-238 | Updates the fields as `CompleteStep` says. Appends the fragment when the page is accepted and the container exists. Retires one request. Keeps the retry bound and exclusion. |
| Pagination.ScrollState.LoadMore | fsa.user.js:176-239 | One call is `LoadMoreStep`. The fragment is appended only for a dispatched, accepted request. |
| Pagination.RetryRewinds | fsa.user.js:204-208 | A non-ok answer with budget left rewinds the cursor by `24·retryCount` hours from the URL just tried and keeps loading possible. |
| Pagination.LastRetryExhausts | fsa.user.js:209-211 | The non-ok answer that spends the third retry ends loading and keeps the cursor. |
| Pagination.RetriesRewindThenExhaust | fsa.user.js:204-213 | From a cursor of at least one day, three consecutive non-ok answers do the following: rewind 24 hours, rewind to 72 hours in all, then end loading. A fourth trigger fetches nothing. |
| Pagination.ThreeFailuresExhaustAnywhere | fsa.user.js:204-213 | From any idle record that keeps the retry bound, three `loadMore` calls meeting non-ok answers leave `hasMore` false, and a fourth trigger fetches nothing. This holds for any cursor: one without `start=`, `null` (the `/my/…` pages), or a first URL built from the seed. |
| Pagination.NoSeedStopsLoading | fsa.user.js:179-185 | With no cursor and no seed, `loadMore` sets `hasMore` to false without fetching, and later triggers are no-ops. |
| Pagination.SeedBuildsFirstUrl | fsa.user.js:179-187 | From the initial record, a page with a timestamp fetches `buildApiUrl(String(ts))`. |
| Pagination.CursorReusedVerbatim | fsa.user.js:227-229 | After an accepted page with a truthy `next_request`, the record is loading-possible with that cursor and zero retries, and the next trigger fetches exactly that URL. |
| Pagination.LastPageStops | fsa.user.js:227-229 | An accepted page without `next_request` ends loading, and a later trigger is a no-op. |
| Pagination.ShortFragmentStops | fsa.user.js:217-231 | A missing fragment, or one of at most 100 characters, ends loading whatever `success` says; it spends no retry budget and keeps the cursor. |
| Pagination.TransportFailureRetriesSameRequest | fsa.user.js:233-238 | A transport throw leaves the record as it was, so the next trigger asks for the same URL. |

## Proof helpers

These lemmas are general facts about sequences and constants that the proofs above use. They model nothing in the script by themselves:

- `Text.MissingCharExcludes`: a string lacking a character of `pat` does not include `pat`.
- `Text.SplitFour`: a string is the concatenation of its slices at three cut points.
- `Text.SpaceRunOf`, `Text.SignCharAt`, `Text.SignedDigitsAt` and `Text.ParseIntAt`: steps of `Text.ParseIntOfPrefix`.
- `Text.RunIs`, `Text.FindFirstIs`: a run and a first match are determined by where they stop or start.
- `Text.ConcatAssoc`, `Text.IntToStringOfNat`: associativity of concatenation, and `String(n)` of a non-negative `n`.
- `FeedUrls.StartMatchShape`: a `start=` match character by character.
- `Pagination.After`: the record after one whole `loadMore` call, used by the multi-step lemmas.
- `FeedUrls.SlicesAroundDigits`: the slices of `pre + "start=" + w + tail` around `w`.
- `FeedUrls.OriginHasNoEquals`: the endpoint origin holds no `=`.
- The `UrlCases.AlicePath…` and `UrlCases.NumericPath…` lemmas: character facts about the two example paths.

## Left out

- The network, request headers and cookies. `fetch` and `response.json()` are replaced by the `FetchOutcome` parameter.
- The HTML insertion. `innerHTML` parsing and the child-moving loop (`fsa.user.js:221-225`) become one ghost log entry per accepted fragment.
- `diagnose`, `fix` and `fixStructure` (`fsa.user.js:41-118`). They are DOM inspection and node relocation, which depend on browser selector and tree semantics.
- The floating button, the busy indicator (throbber) and their timers (`fsa.user.js:192-193`, `fsa.user.js:237`, `fsa.user.js:262-321`). They are presentation only.
- `waitForElement`, `init` and start-up (`fsa.user.js:339-398`, `fsa.user.js:416-420`). These are MutationObserver, timer and promise plumbing.
- `onScroll`'s pixel geometry (`fsa.user.js:244-247`). It uses browser floating-point layout. The trigger is a bare call to `loadMore`, whose own guard (`fsa.user.js:177`) repeats the one in `onScroll`.
- The DOM queries behind the seed inputs. `Page` carries the ids matched by `[id^="userstatus_"]`, the `data-timestamp` values and the `.blotter_day` ids, in document order.
- JavaScript numbers:
  - Timestamps are mathematical integers, so float precision above 2^53 is ignored.
  - `String(n)` is modelled without exponent notation.
  - `parseInt` is modelled on strings of Unicode scalar values, not of UTF-16 code units.
- Response fields of unexpected JavaScript types. A non-boolean `success`, or a non-string `blotter_html` or `next_request`, is not modelled. The body is a `Response` of a boolean and two optional strings.
- Pagination.Accepted: counts the length of `blotter_html` in Unicode scalar values, whereas JavaScript counts UTF-16 code units.
- Asynchronous interleaving beyond the begin/complete split. Several suspended calls are represented only by the ghost `inFlight` count.
- Console logging (`log`, `error`).
- `status()` is the `ScrollState.Status` function, a copy of the four fields. It has no row because it only reads the fields.
- FeedUrls.ApiUrlRewind: holds only for an identifier without `start=`. For an identifier with `start=` followed by a digit, `getEarlierUrl` would rewrite that occurrence instead of the query parameter.
