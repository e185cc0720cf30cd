# Music search proxy: retrying upstream fetch, route handlers and search-result normaliser

This project is a Dafny model of the core of a small Express back end. The back end proxies
a third-party music API (JioSaavn).

The model covers two source files.

- `backend/routes/search.js` (module `SearchRoutes`):
  - `makeRequestWithRetry`, the fetch wrapper used against the upstream's cold starts. Attempt
    `i` gets a timeout of `initialTimeout * (i + 1)`. A success is returned at once, and any
    failure that is not a timeout (`ECONNABORTED`) is rethrown at once. After a timeout it
    waits `min(30000, 5000 * 2^i)` ms and tries again, until `maxRetries` attempts have been
    made; then the last error is thrown.
  - The decisions of the five GET handlers (search, song, playlist, album, lyrics):
    - a 400 reply when the query is missing;
    - the upstream URL each route builds;
    - which routes retry and which make a single 10 s call;
    - how a fetch outcome becomes a 200, 504 or 500 reply, and with which body.
- `backend/utils/jiosaavn_parser.js` (module `JioSaavnParser`):
  - `parseJioSaavnSearch`, which walks `apiResponse.results` and pushes one simplified
    `{name, artist, album, image, songUrl}` record for each usable song entry;
  - `decodeHtmlEntities`.

The transport is modelled as a function. The HTTP client becomes a scripted
`transport(url, k)`, giving the outcome of the k-th call to a URL. The retry method returns
the result and also the trace of attempts (each attempt's timeout and the wait after it).
It is proved equal to the specification functions `Calls`, `FetchResult` and `RetryTrace`,
and the lemmas state the retry policy in terms of those functions.

The JavaScript semantics the parser depends on live in module `Js`:
- JSON values plus `undefined`;
- truthiness and `a || b`;
- property reads with and without `?.`;
- `> 0`.

Module `JsString` models `String.prototype.replace` with a global regular expression made
of literal characters. It scans from the left, replaces non-overlapping matches and never
rescans the inserted text.

Where the code does something other than what a reader might expect, the model follows
the code:
- `decodeHtmlEntities` (lines 87-91) replaces each of `&`, `<`, `>`, `"` and `'` by the same
  character. As written it therefore returns every string unchanged: it decodes no
  `&amp;`-style entity. The model uses the literal chain and proves that it is the identity.
- The base URL already ends in `/`, and every route adds another `/`. Upstream URLs
  therefore contain `//` after the host.
- Only song, playlist and album append `&lyrics=true`. The lyrics route and the search
  route do not.
- The retry loop also waits after the final timed-out attempt before throwing.
- The record fields `name`, `artist`, `album` and `songUrl` carry whatever truthy value the
  upstream sent, not necessarily a string. Only `image` is forced to be a string.
- When `primary_artists` is a non-empty array whose first element is `null` or
  `undefined`, reading `.name` throws inside the per-element `try`. The element is then
  skipped, not given the default artist.
- An element of `results` that is itself `null` or `undefined` makes `item.type` throw
  outside that `try`, so the whole parse throws a TypeError.

## Model

| member | source | states |
|---|---|---|
| SearchRoutes.Backoff | backend/routes/search.js:32 | the wait after a timed-out attempt is always between 5000 and 30000 ms |
| SearchRoutes.BackoffMonotone | backend/routes/search.js:31-34 | a later attempt never waits less than an earlier one |
| SearchRoutes.BackoffClosedForm | backend/routes/search.js:32 | the wait doubles from 5000 ms for attempts 0-2 and is capped at 30000 ms from attempt 3; the default schedule is 5, 10, 20, 30 and 30 s |
| SearchRoutes.AttemptTimeoutsIncrease | backend/routes/search.js:12-16 | for a positive base, per-attempt timeouts strictly increase and stay within `initialTimeout * maxRetries` |
| SearchRoutes.Calls | backend/routes/search.js:12-36 | the number of calls is at most `maxRetries` (0 when it is not positive); every call except the last timed out; calls stop early only after a call that did not time out |
| SearchRoutes.CallsUnique | backend/routes/search.js:12-36 | the properties in `Calls`' contract determine the number of calls uniquely |
| SearchRoutes.RetryTrace | backend/routes/search.js:12-35 | the trace has one entry per call; entry k has timeout `initialTimeout * (k + 1)` and a backoff wait exactly when call k timed out |
| SearchRoutes.MakeRequestWithRetry | backend/routes/search.js:9-39 | the loop returns exactly `FetchResult` and records exactly `RetryTrace` for every transport, retry count and base timeout |
| SearchRoutes.FirstSuccessReturned | backend/routes/search.js:15-21 | after only timeouts, the first success is returned, no further call is made, and no wait follows it |
| SearchRoutes.OtherErrorRethrown | backend/routes/search.js:22-29 | after only timeouts, the first non-timeout failure is rethrown at once with its message, with no wait and no further call |
| SearchRoutes.AllTimeoutsExhaust | backend/routes/search.js:12-38 | when every call times out, exactly `maxRetries` calls are made, each followed by its backoff wait, and the last call's timeout error is thrown |
| SearchRoutes.NoAttemptsThrowUndefined | backend/routes/search.js:10-38 | with `maxRetries <= 0`, no call is made and the never-assigned `lastError` (`undefined`) is thrown |
| SearchRoutes.TraceSchedule | backend/routes/search.js:12-35 | for a positive base, timeouts along any trace strictly increase and stay within `initialTimeout * maxRetries`; waits follow exactly the timed-out calls, never shrink and never exceed 30 s |
| SearchRoutes.DefaultsAllTimeouts | backend/routes/search.js:9-38 | with the defaults (5, 60000) and a cold upstream: five calls of 60..300 s, waits of 5, 10, 20, 30 and 30 s, then the 300 s timeout error |
| SearchRoutes.TwoTimeoutsThenSuccess | backend/routes/search.js:12-21 | two timeouts and then a success give three calls with timeouts t, 2t and 3t, and the success is returned |
| SearchRoutes.UpstreamUrlParts | backend/routes/search.js:6-157 | every upstream URL starts with the base, has a double slash after the host and then the route's path, and gives back the encoded query after `/?query=`, followed only by `&lyrics=true` on song, playlist and album |
| SearchRoutes.UpstreamUrlInjective | backend/routes/search.js:49-157 | different (route, encoded query) pairs never produce the same upstream URL |
| SearchRoutes.SingleShot | backend/routes/search.js:116-118 | a single plain call returns exactly when the transport succeeds, with its response; when it fails, what it throws is never `undefined` |
| SearchRoutes.ReplyFor | backend/routes/search.js:55-168 | the status is always 200, 500 or 504; 200 with the upstream data exactly on success; 504 with the waking-up advisory exactly for a timeout on search or song; otherwise 500 with the route's message, with `error.message` as details on search and song and no details elsewhere |
| SearchRoutes.Handle | backend/routes/search.js:42-169 | status 400 exactly when the query is absent or empty, with the "Missing <route> query parameter" body and no upstream call; otherwise search and song reply from the retrying fetch with the defaults, and the other routes from one 10 s call |
| SearchRoutes.RetryingRouteStatus | backend/routes/search.js:51-70 | search and song answer 504 exactly when all five calls time out, and 200 exactly when some call succeeds after only timeouts |
| Js.Or | backend/utils/jiosaavn_parser.js:30-51 | the or-default is one of its two operands, and it is truthy exactly when either operand is; so a default of 'Unknown Title', 'Unknown Artist' or 'Unknown Album' always gives a truthy value |
| JsString.ReplaceAllSelf | backend/utils/jiosaavn_parser.js:87-91 | replacing a pattern by itself leaves every string unchanged |
| JsString.ReplaceAllNoMatch | backend/utils/jiosaavn_parser.js:44 | a string without the pattern is left unchanged |
| JsString.ReplaceAllCopies | backend/utils/jiosaavn_parser.js:44 | the characters before the first match are copied unchanged, and replacement goes on from there |
| JsString.ReplaceAllLeftmost | backend/utils/jiosaavn_parser.js:44 | the leftmost match is replaced, the text before it is copied, and scanning resumes right after the match (never inside the inserted text) |
| JsString.ReplaceAllOnce | backend/utils/jiosaavn_parser.js:44 | a string with a single occurrence of the pattern has exactly that occurrence replaced |
| JsString.ReplaceAllSameLength | backend/utils/jiosaavn_parser.js:44 | a replacement as long as the pattern (the '150x150' to '500x500' pass) keeps the string's length |
| JsString.ReplaceAllNotShorter | backend/utils/jiosaavn_parser.js:44 | a replacement at least as long as the pattern (the '50x50' to '500x500' pass) never shortens the string |
| JioSaavnParser.DecodeHtmlEntities | backend/utils/jiosaavn_parser.js:83-91 | a non-string is returned unchanged, and a string stays a string |
| JioSaavnParser.DecodeHtmlEntitiesIsIdentity | backend/utils/jiosaavn_parser.js:83-91 | as written, the decoder returns every value unchanged |
| JioSaavnParser.PrimaryArtist | backend/utils/jiosaavn_parser.js:33-36 | when the artist read does not throw, the artist is truthy |
| JioSaavnParser.PrimaryArtistOfArray | backend/utils/jiosaavn_parser.js:33-36 | for an array of primary artists: the default when it is empty; a skip when the first element is null or undefined; the first element's `name` when it is truthy; the default otherwise |
| JioSaavnParser.ImageSpec | backend/utils/jiosaavn_parser.js:42-47 | the image is '' unless it is a non-empty string; a string holding neither size mark is kept as it is |
| JioSaavnParser.ImageNotShorter | backend/utils/jiosaavn_parser.js:42-44 | for a non-empty string image, the '150x150' pass keeps its length and the upgraded URL is never shorter than the original |
| JioSaavnParser.ImageUpgradesThumbnail | backend/utils/jiosaavn_parser.js:44 | a URL containing '150x150' (and no other 'x') has it replaced by '500x500'; the second replace does not touch the result |
| JioSaavnParser.ImageUpgradesSmallThumbnail | backend/utils/jiosaavn_parser.js:44 | a URL containing '50x50' (and no other 'x') has it replaced by '500x500' |
| JioSaavnParser.SimplifyItemSpec | backend/utils/jiosaavn_parser.js:27-64 | an element yields a record exactly when all of these hold: it is a song entry; its title is truthy and not 'Unknown Title'; its `encrypted_media_url` is truthy; its artist read does not throw. Name, artist, album and song URL are then the element's own values (or their defaults) and are truthy; the image is `Image(item.image)` |
| JioSaavnParser.TrySimplify | backend/utils/jiosaavn_parser.js:28-71 | the `try` block, with its reassignments of `artist` and `image`, pushes exactly the record `SimplifyItem` describes |
| JioSaavnParser.SimplifyAll | backend/utils/jiosaavn_parser.js:24-73 | the output is no longer than `results` |
| JioSaavnParser.SimplifyAllOrder | backend/utils/jiosaavn_parser.js:24-73 | the output is the subsequence of the elements that yield a record: each record comes from its element, the order is kept, and no yielding element is missed |
| JioSaavnParser.SimplifyAllRecords | backend/utils/jiosaavn_parser.js:56-64 | every record has a truthy song URL, name, artist and album, and a name other than 'Unknown Title' |
| JioSaavnParser.ParseJioSaavnSearch | backend/utils/jiosaavn_parser.js:10-76 | returns [] when `results` is not an array; throws a TypeError at the first null or undefined element, and exactly when one exists; otherwise returns exactly the records of the elements, in order |

## Left out

- Network I/O, `axios` and its headers (the User-Agent string), the `setTimeout` sleep, the
  `async`/`await` scheduling and all `console` logging are not modelled. The transport is a
  parameter, and the waits are recorded in the trace instead of slept.
- `encodeURIComponent` is a parameter `encode` of `Handle`; its escaping is not modelled.
- Express itself (`res.status(...).json(...)`, routing) is modelled only as the `Reply`
  value. Query parameters that Express parses into arrays or objects are not modelled: the
  query is an optional string.
- `backend/server.js`, its middleware and its keep-alive pinger are not part of this model.
- SearchRoutes.ReplyFor: requires that search and song never see an `undefined` error. In
  the source, reading `error.code` of `undefined` would throw inside the `catch`. This can
  happen only when `maxRetries <= 0`, and the handlers always use 5.
- Js.GreaterThanZero: a `length` that is a string or an array (possible only for a plain
  object posing as `primary_artists`) compares as not greater than 0. JavaScript's
  string-to-number conversion is not modelled.
- Js.Get: the prototype chain is not modelled. None of the keys the parser reads exists on
  it.
- JSON numbers are reals. Floating-point precision does not affect any decision modelled
  here.
- String lengths count characters, not UTF-16 code units.
