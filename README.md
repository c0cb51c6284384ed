# valhalla-mcp core, modelled in Dafny

This project models the sequential logic of valhalla-mcp, an MCP server that exposes the Valhalla routing engine as tools and resources, and proves properties of that model. It covers eight components, each modelled on its own:

- **Polyline decoder** (`Polyline`). `ValhallaClient.decodePolyline` reads Google's encoded polyline format at six-digit precision: characters offset by 63, 5-bit chunks with a 0x20 continuation bit, zig-zag signs, and deltas prefix-summed into latitude/longitude pairs.
  - The decoder is an imperative method proved equal to a recursive specification.
  - JavaScript's 32-bit `<<`, `|`, `>>` and `~` are written out.
  - A model-side encoder proves the round trip.
- **TTL cache** (`Cache`). The class `MemoryCache` holds a map from key to value and expiry. `get` evicts lazily and `cleanup` sweeps.
- **Metrics collector** (`Metrics`). The class `MetricsCollector` holds a history capped at 1000 records and two cache counters.
  - The summary is computed by a loop proved against a specification function.
  - The health vote looks at the last 50 records.
  - There are two debugging views.
- **Error classifier** (`Errors`). The `ErrorCode` enum, `StandardError` and its subclasses, `toResponse`, and the ordered decision `handleError`.
- **Input validators** (`Validation`). The zod schemas become predicates over a JSON value. `validateAndSanitize` maps zod's issues into `ValidationError` issues.
- **Tile guard** (`Tile`). The ordered `parseInt` and range checks of the tile resource, the fetch they protect, and the JSON error content.
- **Route tool** (`Route`):
  - the input schema and the engine request;
  - the response check;
  - decoding and the `[lon, lat]` swap, the bbox, and the alternates filter;
  - the error result.
- **Isochrone tool** (`Isochrone`). The input schema, the engine request, the pass-through of the answer, and the error result.

Shared modules:

- `Wrappers`: `Option` and `Result`.
- `Js`: the JavaScript behaviour the code depends on:
  - a JSON value;
  - `Array.prototype.slice` with negative indices, `reverse`, `Math.round` and `Math.pow(2, n)`;
  - `String(n)` and a decimal `parseInt`.
- `Engine`: the request and response records of `src/clients/valhalla.ts`, their JSON form, and the shape of a tool result.

The clock is an explicit parameter `now` (milliseconds). The Valhalla engine is a function parameter of the tools and the tile resource.

Two behaviours of the code that a reader might not expect, and that the model keeps:

- **Truncated polylines.** `decodePolyline` does not reject truncated input. It reads past the end of the string: `charCodeAt` gives NaN, so the group ends there, and a pair is still pushed. `Polyline.NonEmptyDecodes` and `Polyline.TruncatedExample` state this.
- **Cache expiry.** An entry is still served at exactly its expiry time, because the test is the strict `now > expiry`. It is gone one millisecond later. `Cache.LookupAfterStore` states this.

## Model

| member | source | states |
|---|---|---|
| Polyline.ReadGroupLoop | src/clients/valhalla.ts:157-161 | The `do…while` chunk loop returns the group value and the index after the group that the recursive `ReadGroup` gives, and always terminates |
| Polyline.DecodePolyline | src/clients/valhalla.ts:146-182 | The decoding loop terminates on every input and returns exactly `Decode(encoded)` (integer micro-degrees) |
| Polyline.Decode | src/clients/valhalla.ts:146-182 | The specification of `decodePolyline`: the running sums of the zig-zag deltas read pair by pair, in micro-degrees; its contract is stated by `DecodePolyline`, `DecodeIsPrefixSum`, `DecodeLength` and `RoundTrip` |
| Polyline.GroupIsSumOfChunks | src/clients/valhalla.ts:157-161 | For a group of at most six characters, the value is the sum of `((c-63) & 0x1f) * 32^k` over its characters, and the group ends at the first character below 0x20 after removing the offset |
| Polyline.ZigZagDecodeSmall | src/clients/valhalla.ts:163 | For a 31-bit result r, odd r decodes to `-(r>>1)-1` and even r to `r>>1` |
| Polyline.ZigZagRoundTrip | src/clients/valhalla.ts:163-175 | The zig-zag encoding of any delta in [-2^30, 2^30) fits in 31 bits and decodes back to that delta |
| Polyline.DecodeIsPrefixSum | src/clients/valhalla.ts:163-178 | The i-th pair is (sum of the first i+1 latitude deltas, sum of the first i+1 longitude deltas), latitude first |
| Polyline.DecodeEmpty | src/clients/valhalla.ts:152 | The empty string decodes to no pairs |
| Polyline.DecodeLength | src/clients/valhalla.ts:152-173 | Every pair consumes at least two characters, so at most `(len+1)/2` pairs come out |
| Polyline.ReadPastEnd | src/clients/valhalla.ts:158-161 | A group read at or past the end of the string ends there and adds nothing (NaN & 0x1f is 0) |
| Polyline.NonEmptyDecodes | src/clients/valhalla.ts:152-178 | Truncated input is not rejected: every non-empty string yields at least one pair |
| Polyline.TruncatedExample | src/clients/valhalla.ts:158-178 | The single continuation character "_" decodes to the pair (0, 0) rather than failing |
| Polyline.RoundTrip | src/clients/valhalla.ts:146-182 | Decoding the standard encoding of any path of points within ±2^28 micro-degrees gives the path back |
| Cache.MemoryCache.constructor | src/utils/cache.ts:10-19 | A new cache is empty and keeps the given default TTL |
| Cache.MemoryCache.Set | src/utils/cache.ts:21-24 | The key is overwritten with expiry `now + (ttlMs \|\| defaultTTL)`; no other key changes |
| Cache.MemoryCache.Get | src/utils/cache.ts:26-39 | Returns the value iff the key is present and `now <= expiry`; an expired entry is removed, and nothing else changes |
| Cache.MemoryCache.Delete | src/utils/cache.ts:41-43 | Returns true iff the key was present; afterwards it is absent and every other entry is unchanged |
| Cache.MemoryCache.Clear | src/utils/cache.ts:45-51 | The map is empty and `size()` is 0 |
| Cache.MemoryCache.Cleanup | src/utils/cache.ts:53-60 | The loop over the entries removes exactly those with `now > expiry` and keeps every other entry unchanged |
| Cache.MemoryCache.Size | src/utils/cache.ts:49-51 | The number of entries held, expired ones included until they are read or swept |
| Cache.MemoryCache.GetStats | src/utils/cache.ts:63-68 | Reports the current size and the default TTL |
| Cache.ServerCaches | src/utils/cache.ts:72-74 | The route, isochrone and health caches start empty with TTLs of 5 minutes, 10 minutes and 30 seconds |
| Cache.LookupAfterStore | src/utils/cache.ts:21-39 | After a write with expiry e, a read at time t returns the value iff `t <= e`; the boundary `t == e` still hits |
| Cache.FreshEntryLifetime | src/utils/cache.ts:22-33 | A write at `now` is served at `now + ttl` and is gone one millisecond later |
| Cache.FallbackTTL | src/utils/cache.ts:22 | An absent or zero TTL falls back to the default (`\|\|`); any other TTL is used as given |
| Cache.StoreLeavesOthers | src/utils/cache.ts:21-24 | A write does not change what any other key reads |
| Cache.ExpiredGetEvicts | src/utils/cache.ts:33-36 | Reading an expired entry removes it, and the size drops by one |
| Cache.LiveGetKeeps | src/utils/cache.ts:26-38 | Reading a live or missing key leaves the map unchanged |
| Cache.LazyEvictionUnobservable | src/utils/cache.ts:33-36 | With a clock that does not go back, the eviction done by a read changes no later read |
| Cache.SweepKeepsLive | src/utils/cache.ts:53-60 | After a sweep, the remaining keys are exactly the live ones, and the size does not grow |
| Cache.SweepUnobservable | src/utils/cache.ts:53-60 | With a clock that does not go back, a sweep changes no read at the same or a later time |
| Cache.SweepIdempotent | src/utils/cache.ts:53-60 | Sweeping twice at the same time is the same as sweeping once |
| Cache.DeleteForgets | src/utils/cache.ts:41-43 | A deleted key reads as absent; every other key reads as before |
| Metrics.MetricsCollector.constructor | src/utils/metrics.ts:38-42 | A new collector has an empty history, zero counters and start time `now` |
| Metrics.MetricsCollector.RecordRequest | src/utils/metrics.ts:45-52 | The history is the last 1000 of the old history plus the new record, capped at 1000; the counters are unchanged |
| Metrics.MetricsCollector.RecordCacheHit | src/utils/metrics.ts:55-57 | The hit counter grows by exactly one; nothing else changes |
| Metrics.MetricsCollector.RecordCacheMiss | src/utils/metrics.ts:59-61 | The miss counter grows by exactly one; nothing else changes |
| Metrics.MetricsCollector.Reset | src/utils/metrics.ts:122-127 | The history is empty, both counters are zero, and the start time is `now` |
| Metrics.MetricsCollector.GetSummary | src/utils/metrics.ts:64-119 | The per-endpoint loop and the summary equal `SummaryOf` of the history and counters |
| Metrics.MetricsCollector.GetHealthStatus | src/utils/metrics.ts:146-186 | The health of the current history, `HealthOf(requests)`; its properties are stated by `HealthWindow`, `HealthVote`, `EmptyHistoryIsDegraded` and `FastSuccessfulIsHealthy` |
| Metrics.MetricsCollector.GetRecentErrors | src/utils/metrics.ts:130-135 | The recent failures of the current history, `RecentErrors(requests, limit)`, with `limit` 10 by default; its properties are stated by `RecentErrorsAreNewestFailures` |
| Metrics.MetricsCollector.GetSlowestRequests | src/utils/metrics.ts:138-143 | The slowest records of the current history, `SlowestRequests(requests, limit)`, with `limit` 10 by default; its properties are stated by `SlowestRequestsOrdered` and `SlowestRequestsArePrefix` |
| Metrics.HealthOf | src/utils/metrics.ts:151-186 | The last 50 records decide three checks (error rate below 10%, mean below 5000 ms, any activity); the failing ones give the status and one detail each, as `HealthVote` states |
| Metrics.RecentErrors | src/utils/metrics.ts:131-134 | The failures, cut with `slice(-limit)` and reversed, as `RecentErrorsAreNewestFailures` states |
| Metrics.SlowestRequests | src/utils/metrics.ts:139-142 | A sorted copy by decreasing duration, cut with `slice(0, limit)`, as `SlowestRequestsOrdered` and `SlowestRequestsArePrefix` state |
| Metrics.HistoryIsRecentSuffix | src/utils/metrics.ts:45-52 | The history is the last min(n, 1000) recorded metrics, in insertion order |
| Metrics.PartitionCount | src/utils/metrics.ts:65-67 | The successful and failed records together are all the records |
| Metrics.CountsAreConsistent | src/utils/metrics.ts:65-104 | `successful + failed == total` == history length, and the error rate is in [0,1] and 0 for an empty history |
| Metrics.HitRateInUnit | src/utils/metrics.ts:96-115 | The hit rate is in [0,1], and 0 when there were no cache requests |
| Metrics.P95Index | src/utils/metrics.ts:75 | The p95 index is below n for a non-empty history |
| Metrics.EmptyPerformance | src/utils/metrics.ts:69-110 | An empty history gives average, min, max and p95 all 0 |
| Metrics.PerformanceBounds | src/utils/metrics.ts:69-110 | For a non-empty history, `min <= round(mean) <= max` and `min <= p95 <= max` |
| Metrics.SortBy | src/utils/metrics.ts:74 | The sorted copy is in non-decreasing key order and is a permutation of its input |
| Metrics.TallyIsPerEndpoint | src/utils/metrics.ts:80-94 | A `"METHOD endpoint"` key has statistics iff it has records; its count and error count are those of its records, and the incremental `averageTime` is their arithmetic mean |
| Metrics.ErrorCountAtMostCount | src/utils/metrics.ts:86-93 | Per endpoint, `0 < count` and `errorCount <= count` |
| Metrics.EndpointCountsSum | src/utils/metrics.ts:80-94 | The per-endpoint counts add up to the number of records |
| Metrics.HealthWindow | src/utils/metrics.ts:151 | The health window `slice(-50)` is the last min(50, n) records |
| Metrics.HealthVote | src/utils/metrics.ts:160-186 | 0, 1, or 2 and more failing checks give healthy, degraded or unhealthy; there is one detail per failing check, and each check's own detail (high error rate, slow response time, no recent activity) is present iff that check fails |
| Metrics.HealthWindowDecides | src/utils/metrics.ts:151-158 | The health of a history is the health of its last 50 records: earlier records have no effect |
| Metrics.EmptyHistoryIsDegraded | src/utils/metrics.ts:151-177 | An empty history is degraded, with the single detail "No recent activity" |
| Metrics.FastSuccessfulIsHealthy | src/utils/metrics.ts:151-181 | A non-empty history whose records are all successful and under 5000 ms is healthy, with no details |
| Metrics.RecentErrorsAreNewestFailures | src/utils/metrics.ts:130-135 | Only failures, newest first; at most `limit` of them for `limit > 0`; all failures for `limit == 0` (`slice(-0)`) |
| Metrics.SlowestRequestsOrdered | src/utils/metrics.ts:138-143 | Durations are non-increasing and at most `limit` are returned |
| Metrics.SlowestRequestsArePrefix | src/utils/metrics.ts:138-143 | No record left out is slower than a record returned |
| Errors.NewStandardError | src/utils/errors.ts:35-47 | A `StandardError` named "StandardError" with the given message, code (INTERNAL_ERROR by default), details and request id, stamped with `now` |
| Errors.NewValidationError | src/utils/errors.ts:62-66 | The same with the name "ValidationError" and the code VALIDATION_ERROR; `SubclassCodes` states its number, 400 |
| Errors.NewValhallaError | src/utils/errors.ts:68-72 | The same with the name "ValhallaError" and the code VALHALLA_ERROR; `SubclassCodes` states its number, 520 |
| Errors.NewValhallaTimeoutError | src/utils/errors.ts:74-78 | The same with the name "ValhallaTimeoutError", the code VALHALLA_TIMEOUT and the default message "Valhalla service timeout"; `SubclassCodes` states both |
| Errors.NewRateLimitError | src/utils/errors.ts:80-84 | The same with the name "RateLimitError", the code RATE_LIMITED and the default message "Rate limit exceeded"; `SubclassCodes` states both |
| Errors.ToResponse | src/utils/errors.ts:49-58 | The response of an error, field by field; `ToResponseFaithful` states that it loses nothing |
| Errors.HandleError | src/utils/errors.ts:87-138 | The ordered classifier. A cause that is not a StandardError gets one of the codes 521, 520, 400 or 500, the caller's request id and the time `now`; each branch is stated by the rows below |
| Errors.CodeValuesDistinct | src/utils/errors.ts:10-27 | The eleven codes carry distinct numbers; the five client codes are 4xx and the others 5xx |
| Errors.SubclassCodes | src/utils/errors.ts:62-84 | ValidationError is 400, ValhallaError 520, ValhallaTimeoutError 521 and RateLimitError 429; the two default messages |
| Errors.ToResponseFaithful | src/utils/errors.ts:49-58 | `toResponse` copies all six fields: two errors have equal responses iff they are equal |
| Errors.StandardPassesThrough | src/utils/errors.ts:89-91 | A StandardError is answered by its own response; its request id wins over the argument |
| Errors.RemoteFailuresCarryDetails | src/utils/errors.ts:94-120 | Every axios failure gives 520 or 521 with details {status, statusText, data, url, method} from response and config, and the caller's request id |
| Errors.RemoteTimeout | src/utils/errors.ts:103-105 | An axios failure gives 521 iff its code is ECONNABORTED or ETIMEDOUT, whatever the status, with "Valhalla service timeout" |
| Errors.RemoteServerError | src/utils/errors.ts:107-113 | A non-timeout status >= 500 gives 520 "Valhalla service error: " + (statusText or "Unknown error") |
| Errors.RemoteApiError | src/utils/errors.ts:115-119 | Any other axios failure gives a "ValhallaError" response, code 520, with "Valhalla API error: " + message |
| Errors.NamedValidationError | src/utils/errors.ts:123-129 | A non-axios error named "ValidationError" gives 400, with details from its issues if present and from its details otherwise |
| Errors.UnexpectedError | src/utils/errors.ts:132-137 | Anything else gives 500, with its message or "An unexpected error occurred", and details {originalError: name, stack} |
| Validation.CoordinateRanges | src/utils/validation.ts:4-13 | A coordinate is accepted iff `-90 <= lat <= 90` and `-180 <= lon <= 180` |
| Validation.CoordinateIgnoresExtraKeys | src/utils/validation.ts:4-13 | The coordinate schema is not strict: an extra key does not change acceptance |
| Validation.RouteRequestBounds | src/utils/validation.ts:28-44 | An accepted route request has 2 to 20 locations, a known costing, alternates in [0,5] and a language of length 2 to 5 |
| Validation.StrictRequests | src/utils/validation.ts:28-65 | Both request schemas reject any top-level key they do not name |
| Validation.IsochroneRequestBounds | src/utils/validation.ts:47-65 | 1 to 5 locations and 1 to 4 contours; time in [1,120], distance in [0.1,100], a 6-character color; denoise in [0,1] and generalize in [0,1000] |
| Validation.ContourExclusive | src/utils/validation.ts:56-59 | Every contour of an accepted request has exactly one of time and distance |
| Validation.TileBelowPow2 | src/utils/validation.ts:68-77 | An accepted tile has integer `0 <= z <= 18` and both indices below 2^z |
| Validation.ValidateAndSanitize | src/utils/validation.ts:80-94 | Succeeds iff the schema accepts the data, returning the parsed value; otherwise a ValidationError "Invalid input data" with one issue per zod issue, path joined by "." |
| Validation.ReportIssues | src/utils/validation.ts:85-89 | One reported issue per zod issue, in order, each with its joined path, message and code |
| Validation.JoinPathSplits | src/utils/validation.ts:86 | Joining a path with "." loses nothing when no field name contains a dot: splitting gives the segments back |
| Validation.ValidationFailureIs400 | src/utils/validation.ts:96-108 | The thrown ValidationError reaches the client as a 400 carrying its message and issues |
| Validation.LatitudeOutOfRange | src/utils/validation.ts:5-8 | Latitude 200 is refused, and validation fails for it |
| Tile.CheckTileParams | src/resources/tile.ts:19-34 | The guard chain of `parseInt` and range checks, first failure deciding the message; stated by `GuardOrder`, `GuardAccepts` and `GuardMatchesSchema` |
| Tile.TileResource | src/resources/tile.ts:14-79 | The handler: the guard, then the fetch, with every failure turned into the JSON error content; stated by `FetchOnlyWhenValid` and `FailuresAreJson` |
| Tile.GuardOrder | src/resources/tile.ts:23-34 | Non-numeric z, x or y fails first, then a zoom outside [0,18], then an index outside [0, 2^z-1] with a message naming the zoom |
| Tile.GuardAccepts | src/resources/tile.ts:19-34 | The guard passes exactly for numeric z in [0,18] and x, y in [0, 2^z-1], and yields the parsed values |
| Tile.FetchOnlyWhenValid | src/resources/tile.ts:39 | The engine is consulted only when the guard passes, and only for the parsed tile |
| Tile.FailuresAreJson | src/resources/tile.ts:54-77 | A failure is application/json content of type "tile_error" echoing the raw z, x, y; the result is the tile iff the guard and the fetch succeed |
| Tile.GuardMatchesSchema | src/resources/tile.ts:27-34 | For integer inputs, the guard accepts exactly what `tileRequestSchema` accepts |
| Route.ArgsGiveValidInput | src/tools/route.ts:7-19 | Accepted arguments have coordinates in range and alternatives in [0,5]; a missing mode is "auto" and missing units stay undefined |
| Route.PrepareRouteRequest | src/tools/route.ts:43-57 | Builds the request, with `alternates` set only when alternatives are asked for |
| Route.RouteRequestShape | src/tools/route.ts:43-57 | Two "break" locations, origin then destination; costing is the mode; units default to kilometers; narrative true; `alternates` set iff alternatives > 0, and then equal to it |
| Route.RouteRequestValid | src/tools/route.ts:43-57 | For a valid input the request satisfies `routeRequestSchema` |
| Route.FailuresAreRouteErrors | src/tools/route.ts:63-65 | The result is an error iff the call failed or the trip, its legs or the first shape is missing or empty; the payload is "Failed to calculate route", the message and "route_error" |
| Route.SwapRoundTrip | src/tools/route.ts:69 | The swap keeps length and order, writes each pair as `[lon, lat]`, and reading the pairs back gives the points |
| Route.MainGeometry | src/tools/route.ts:68-92 | The main line is the decoded first-leg shape swapped, with the same length; the bbox is `[min_lon, min_lat, max_lon, max_lat]` |
| Route.CollectAlternatives | src/tools/route.ts:99-120 | The push loop yields exactly `AlternativeFeatures` of the alternates |
| Route.AlternativesAreFilteredInOrder | src/tools/route.ts:101-118 | One feature per alternate whose first leg has a shape, in order; the others are skipped |
| Route.SuccessLayout | src/tools/route.ts:122-132 | A successful result lists the main feature, then the alternates' features, and is not an error |
| Route.RouteResult | src/tools/route.ts:60-150 | The tool result for the engine's answer: the route error for a failed call or a missing shape, and otherwise the feature collection; stated by `FailuresAreRouteErrors`, `MainGeometry` and `SuccessLayout` |
| Route.RouteTool | src/tools/route.ts:33-150 | The handler sends `RouteRequestFor(input)` and returns `RouteResult` of the engine's answer |
| Isochrone.ArgsGiveValidInput | src/tools/isochrone.ts:7-14 | Accepted arguments have the origin in range and minutes in [1,120]; a missing mode is "auto" |
| Isochrone.IsochroneRequestShape | src/tools/isochrone.ts:38-47 | One location equal to the origin; costing is the mode; one contour with time = minutes and color "ff0000"; polygons true; nothing else set |
| Isochrone.IsochroneRequestValid | src/tools/isochrone.ts:38-47 | For a valid input the request satisfies `isochroneRequestSchema` |
| Isochrone.IsochroneTool | src/tools/isochrone.ts:28-79 | The handler: it sends `IsochroneRequestFor(input)` and returns the engine's answer or the isochrone error; stated by `IsochroneRequestShape` and `AnswerPassesThrough` |
| Isochrone.AnswerPassesThrough | src/tools/isochrone.ts:50-77 | The engine's answer is returned unchanged and is not an error; a failure is "Failed to generate isochrone" with the thrown message and "isochrone_error" |
| Isochrone.NonErrorIsUnknown | src/tools/isochrone.ts:71 | A thrown value that is not an Error is reported as "Unknown error" |

## Left out

- The division by 1e6 in the decoder and all floating-point detail are left out. Positions stay in integer millionths of a degree. In the route JSON payload they are divided exactly, over the reals.
- `Math.round` is modelled as floor(x + 0.5) on exact reals. Averages, rates and means are exact reals, not doubles.
- `Metrics.P95Index`: the index is the exact `floor(95n/100)`, not the double expression `Math.floor(n * 0.95)`.
- The `toFixed` text of the health details is left out. A detail carries its number (`HighErrorRate(rate)`, `SlowResponseTime(ms)`), not its formatted string.
- `Metrics.SortBy`: its contract states the order by key and the permutation, but not stability. JavaScript's `sort` is stable, and the insertion that `SortBy` uses puts an element in front of equal keys; that ordering among equal durations is not stated.
- JSON serialisation (`JSON.stringify`), base64 encoding of tile data, and ISO date strings are not modelled. Timestamps are the millisecond value `now`, and tile bytes are kept as bytes.
- The network is not modelled: the axios calls, the engine's answers, timeouts and HTTP status generation. The engine is a function parameter.
- The `setInterval` timer in the cache constructor is left out: asynchronous scheduling is outside the model. `cleanup` is an ordinary method.
- `Date.now` is a parameter `now`. `generateRequestId` and `measureTime` depend on time and randomness and are not modelled.
- Logging, the MCP registration and transport, and the health and metrics resources are not modelled: they are I/O or formatting around modelled calls.
- zod's parser is not modelled. Its internals, the issues it generates and their order are a parameter of `Validation.ValidateAndSanitize`, whose success must agree with the schema predicate. Defaults are applied in `Route.RouteInputOf` and `Isochrone.IsochroneInputOf`.
- `Validation.DirectionsOptions`: the language length bounds count Dafny characters. zod's `.min(2).max(5)` counts UTF-16 code units. The two differ only for characters outside the Basic Multilingual Plane (U+10000 and above).
- The `isNaN` refinements of the coordinate schema are not modelled, because the JSON values carry no NaN.
- `parseInt` is a decimal parser with an optional sign that stops at the first non-digit. Leading whitespace and the `0x` hexadecimal prefix are not modelled: "0x10" reads as 0 here and as 16 in JavaScript.
- `handleError(null)` throws a TypeError in the source and is not modelled. A cause is always a value.
- Errors thrown during rethrow are not modelled. `validateAndSanitize` rethrows non-zod errors, and the model only covers zod outcomes.
- A response whose trip has no `summary`, and an alternate that is `null`, throw a TypeError in the source and are not modelled. The records always carry a summary.
- `costing_options` and `filters` are never set by the tools. The engine request records omit them.
- The MCP tool result's content array is reduced to the payload it holds and the `isError` flag.
