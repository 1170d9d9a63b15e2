# Wordstat MCP client and cache, in Dafny

This project models the core of a server that exposes the Yandex Wordstat keyword-research
API as callable tools: the API client (`WordstatClient`), the in-memory TTL cache
(`Cache`), and the region-tree tool handler, the only user of that cache.

- `Wrappers.dfy`: `Option` (JavaScript's `undefined`) and `Result` (a returned value or a
  thrown error).
- `JsonValue.dfy`: JSON values and the JavaScript semantics the core depends on:
  truthiness, property access, the conditional spread `...(x && {k: x})`, object spread of
  a payload, and string conversion inside a template literal (including decimal
  formatting of integers, negative ones too, proved to be readable back).
- `TtlCache.dfy`: class `Cache<T>` over a `map` field `store`, with `Get`, `Set`, `Has`,
  `Delete` and `Clear`. The clock (`Date.now()`) is an explicit `now` argument. The
  functions `Lookup`, `AfterRead` and `Stored` describe what a read returns and how the
  store changes. Lemmas cover reads within and after the TTL, the strict `>` expiry
  boundary, and locality.
- `Client.dfy`: class `WordstatClient` with an immutable `token`. `Create` is the throwing
  constructor. `Request` and the five operations take the transport as a parameter
  `send: HttpRequest -> Exchange`. An `Exchange` is a network failure, or a status, the raw
  body text and that text as parsed by `JSON.parse`. Each operation returns the request
  it sent as a ghost value, so the URL, the method, the bearer header and the body can be
  stated. The body builders, the error-detail selection and the error message are
  functions.
- `RegionsTree.dfy`: `HandleRegionsTree` reads the cache, calls upstream at most once
  and writes the cache. Its ghost outputs count the upstream calls and list the requests
  sent. It is tied to the function `Handle`. Lemmas about `Handle` and about `Run`, a
  sequence of invocations, state the hit/miss policy over time.

Four behaviours of the code that are easy to misread:
- On an error response the detail is `message || error || rawText`, by JavaScript
  truthiness. An empty or missing `message` and `error` fall back to the raw text. So
  does a body that parses to `null` (reading a property of it throws and is caught) or to
  any non-object.
- The detail is converted to a string only inside the message template, outside the
  `try`. A `message` object with its own `toString` key (for example
  `{"message":{"toString":1}}`) makes that conversion throw a `TypeError`, so the caller
  sees that error rather than a `Wordstat API error`.
- `getRegionsTree` and `getUserInfo` send no body at all, not an empty one.
- `_cached` is added only when the cached payload is truthy (`if (cached)`). A falsy
  payload is treated as a miss and fetched again.

## Model

| member | source | states |
|---|---|---|
| `JsonValue.Truthy` | src/api/wordstatClient.ts:115 | the falsy JSON values are exactly `null`, `false`, `0` and `""`; arrays and objects, even empty, are truthy |
| `JsonValue.Property` | src/api/wordstatClient.ts:115 | reading `message`/`error` gives a value exactly when the parsed body is an object with that key |
| `JsonValue.SpreadIfTruthy` | src/api/wordstatClient.ts:132-133 | `...(x && {k: x})` adds key `k` iff `x` is present and truthy, with value `x`, and adds no other key |
| `JsonValue.NatToString` | src/api/wordstatClient.ts:120 | the status is written as a non-empty string of decimal digits without leading zeros |
| `JsonValue.ParseNatToString` | src/api/wordstatClient.ts:120 | reading the decimal digits back gives the number, so the status text loses nothing |
| `JsonValue.ParseIntToString` | src/api/wordstatClient.ts:120 | an integer detail, negative or not, is written so that reading it back gives the same integer |
| `JsonValue.NatToStringInjective` | src/api/wordstatClient.ts:120 | different numbers have different decimal forms |
| `JsonValue.JsString` | src/api/wordstatClient.ts:120 | a string detail is interpolated unchanged; `null`, booleans and numbers always convert; an object converts iff it has no own `toString` key, and otherwise the conversion throws |
| `JsonValue.IndexEntries` | src/tools/regionsTree.ts:25 | an array-like value spreads to element `i` under key `String(i)`, and no other key |
| `JsonValue.SpreadFields` | src/tools/regionsTree.ts:25 | spreading an object payload copies exactly its fields; an array or string gives its elements (characters) under their index keys; `null`, booleans and numbers contribute none |
| `TtlCache.RegionsTreeTtlIsOneDay` | src/cache/cache.ts:71-73 | `CACHE_TTL.REGIONS_TREE` is 86 400 000 ms |
| `TtlCache.Lookup` | src/cache/cache.ts:17-29 | a read returns a value iff the key is stored and `now <= expiresAt`, and then it is the stored value |
| `TtlCache.AfterRead` | src/cache/cache.ts:24-27 | a read of an expired key removes exactly that key; a read of a missing or live key changes nothing |
| `TtlCache.Stored` | src/cache/cache.ts:38-43 | `set` makes the key map to `Entry(value, now + ttl)` and leaves every other key as it was |
| `TtlCache.Cache.constructor` | src/cache/cache.ts:11 | a new cache is empty |
| `TtlCache.Cache.Get` | src/cache/cache.ts:17-30 | `get` returns `Lookup` of the old store and leaves `AfterRead` of it |
| `TtlCache.Cache.Set` | src/cache/cache.ts:38-43 | `set` leaves `Stored` of the old store |
| `TtlCache.Cache.Has` | src/cache/cache.ts:48-50 | `has` is true iff `get` would return a value, and evicts exactly as `get` does |
| `TtlCache.Cache.Delete` | src/cache/cache.ts:55-57 | `delete` returns whether the key was stored, expired or not, and removes only that key |
| `TtlCache.Cache.Clear` | src/cache/cache.ts:62-64 | `clear` leaves the store empty |
| `TtlCache.ReadWithinTtl` | src/cache/cache.ts:38-43 | after `set(k, v, ttl)` at `t`, a read at any `t' <= t + ttl` returns `v` and changes nothing |
| `TtlCache.ReadAfterTtl` | src/cache/cache.ts:24-27 | after `set(k, v, ttl)` at `t`, a read at `t' > t + ttl` returns nothing and removes just `k` |
| `TtlCache.ReadIsStable` | src/cache/cache.ts:17-29 | repeating a read at the same instant returns the same answer and changes nothing more |
| `TtlCache.ReadIsLocal` | src/cache/cache.ts:24-25 | reading one key never changes what another key reads |
| `TtlCache.ExpiryIsPermanent` | src/cache/cache.ts:24 | once a key reads as absent, it stays absent at every later time |
| `TtlCache.SetGetHasScenario` | src/cache/cache.ts:38-50 | `set("k", v, 1000)` then `get("k")` returns `v`; after the TTL `get` is absent and `has` is false (all three results are out-parameters), and only `k` has changed |
| `Client.Outbound` | src/api/wordstatClient.ts:98-106 | a POST to the base URL plus the endpoint, `Authorization: Bearer <token>`, JSON content type, and the body exactly when one is given |
| `Client.IsOk` | src/api/wordstatClient.ts:109 | `response.ok` holds exactly for the 2xx statuses |
| `Client.ErrorDetail` | src/api/wordstatClient.ts:110-118 | `errorMessage` is a truthy parsed `message`, else a truthy parsed `error`, else the raw text; an unparseable, `null` or non-object body gives the raw text |
| `Client.Interpret` | src/api/wordstatClient.ts:109-123 | a fetch rejection gives `TransportError`; a non-2xx status gives `ApiError(ErrorMessage(status, String(detail)))`, or `DetailTypeError` when that conversion throws; a 2xx status gives the parsed body or `ParseError` |
| `Client.ErrorMessage` | src/api/wordstatClient.ts:120 | every error message starts with `Wordstat API error (` |
| `Client.ErrorMessageNamesStatus` | src/api/wordstatClient.ts:120 | the status can be read back from the message, and the message ends with the detail unchanged |
| `Client.ErrorMessageInjective` | src/api/wordstatClient.ts:120 | different statuses or details never give the same message |
| `Client.OkIsNeverApiError` | src/api/wordstatClient.ts:109-123 | a 2xx status never throws an API error: the parsed body is returned, or a parse failure propagates |
| `Client.NonOkAlwaysThrows` | src/api/wordstatClient.ts:109-120 | every non-2xx status throws; a string detail gives `Wordstat API error (<status>): <detail>`; every API error message names its status; only an object or array detail can throw a `TypeError` instead |
| `Client.UnparseableBodyIsVerbatim` | src/api/wordstatClient.ts:113-120 | an error body that is not JSON appears verbatim after the status |
| `Client.StatusDigits` | src/api/wordstatClient.ts:120 | 429 and 503 are written `429` and `503` |
| `Client.StructuredErrorExample` | src/api/wordstatClient.ts:110-120 | status 429 with `{"message":"quota exceeded","code":429}` throws `Wordstat API error (429): quota exceeded` |
| `Client.RawTextErrorExample` | src/api/wordstatClient.ts:113-120 | status 503 with the unparseable body `rate limited` throws `Wordstat API error (503): rate limited` |
| `Client.DetailWithOwnToStringThrows` | src/api/wordstatClient.ts:115-120 | status 500 with body `{"message":{"toString":1}}` throws a `TypeError` from the template, not an API error |
| `Client.TopRequestsBody` | src/api/wordstatClient.ts:129-135 | always `phrase`; `regions` iff given (even empty); `numPhrases` iff given and non-zero; no other key |
| `Client.DynamicsBody` | src/api/wordstatClient.ts:140-149 | always `phrase`, `period`, `fromDate`; `toDate` iff given and non-empty; `regions`, `devices` iff given; no other key |
| `Client.RegionsBody` | src/api/wordstatClient.ts:154-158 | the body is exactly `{phrase}` |
| `Client.PhraseOnlyBodies` | src/api/wordstatClient.ts:129-135 | a top-requests call with only a phrase sends just `{phrase}`, the same body as a regions call |
| `Client.WordstatClient.Create` | src/api/wordstatClient.ts:90-95 | construction fails with `WORDSTAT_API_TOKEN is required` iff the token is empty; otherwise the client holds exactly that token |
| `Client.WordstatClient.Request` | src/api/wordstatClient.ts:97-124 | the request sent is `Outbound(token, endpoint, body)`, and the result is the response interpreted by status |
| `Client.WordstatClient.GetTopRequests` | src/api/wordstatClient.ts:129-135 | sends `TopRequestsBody` to `/v1/topRequests` |
| `Client.WordstatClient.GetDynamics` | src/api/wordstatClient.ts:140-149 | sends `DynamicsBody` to `/v1/dynamics` |
| `Client.WordstatClient.GetRegions` | src/api/wordstatClient.ts:154-158 | sends `RegionsBody` to `/v1/regions` |
| `Client.WordstatClient.GetRegionsTree` | src/api/wordstatClient.ts:164-166 | sends no body to `/v1/getRegionsTree` |
| `Client.WordstatClient.GetUserInfo` | src/api/wordstatClient.ts:171-173 | sends no body to `/v1/userInfo` |
| `RegionsTree.Annotated` | src/tools/regionsTree.ts:23-28 | a new object with the payload's own fields plus `_cached: true` and `_cacheInfo` |
| `RegionsTree.AnnotatedKeepsObjectFields` | src/tools/regionsTree.ts:25 | every field of an object payload survives into the annotated copy |
| `RegionsTree.IsHit` | src/tools/regionsTree.ts:21-22 | the cache answers iff `regions_tree` is stored, not expired (`now <= expiresAt`), and its value is truthy |
| `RegionsTree.Handle` | src/tools/regionsTree.ts:19-41 | hit: cached tree annotated, store unchanged, 0 calls; miss: 1 call, and success is stored for 24 h while failure is not; only `regions_tree` changes |
| `RegionsTree.HandleRegionsTree` | src/tools/regionsTree.ts:19-41 | the handler's result, new cache and call count are those of `Handle`, and every request it sent is the region-tree request |
| `RegionsTree.HitChangesNothing` | src/tools/regionsTree.ts:21-32 | a hit writes nothing to the cache and makes no upstream call |
| `RegionsTree.FreshAfterFetch` | src/tools/regionsTree.ts:21-38 | after a successful fetch of a truthy tree at `t`, any invocation reading at `t' <= t + 24 h` is a hit returning that tree annotated |
| `RegionsTree.RefetchAfterExpiry` | src/tools/regionsTree.ts:34-38 | an invocation reading after `t + 24 h` calls upstream once and replaces the entry |
| `RegionsTree.FailureIsNotCached` | src/tools/regionsTree.ts:35-38 | a failed upstream call writes nothing to the cache, and the failure is returned |
| `RegionsTree.NoUpstreamWhileLive` | src/tools/regionsTree.ts:21-32 | any run of invocations while the stored tree is live and truthy makes no upstream call and leaves the cache unchanged |
| `RegionsTree.OneCallPerDay` | src/tools/regionsTree.ts:34-38 | a sequential run starting with a successful miss that fetched a truthy tree, with every later read within 24 h of it, makes exactly one upstream call |
| `RegionsTree.RunTouchesOnlyItsKey` | src/tools/regionsTree.ts:21-38 | across any run, no cache key other than `regions_tree` changes |

## Left out

- Process and protocol plumbing (`src/index.ts`): the MCP server, the stdio transport,
  `process.exit`, the tool-name dispatch and its `Error: ` wrapping.
- The thin tool forwarders (`src/tools/topRequests.ts`, `dynamics.ts`, `regions.ts`,
  `userInfo.ts`), including the rename of `limit` to `numPhrases`. They copy fields and
  stringify. The tool definition objects are static data.
- `fetch`, `response.text()`, `response.json()` and `JSON.parse` are foreign calls. They
  are the `send` parameter and the `Exchange` it returns. `JSON.stringify` of the request
  body and the pretty-printing of results are not modelled: results are JSON values and
  bodies are key/value maps, so key order is not captured.
- `Date.now()` is an explicit time argument. The handler reads the clock twice (before
  the fetch and when storing), so it takes two times.
- async/await, concurrent invocations and cancellation. Every invocation is modelled as
  running to completion before the next starts. In the source the region-tree handler
  awaits the fetch between reading and writing the cache, so invocations that overlap on
  an empty or expired cache can each miss and each call upstream; the one-call-per-day
  lemmas are about sequential runs only.
- JSON numbers are integers here. Fractions, `NaN`, `-0` and exponent notation (at 1e21
  and beyond) are not modelled, in bodies, payloads or error details.
- JsString: an integer detail of magnitude above 2^53 is printed with every digit.
  JavaScript parses it to the nearest double and prints the shortest decimal that
  reads back as that double, so the digits can differ (`String(2**60)` is
  `1152921504606847000`). Integers are exact in this model.
- Strings are sequences of Unicode scalar values. The UTF-16 code units that JavaScript
  uses when it spreads a string payload into index keys are not modelled.
- Cached values are immutable values here, not shared references. In the source `get`
  returns the stored object itself, and a caller that mutated it would change the cached
  entry; the handler avoids this by annotating a spread copy. The model cannot express
  that sharing, so `HitChangesNothing` shows only that a hit writes nothing to the cache.
- Cache values cannot be `undefined`. `has` compares `get`'s result with `undefined`, so in
  the source a stored `undefined` reads as absent.
- The response shapes (including the recursive region tree) are pass-through JSON. They
  are never inspected.
- The date-alignment rules for `dynamics` are descriptive text in the source and not
  enforced, so the model does not check them either.
- The bearer token's characters are not checked against the `b64token` syntax of RFC
  6750. The source does not check them either.
