# caching_proxy: the request-handling core, in Dafny

This project models the decision layer of the caching reverse proxy in
`proxy/proxy.go`. The proxy sits in front of one backend. A GET, HEAD or
OPTIONS request is looked up in a key-value store under the key
`caching:<method>:<host>:<url>`. On a hit, the stored response (headers
and body) is decoded and served with an `X-Cache: GoProxy` header. On a
miss, the request is forwarded to the backend. A 2xx answer is relayed
to the client and stored. Any other status is relayed without being
stored. Every other method is forwarded to the backend without touching
the store.

Files and modules:

- `http.dfy` (module `Http`): the parts of net/http the proxy uses.
  `http.Header` is a `map<string, seq<string>>` with Get/Add/Set/Del.
  The URL has scheme, host, path and raw query, plus `URL.String()`.
  The module also has the inbound and outbound requests, a `ResponseWriter`
  class and a `BodyReader` class. The writer class has a value mirror,
  `WriterState`, that follows the same transitions: only the first
  WriteHeader counts, Write sends 200 first, and io.Copy of an empty
  source never calls Write. A `BodyReader` can be read only once.
- `rewrite.dfy` (module `Rewrite`): `singleJoiningSlash`, the URL rewrite
  done by `director`, and `cacheKey`.
- `headers.dfy` (module `Headers`): `copyHeaderForFrontend` and
  `copyHeaderForBackend`. Each is a method with the source's nested loops,
  proved equal to the specification function `AddAll`. The loop walks the
  names in whatever order the map yields them, so the result is proved
  independent of that order.
- `store.dfy` (module `Store`): the `Store` interface as an in-memory
  `MapStore` class that logs every Get and Set call. `Replay` gives the map
  a log of calls produces.
- `proxy.dfy` (module `Proxy`): the backend as a `Transport` class over an
  oracle function, and JSON as a `Codec` pair of functions. It also has the
  `Proxy` class with `proxy` (`Forward`), `NewCachedResponse`, `cache`,
  `serveFromCache`, `proxyAndCache` and `ServeHTTP`. Each method is proved
  against a pure function of its inputs and the old state: `HitWriter`,
  `MissEffects` or `RequestEffects`. These functions give the client's
  response, the store calls in order and the requests sent.
- `properties.dfy` (module `ProxyProperties`): what one request does,
  stated over `RequestEffects`.

The model follows the code as written, including these behaviours:

- A transport error gives the client 500, not 502. This holds on the
  pass-through path (`proxy/proxy.go:136`) and on a miss
  (`proxy/proxy.go:209`).
- The pass-through path never calls WriteHeader. The client sees the
  default 200 whatever the backend answered.
- On a non-2xx miss, `NewCachedResponse` has already read the whole body.
  The later io.Copy finds nothing, so the client gets the backend's status
  and an empty body.
- On a 2xx miss of HEAD or OPTIONS, the backend's status is never written,
  so the client sees 200. The empty write at `proxy/proxy.go:230` is
  followed by the shared `rw.Write(body)` at line 244, which writes the
  whole backend body to the writer, although the code logs "NO BODY" on
  this path (`proxy/proxy.go:229`). The model follows what the code
  writes. For HEAD, net/http itself drops the body on the wire; that is
  left out here.
- The conditional headers are removed from the outbound request only
  when it carries a Connection header whose first value is non-empty.
  Otherwise, including for a Connection header whose first value is "",
  they are forwarded unchanged, and so is Connection itself.
- If a stored entry is malformed JSON or the literal `null`, json.Unmarshal
  leaves the `*CachedResponse` nil. Reading its headers then panics. The
  codec's `decode` gives None for such bytes, and the model records an
  aborted writer: the client gets no response. Well-formed JSON of the
  wrong shape instead gives a partly filled response and an error that
  `serveFromCache` ignores. `decode` gives `Some` of that partial value,
  and the proxy serves it with 200 and X-Cache like any other hit.

## Model

| member | source | states |
|---|---|---|
| Http.HeaderGet | proxy/proxy.go:190 | Header.Get gives the first value under the name whenever it has one, and "" when it has none |
| Http.HeaderAdd | proxy/proxy.go:289 | Header.Add appends one value under the name and leaves every other name's values unchanged |
| Http.HeaderSet | proxy/proxy.go:197 | Header.Set leaves exactly one value under the name and leaves every other name unchanged |
| Http.HeaderDel | proxy/proxy.go:193 | Header.Del removes the name and all its values and leaves every other name unchanged |
| Http.UrlString | proxy/proxy.go:158 | URL.String() ends with the path followed by "?query" when the query is non-empty, and is exactly that when there is no scheme and no host (a server request's origin form); with a scheme it starts with "scheme:" |
| Http.WriterState.WriteHeader | proxy/proxy.go:241 | only the first WriteHeader sets the status; headers, body and abort flag are unchanged |
| Http.WriterState.Write | proxy/proxy.go:244 | Write appends the data to the body and fixes the status at 200 when none was written before |
| Http.WriterState.CopyFrom | proxy/proxy.go:249 | io.Copy appends what is left of the source; a non-empty source sends the header first (200 unless a status was already written); an empty source leaves the writer exactly as it was |
| Http.ResponseWriter.WriteHeader | proxy/proxy.go:136 | the writer's new state is its old state after WriteHeader(code) |
| Http.ResponseWriter.Write | proxy/proxy.go:261 | the writer's new state is its old state after Write(data) |
| Http.ResponseWriter.SetHeader | proxy/proxy.go:258-260 | the writer's header map becomes the given one, as writes through rw.Header() do, and nothing else changes |
| Http.ResponseWriter.Abort | proxy/proxy.go:258 | the nil-pointer panic marks the writer aborted and changes nothing else |
| Http.BodyReader.ReadAll | proxy/proxy.go:98 | ioutil.ReadAll returns everything unread and leaves nothing unread |
| Http.BodyReader.CopyTo | proxy/proxy.go:140 | io.Copy moves everything unread into the writer and leaves nothing unread |
| Rewrite.SingleJoiningSlash | proxy/proxy.go:274-284 | the result starts with the backend path and is the backend path without its trailing '/', one '/', and the request path without its leading '/'; its length is len(a)+len(b)-1, len(a)+len(b)+1 or len(a)+len(b) as the slashes require |
| Rewrite.JoinQuery | proxy/proxy.go:150-154 | the query starts with the backend's query, ends with the request's, and has an '&' between them exactly when both are non-empty; its parameters are the backend's followed by the request's |
| Rewrite.PiecesAroundSeparator | proxy/proxy.go:153 | joining two queries with '&' concatenates their lists of '&'-separated pieces |
| Rewrite.Director | proxy/proxy.go:144-155 | the outbound URL has the backend's scheme and host, a path that starts with the backend path and joins it to the request path with one '/', and the backend's parameters followed by the request's |
| Rewrite.Join | proxy/proxy.go:161 | strings.Join of no parts is "", of one part is that part, and otherwise starts with the first part |
| Rewrite.CacheKeyOf | proxy/proxy.go:157-162 | strings.Join of "caching", method, host and URL with ':' is "caching:" + method + ":" + host + ":" + url, so equal inputs give equal keys |
| Rewrite.CacheKey | proxy/proxy.go:157-162 | the key of a request is "caching:" + method + ":" + Host + ":" + URL.String() |
| Rewrite.CacheKeyInjective | proxy/proxy.go:157-162 | for requests in origin form (a method without ':', a Host without '/', a URL starting with '/'), equal keys mean equal method, Host and URL |
| Headers.AddAllAt | proxy/proxy.go:286-303 | after the copy, each name holds the destination's values followed by the source's kept values; a name is present exactly when the destination already had it (even with no values) or a kept source value was added under it |
| Headers.AddEachValue | proxy/proxy.go:288-290 | the inner loop, adding each value of one name in order, turns the copy without that name into the copy with all its values |
| Headers.AddEachKeptValue | proxy/proxy.go:297-301 | the inner loop with the per-value name test does the same for the filtered copy, adding nothing under a conditional name |
| Headers.CopyHeaderForFrontend | proxy/proxy.go:286-292 | the loops over names and values, in any map order, produce AddAll of the whole source |
| Headers.CopyHeaderForBackend | proxy/proxy.go:293-303 | the same loops with the conditional names skipped produce the filtered AddAll of the whole source |
| Headers.FrontendCopyAppends | proxy/proxy.go:286-292 | the frontend copy keeps each name's destination values first, in order, and appends the source's values in order |
| Headers.BackendCopyFilters | proxy/proxy.go:295-303 | the backend copy appends every value of every other name and adds nothing under If-Modified-Since or If-None-Match |
| Headers.BackendCopyHasNoConditionals | proxy/proxy.go:293-303 | a backend copy into an empty header never contains If-Modified-Since or If-None-Match |
| Headers.BackendCopyIsFilteredFrontendCopy | proxy/proxy.go:286-303 | the backend copy equals the frontend copy of the source with the two conditional names removed |
| Store.MapStore.Get | proxy/proxy.go:27-36 | a found key returns its data with a nil error, a missing key returns an error; the data is unchanged and the call is logged |
| Store.MapStore.Set | proxy/proxy.go:38-41 | Set stores the data under the key and logs the call |
| Proxy.Transport.RoundTrip | proxy/proxy.go:200 | the request is logged as sent, and the result is the backend's reply with its body not yet read |
| Proxy.Proxy.OutboundRequest | proxy/proxy.go:174-198 | the outbound request is the copy rewritten by director, with HTTP/1.1, Close false, the filtered header without Connection when a Connection header was sent, and X-Forwarded-For set to the client's address when known |
| Proxy.Proxy.Forward | proxy/proxy.go:164-201 | proxy() sends exactly the outbound request for the first backend and returns that backend's reply |
| Proxy.Proxy.NewCachedResponse | proxy/proxy.go:97-111 | the captured response has the backend's status, length, headers and whole body, and the body stream is left empty |
| Proxy.Proxy.Cache | proxy/proxy.go:264-269 | the store now holds the encoding of the captured response under the key, written by one Set |
| Proxy.Proxy.ServeFromCache | proxy/proxy.go:254-262 | the writer becomes HitWriter of the stored bytes: decoded headers, then X-Cache, then the decoded body, or a panic when the stored bytes decode to nil (malformed JSON or `null`) |
| Proxy.Proxy.ProxyAndCache | proxy/proxy.go:203-252 | writer, store, store log and sent requests become exactly those of MissEffects |
| Proxy.Proxy.ServeHTTP | proxy/proxy.go:113-142 | writer, store, store log and sent requests become exactly those of RequestEffects |
| ProxyProperties.PassThroughSkipsStore | proxy/proxy.go:131-141 | a method other than GET, HEAD or OPTIONS makes no store call and sends exactly one request to the backend |
| ProxyProperties.PassThroughLosesStatus | proxy/proxy.go:139-140 | on the pass-through path the client gets status 200 whatever the backend answered, with the backend's headers and body |
| ProxyProperties.StoreWrittenOnlyOnSuccessfulMiss | proxy/proxy.go:205-250 | at most one Set per request, made exactly when a cacheable request misses and the backend answers 2xx, under the request's key with the encoded captured response; otherwise the store is unchanged |
| ProxyProperties.TransportErrorGives500 | proxy/proxy.go:205-211 | a transport error on a miss or a pass-through gives 500 with an empty body and caches nothing |
| ProxyProperties.BothConditionalsGive304 | proxy/proxy.go:232-245 | a 2xx miss of a method with a body, carrying both conditional headers, gives 304 with an empty body, while the stored entry holds the whole backend body |
| ProxyProperties.SuccessfulMissRelays | proxy/proxy.go:238-244 | a 2xx miss without both conditional headers relays the backend's status, headers and body |
| ProxyProperties.OneConditionalIsNotEnough | proxy/proxy.go:232 | with only one of the two conditional headers, a 2xx miss relays the backend's status, not 304 |
| ProxyProperties.BodylessMissKeepsDefaultStatus | proxy/proxy.go:228-244 | a 2xx miss of HEAD or OPTIONS gives status 200, and the backend body is still written after the empty write |
| ProxyProperties.FailedMissLosesBody | proxy/proxy.go:246-250 | a non-2xx miss relays the backend's status with an empty body, and the only store call is the lookup |
| ProxyProperties.HitServesStoredResponse | proxy/proxy.go:254-262 | a hit sends nothing to the backend and serves status 200, the decoded body, and the decoded headers with "GoProxy" appended under X-Cache |
| ProxyProperties.UndecodableHitAborts | proxy/proxy.go:255-258 | a stored entry that decodes to nil (malformed JSON or `null`) leaves the client with no response and no body, and nothing is sent to the backend |
| ProxyProperties.SecondRequestHits | proxy/proxy.go:120-125 | when encoding round-trips, a request repeated after a 2xx miss is served from the store without a backend call, with the backend's body and status 200 |
| ProxyProperties.ConnectionHeaderFiltersOutbound | proxy/proxy.go:190-194 | with a non-empty Connection header, the backend gets neither Connection nor a conditional header, and every other value is kept |
| ProxyProperties.NoConnectionHeaderForwardsConditionals | proxy/proxy.go:186-194 | without a Connection header, every name except X-Forwarded-For goes out unchanged, conditional headers included |
| ProxyProperties.ForwardedForIsClientAddress | proxy/proxy.go:196-198 | X-Forwarded-For holds exactly the client's address when it is known; otherwise, without a Connection header, the header goes out unchanged |
| ProxyProperties.OutboundRequestShape | proxy/proxy.go:174-182 | the outbound request keeps method and Host, targets the backend's scheme and host under the backend path, and always asks for HTTP/1.1 with a persistent connection |

## Left out

- Header names are assumed to be canonical already. textproto's
  canonicalisation in Get, Add, Set and Del is not modelled.
- Http.UrlString: covers only scheme, host, path and raw query. Userinfo,
  fragments, opaque URLs, escaping of the path, the "./" prefix rule and
  ForceQuery are not modelled. With ForceQuery, URL.String() writes a '?'
  even for an empty query, so "GET /a?" and "GET /a" get different cache
  keys in the code but the same key in the model.
- Rewrite.Join: the contract gives the empty and one-part cases and the
  first part as a prefix, not the general concatenation. The exact
  four-part result the cache key needs is proved in `CacheKeyOf`.
- encoding/json is an abstract `Codec` pair of functions.
  `decode(encode(x)) == Some(x)` is not an axiom. It is the `RoundTrips`
  precondition of the one lemma that needs it, `SecondRequestHits`.
- The memcache client behind `MemcacheStore`, `NewMemcacheStore` and
  `proxy/memcache_store.go` is replaced by the in-memory `MapStore`. Set is
  taken to succeed; the proxy ignores its error anyway.
- `NewProxy`, flag parsing, `main.go`, `api/api.go`, `events/`,
  `store/store.go` and `structs/cached_response.go` are wiring or I/O and
  are not part of this model. Per-host generations, purging and events do
  not exist in this code and are not modelled.
- Logging is left out. `log.Fatal` on a failed body read is left out: the
  body is a byte sequence that always reads completely.
- `req.Body.Close()` on the HEAD/OPTIONS path is left out.
- net/http's own behaviour around the writer is left out: the panic of
  WriteHeader for codes outside 100-999, special handling of 1xx codes,
  and dropping the body of a HEAD response or a 304 on the wire. The
  model's writer records what the handler wrote.
- `net.SplitHostPort` is an input, the optional client address. The
  choice of backend is always the first one, as in the code; an empty
  backend list is excluded by the constructor's precondition.
- Aliasing between the outbound request and the inbound one is not
  modelled. `*outreq = *req` shares the URL pointer and, without a
  Connection header, the header map, so director and the X-Forwarded-For
  Set also change the inbound request. The model builds the outbound
  request as a new value. Nothing in the code reads the changed fields
  afterwards: the cache key is computed before forwarding, and the
  conditional-header check reads names that the Set does not touch.
- Request bodies are not modelled. `Request` and `OutRequest` carry no
  body, so the backend's reply is a function of the method, Host, URL and
  headers of the outbound request only; the body that `*outreq = *req`
  forwards is not visible to it.
- The code does not strip the header names listed inside a Connection
  header, and neither does the model.
- Concurrency between requests is not modelled. One request runs at a
  time against the store.
- ContentLength and Status are carried through the captured response as
  opaque values.
