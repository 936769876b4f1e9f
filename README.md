# Preview proxy request path, modelled in Dafny

This project models the request path of a host-routed reverse proxy for
sandbox previews (`go/main.go`). A client asks for
`<port>-<sandboxId>.<base-domain>`. The proxy decodes and validates the pair.
It resolves the pair to a preview URL and token, using a two-minute cache in
front of the control plane. It rewrites the outbound request towards that URL,
and it replaces any non-200 upstream response with a branded 502 error page.

Layout, one module per component:

- `wrappers.dfy` — `Option`, `Result`, `Outcome`.
- `gostrings.dfy` (`GoStrings`) — the Go library calls the decoder and the interceptor use: `strings.Index`, `strings.Split`, `strings.SplitN(…, 2)` and `fmt.Sprintf("%d", …)`. It also defines a join, used only to specify `Split`, and the decimal reading that inverts `%d`.
- `host.dfy` (`HostRouting`) — the host decoder `getSandboxIdAndPortFromUrl` and its round trip with the host grammar.
- `validation.dfy` (`Validation`) — `validateInputs`, with the two regular expressions written as character predicates.
- `pathjoin.dfy` (`PathJoin`) — `singleJoiningSlash`.
- `headers.dfy` (`Headers`) — `http.Header`'s `Set` and `Del`.
- `ttlcache.dfy` (`TtlCache`) — the expiring cache: item expiry, lookup and insert, plus the `Cache` class the proxy shares.
- `proxy.dfy` (`PreviewProxy`) — the resolver (`getPreview`), the director, the response interceptor (`serveErrorPage`, `ModifyResponse`), the dispatcher (`ServeHTTP`), and the `Request`, `Response` and `Proxy` classes whose methods update them in place.

Inputs that the Go code gets from the outside world are parameters here:

- the clock is `now: nat`, in nanoseconds, read when the cache is consulted, and `answeredAt: nat`, read when a control-plane answer has arrived and decoded and the cache is written (`now <= answeredAt`);
- the control plane's answer is an `ApiReply`, what it would answer if asked;
- `url.Parse` is a `UrlParser`, a function that returns the scheme, host and path, or `None` on a parse error.

Behaviour worth noting:

- The path join can leave `//` at the boundary. It avoids one only when the target path does not end in `//` and the request path does not start with `//` (`NoDoubleSlashAtJoin`). `SingleJoiningSlash("/x//", "y")` is `"/x//y"` (`DoubleSlashSurvives`).
- The health body is `{"status":"ok"}` followed by a newline, because the JSON encoder ends what it writes with one. The 400 body is `Bad Request` followed by a newline, as `http.Error` writes it.
- A first label with no `-` is rejected with the "cannot be empty" error, not the "invalid format" one, because the decoder returns two empty strings for it (`NoDashRejected`).

## Model

| member | source | states |
|---|---|---|
| `GoStrings.IndexOf` | go/main.go:237-238 | the result is -1 exactly when the character is absent; otherwise it is the position of the first occurrence |
| `GoStrings.Split` | go/main.go:241-246 | the result always has at least one piece, so the `len(parts) < 1` branch cannot be taken; piece 0 is the text before the first separator; no piece holds the separator; joining the pieces gives back the input |
| `GoStrings.SplitJoin` | go/main.go:241 | splitting undoes joining for pieces that are free of the separator |
| `GoStrings.SplitN2` | go/main.go:247-250 | two pieces exactly when the separator occurs; then piece 0 has no separator and piece 0, the separator and piece 1 re-assemble the input; otherwise the single piece is the input |
| `GoStrings.Itoa` | go/main.go:89 | the `%d` text of a length is a non-empty digit string with no leading zero |
| `GoStrings.AtoiItoa` | go/main.go:89 | the decimal text written for the page length reads back as that length |
| `HostRouting.Decode` | go/main.go:236-256 | if the first label (text before the first `.`, after dropping everything from the first `:`) has a `-`, then port + `-` + sandbox ID equals that label and the port has no `-`; otherwise both parts are empty |
| `HostRouting.DecodeByLabel` | go/main.go:236-256 | the decoded pair depends on the first label only |
| `HostRouting.DecodeIgnoresAfterColon` | go/main.go:237-239 | appending `:` and anything else to a colon-free host does not change the decoded pair |
| `HostRouting.DecodeIgnoresDomain` | go/main.go:241-246 | nothing after the first `.` changes the decoded pair |
| `HostRouting.DecodeEncode` | go/main.go:236-256 | a validated pair written as `<port>-<sandboxId>` and followed by nothing, by `.…` or by `:…` decodes back to that pair; dashes in the sandbox ID are kept |
| `HostRouting.AcceptedHostShape` | go/main.go:236-256 | every host whose decoded pair validates starts with `<port>-<sandboxId>` and continues, if at all, with `.` or `:` |
| `HostRouting.DecodeNoDash` | go/main.go:236-256 | any first label without `-`, followed by nothing, by `.…` or by `:…`, decodes to two empty strings, and so does the empty host |
| `Validation.AllSatisfy` | go/main.go:54 | true exactly when every character satisfies the class predicate |
| `Validation.ValidateInputs` | go/main.go:50-58 | passes exactly when both parts are non-empty, every sandbox-ID character is in `[A-Za-z0-9_-]` and every port character is a digit; fails with the empty-input error exactly when a part is empty, and with the format error otherwise |
| `Validation.AcceptedHasNoSeparators` | go/main.go:41-42 | an accepted pair has no `.` or `:` in either part and no `-` in the port |
| `Validation.NoPortRange` | go/main.go:42 | `99999` is accepted as a port; a sandbox ID made only of `-` is accepted; `$` and an empty part are rejected with their respective errors |
| `PathJoin.SingleJoiningSlash` | go/main.go:258-268 | the result is the target path with at most one trailing `/` removed, then one `/`, then the request path with at most one leading `/` removed; so it starts with the former and ends with the latter |
| `PathJoin.NoDoubleSlashAtJoin` | go/main.go:258-268 | when the target path does not end in `//` and the request path does not start with `//`, neither neighbour of the joining `/` is a `/` |
| `PathJoin.DoubleSlashSurvives` | go/main.go:262-267 | concrete joins, including a target ending in `//` that keeps a `//` in the result, and two empty paths giving `/` |
| `Headers.Set` | go/main.go:139 | the name carries exactly the one given value; every other header is untouched |
| `Headers.Del` | go/main.go:90 | the name is absent; every other header is untouched |
| `TtlCache.Lookup` | go/main.go:145 | go-cache's `Get`: a value is found exactly when the key has an item whose expiration has not passed (`now > expiration` means expired), and it is that item's value |
| `TtlCache.Store` | go/main.go:171 | go-cache's `Set` with the default expiration: the key gains an item with the value and expiry time + 2 min, replacing any earlier one; other items are kept |
| `TtlCache.StoreThenLookup` | go/main.go:62 | after a store at time t, a lookup at a time from t to t + 2 min returns the stored value, and a later lookup returns nothing |
| `TtlCache.StoreOtherKey` | go/main.go:171 | a store under one key never changes what another key serves |
| `TtlCache.ExpiredStaysExpired` | go/main.go:145 | an entry absent at one time stays absent at every later time until it is stored again |
| `TtlCache.Cache.constructor` | go/main.go:62 | a new cache is empty |
| `TtlCache.Cache.Get` | go/main.go:145 | returns the live value under the key and changes nothing |
| `TtlCache.Cache.Set` | go/main.go:171 | the key now maps to the value with expiry now + 2 min, replacing any earlier item; other keys are unchanged |
| `PreviewProxy.CacheKey` | go/main.go:143 | the key is the sandbox ID, one `-`, then the port |
| `PreviewProxy.CacheKeyInjective` | go/main.go:143 | two validated pairs with the same cache key are the same pair |
| `PreviewProxy.CacheKeyNeedsValidation` | go/main.go:143 | two unvalidated pairs can share a key, so the injectivity needs the port's digit class |
| `PreviewProxy.FromReply` | go/main.go:156-169 | a preview only from a 200 answer whose body decoded; a failed call or another status is an error naming that cause |
| `PreviewProxy.Resolve` | go/main.go:142-173 | the resolver's result: a preview exactly when the key has a live entry or the control plane answers a decodable 200; it is the cached preview on a hit and the answered one on a miss; every error is the control plane's |
| `PreviewProxy.ItemsAfter` | go/main.go:142-173 | the cache after resolving: other keys are untouched; a hit or a failed answer leaves it unchanged; a miss answered by a decodable 200 makes that preview live from the time the answer arrived |
| `PreviewProxy.HitIgnoresControlPlane` | go/main.go:145-147 | a live entry is returned whatever the control plane would answer, and the cache is not written |
| `PreviewProxy.WriteOnlyAfterSuccess` | go/main.go:162-171 | the cache changes only after a miss answered by a decodable 200, and then gains exactly that preview with expiry 2 min after the answer arrived |
| `PreviewProxy.RepeatWithinTtl` | go/main.go:143-171 | after a miss that resolved, the same key resolves to the same preview from the cache for two minutes from the moment the answer arrived, whatever the control plane would say |
| `PreviewProxy.Rewrite` | go/main.go:118-140 | on a failed resolution or an unparsable URL only the URL host changes, to `invalid.local`; on success the scheme and URL host are the target's, `Host` is the target host, the path is the shape-joined target and request path, the token header holds exactly the token, and no other header changes |
| `PreviewProxy.HitRewritesAsMiss` | go/main.go:142-147 | a cache hit rewrites a request exactly as a cold miss answered with the same preview |
| `PreviewProxy.ErrorPageResponse` | go/main.go:85-93 | status 502, body is the error page, `Content-Type` is HTML, `Content-Length` is a digit string that reads back as the page length, `Content-Encoding` is removed, other headers are kept |
| `PreviewProxy.Intercept` | go/main.go:69-75 | a response keeps status 200 exactly when it had it, and is then unchanged; any other status becomes 502 with the error page as body |
| `PreviewProxy.InterceptOutcome` | go/main.go:69-75 | a 200 passes through unchanged; any other status becomes a 502 with the error page; intercepting twice changes nothing more |
| `PreviewProxy.UniformFailureSurface` | go/main.go:76-79 | an intercepted non-200 has the same status, body and content type as the reply to a failed exchange |
| `PreviewProxy.Dispatch` | go/main.go:101-116 | the health path is answered whatever the host; otherwise the request is rejected exactly when the decoded pair fails validation, with that error; a forwarded host names a non-empty pair in the two character classes |
| `PreviewProxy.NoDashRejected` | go/main.go:108-113 | a non-health request whose first label has no `-` is rejected with the empty-input error |
| `PreviewProxy.ForwardedHostRoundTrips` | go/main.go:108-115 | a forwarded host's first label is exactly port + `-` + sandbox ID |
| `PreviewProxy.Request.Clone` | go/main.go:115 | the reverse proxy's outbound copy: a fresh request with the same scheme, URL host, path, `Host` and headers as the incoming one |
| `PreviewProxy.Proxy.constructor` | go/main.go:60-65 | a new proxy owns a fresh, empty cache |
| `PreviewProxy.Proxy.GetPreview` | go/main.go:142-173 | the result is the live cached preview without a control-plane call, or on a miss the control plane's outcome after a call; the cache becomes `ItemsAfter` of the old one, written only by a decodable 200 and stamped with the time the answer arrived |
| `PreviewProxy.Proxy.Director` | go/main.go:118-140 | the request becomes `Rewrite` of its old value with the preview resolved for its own host, and the cache is updated as by `GetPreview` |
| `PreviewProxy.Proxy.Retarget` | go/main.go:122-139 | the request becomes `Rewrite` of its old value for the given resolution outcome |
| `PreviewProxy.Proxy.ServeErrorPage` | go/main.go:85-93 | the response becomes `ErrorPageResponse` of its old value |
| `PreviewProxy.Proxy.ModifyResponse` | go/main.go:69-75 | the response becomes `Intercept` of its old value |
| `PreviewProxy.Proxy.ServeHTTP` | go/main.go:101-116 | health and rejected requests get their fixed replies, with no cache change and nothing forwarded; a forwarded request yields a fresh copy rewritten by the director, and the original request is untouched |

## Left out

- `main` and `loadConfig` (go/main.go:175-234): environment and `.env` loading, server timeouts, signal handling and graceful shutdown are process plumbing.
- The HTTP exchanges. This covers building the control-plane request (its URL and bearer header), `apiClient.Do` and its 10-second timeout, JSON decoding, and the reverse proxy's streaming of the upstream exchange. The control plane's outcome is the `ApiReply` input instead.
- Whether `invalid.local` fails to resolve. The model records that the director routes there; that the exchange then fails and the error handler answers is outside it.
- `url.Parse` is an input function, not a URL parser.
- The cache's background sweep and its mutex. Concurrency between simultaneous requests is not modelled either, including last-writer-wins races and cancellation while a lookup is in flight. A cancelled call is just a `SendFailed` reply.
- Logging, and the content of the embedded `error.html`. `ERROR_PAGE` is an opaque ASCII stand-in, so its length in characters is its length in bytes.
- Closing the upstream response body (go/main.go:86) is not modelled. The body is the string the response carries.
- Header-name canonicalisation. Header names are taken to be canonical already, as Go's server produces them.
- Strings are character sequences, not byte strings. All separators are ASCII, so splitting agrees with Go's byte-wise functions. Non-ASCII characters never match either character class.
- The hop-by-hop header handling and `X-Forwarded-For` that the reverse proxy adds after the director runs belong to the Go standard library and are not modelled.
