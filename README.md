# Product catalogue client: server liveness, retry-once, error messages, list filtering

A Dafny model of the logic in a React product-catalogue client. It talks to a
FastAPI backend hosted on a service that puts idle servers to sleep. The model
covers five things:

- **Server-liveness record** `serverStatus = {isAwake, lastWakeUp, isWaking}`.
  It is changed by the response interceptors, by `wakeUpServer` and by
  `cleanup`.
  - `Liveness` gives each transition as a function of the old record and of
    the environment's inputs.
  - `Client.ApiClient` holds the record as three fields. Its methods are
    proved to change them exactly as those functions say.
- **Retry-once rule** of the error interceptor:
  - it retries only on 503, 502 or `ECONNABORTED`, and only for a request not
    yet tagged `_retry`;
  - it tags the request, marks the server asleep, wakes it and sends the
    request again.
  The tag is why no request is sent more than twice, and why the wake-up's
  `/health` probe is never retried.
- **`wakeUpServer`** has three branches. A fast path for a server that was
  awake less than 300000 ms ago. A wait of at most 20 one-second polls while
  another wake-up is in flight. Its own health check, whose `finally` always
  clears `isWaking`.
- **`formatApiError`**: a fixed precedence from the error's code, status,
  `detail` and `message` to one of seven messages. The texts are kept as the
  source has them.
- **Payload and response shaping** in `productAPI`: the multipart field list
  of `create`/`update`, the compress-or-keep decision for an image, the
  `remove_image` flag, `[]` for a non-array list body, and the `getStats`
  fallback.

The product list screen is modelled too. Its search filter keeps the products
whose lower-cased name contains the lower-cased term, in their original order.
A confirmed delete removes every product with the deleted id. A failed fetch
or delete leaves the list as it was.

The environment is an explicit input:

- The current time is a parameter (`WakeEnv.now`). Each response carries its
  arrival time. This stands for `Date.now()`.
- Each network exchange is an input `Reply`: a response with its data, or an
  axios error.
- Each `setTimeout` wait is one abstract step.
- While a caller waits for someone else's wake-up, the k-th wait sees the
  record as the k-th element of `WakeEnv.polled` says.

Modules: `Http` (shared values), `Strings` (ASCII `toLowerCase`,
`includes`), `Lists` (`Array.filter`), `ErrorFormat`, `Liveness`, `Payload`,
`Client` and `ProductList`.

About the structure. `wakeUpServer` sends `/health` through the same axios
instance, so its reply passes the interceptors too. That request is tagged
`_retry`, so its reply can only settle: a success marks the server awake, an
error is rejected as it is. The model writes that as `Liveness.Settle`.
`Liveness.TaggedRequestSettles` proves it is exactly what the interceptors do
with any tagged request. The retry itself is the tagged request dispatched
once more (`Liveness.Dispatch` calls itself on it, as `apiClient(originalRequest)`
does at src/api/config.js:77). `Liveness.RetrySendsTaggedRequest` and
`Liveness.RetriedAtMostOnce` derive from the tag that no third send happens.

Points of the code that the model follows as written:

- Both uploads set `'Content-Type': 'multipart/form-data'` by hand
  (src/api/config.js:207-209, src/api/config.js:262-264). Headers are not
  modelled.
- `wakeUpServer` catches every error of its health check and never rejects.
  So the `catch` at src/api/config.js:78-81 is never reached, and the tagged
  request is sent again whatever `wakeUpServer` resolved to.
- `compressImage` resolves with whatever `canvas.toBlob` hands back, and that
  may be `null`. Reading `.size` of it at src/api/config.js:188 then throws
  inside the `try`, and the `catch` at src/api/config.js:189-192 keeps the
  original image (the same holds at src/api/config.js:238-243). Compression's
  outcome is an input: None means it threw or produced no blob.
- `checkServerHealth` sends an untagged `GET /health` through the same
  interceptors, so, unlike the wake-up probe, it can be retried, and its
  reply updates `serverStatus`.
- The list screen does not use the resilient client. It calls axios
  directly, with no wake-up, no retry and no array normalisation.

## Model

| member | source | states |
|---|---|---|
| Lists.Filter | src/components/ProductList.js:58-60 | `Array.filter`: never longer than its input; every element it keeps is accepted by the predicate |
| Lists.FilterMembership | src/components/ProductList.js:58-60 | an element is in the result iff it is in the input and accepted |
| Lists.FilterMultiplicity | src/components/ProductList.js:58-60 | each accepted element is kept exactly as often as it occurs; rejected ones occur zero times |
| Lists.FilterConcat | src/components/ProductList.js:58-60 | filtering a concatenation is concatenating the filtered parts (relative order is preserved) |
| Lists.FilterSubsequence | src/components/ProductList.js:58-60 | the result is a subsequence of the input |
| Lists.FilterKeepsAll | src/components/ProductList.js:58-60 | a predicate that accepts every element returns the input unchanged |
| Lists.FilterIdempotent | src/components/ProductList.js:43 | filtering twice with one predicate is filtering once |
| Strings.ToLowerCase | src/components/ProductList.js:59 | same length; each character lower-cased (ASCII); no upper-case letter remains |
| Strings.IncludesEmpty | src/components/ProductList.js:59 | every string includes `''` |
| Strings.ToLowerCaseIdempotent | src/components/ProductList.js:59 | lower-casing twice is lower-casing once |
| Strings.Includes | src/components/ProductList.js:59 | `String.prototype.includes`: the needle occurs at some position; `IncludesEmpty` and `IncludesSuffix` state its cases used here |
| ErrorFormat.TimeoutTakesPrecedence | src/api/config.js:319-320 | `ECONNABORTED` gives the timeout message whatever response the error carries |
| ErrorFormat.NetworkErrorTakesPrecedence | src/api/config.js:321-322 | `ERR_NETWORK` (without `ECONNABORTED`) gives the network message whatever response the error carries |
| ErrorFormat.Classify | src/api/config.js:318-334 | the branch taken; its properties are stated by the precedence lemmas above and below |
| ErrorFormat.FormatApiError | src/api/config.js:318-334 | the message of the branch taken; two errors share a message only when they took the same branch (`SameMessageSameCategory`) |
| ErrorFormat.StatusPrecedence | src/api/config.js:321-333 | without `ECONNABORTED`/`ERR_NETWORK`, statuses 413, 400, 404, 503 each give their own category (iff), and every other status or no response gives the generic one |
| ErrorFormat.InvalidDataShowsDetail | src/api/config.js:325-326 | for a 400 the message includes the server's non-empty `detail`; otherwise it is the fixed advice |
| ErrorFormat.OtherFallsBack | src/api/config.js:331-332 | the generic message shows `detail`, else `message`, else the fixed text |
| ErrorFormat.TextIdentifiesCategory | src/api/config.js:318-334 | no two categories produce the same message text |
| ErrorFormat.SameMessageSameCategory | src/api/config.js:318-334 | two errors with the same formatted message took the same branch |
| Liveness.Poll | src/api/config.js:113-117 | the wait loop makes at most 20 waits, and stops early only once `isWaking` is seen false |
| Liveness.FreshWakeIsSilent | src/api/config.js:103-108 | awake, truthy `lastWakeUp` and `now - lastWakeUp < 300000`: resolves true, no health check, record unchanged |
| Liveness.WaitingCallerSendsNothing | src/api/config.js:111-119 | with a wake-up in flight: no health check, at most 20 waits, fewer only if the flag was cleared, result is the record's final `isAwake` |
| Liveness.PollStopsAtFirstClear | src/api/config.js:113-117 | the loop stops at the first wait that sees `isWaking` cleared, with that record |
| Liveness.PollGivesUp | src/api/config.js:113-117 | if the flag is never seen cleared, exactly 20 waits are made and the flag is still set |
| Liveness.WaitSeesOtherOutcome | src/api/config.js:111-119 | a waiting caller whose k-th wait sees the other wake-up finish resolves to that outcome after k waits |
| Liveness.OwnAttemptClearsFlag | src/api/config.js:121-140 | own attempt: exactly one health check, `isWaking` false on exit; success sets awake and `lastWakeUp` to the arrival time and resolves true; failure sets asleep, resolves false, keeps `lastWakeUp` |
| Liveness.WakeUpSummary | src/api/config.js:101-141 | every branch: at most one health check, none while one is in flight, result equals the record's `isAwake`, no `isWaking` left behind by a caller that found it clear |
| Liveness.SecondWakeWithinWindowIsSilent | src/api/config.js:103-108 | after a successful health check at a non-zero time, a call less than 300000 ms later sends nothing and changes nothing: two calls, one health check |
| Liveness.CleanupForcesProbe | src/api/config.js:337-343 | from the record `cleanup` restores, the next `wakeUpServer` sends a health check |
| Liveness.MarkAwake | src/api/config.js:52-56 | sets `isAwake` and `lastWakeUp`, leaves `isWaking`; what `ApiClient.OnFulfilled` is proved to do |
| Liveness.Settle | src/api/config.js:51-86 | a reply that is not retried: a response marks the server awake at its arrival, an error changes nothing (`TaggedRequestSettles`, `OtherFailuresRejectedUnchanged`) |
| Liveness.WakeUp | src/api/config.js:101-141 | `wakeUpServer`'s three branches; its properties are the wake-up lemmas above, and `ApiClient.WakeUpServer` is proved equal to it |
| Liveness.Dispatch | src/api/config.js:51-86 | a request through both interceptors, the retry being the tagged request dispatched again; properties in the interceptor lemmas below |
| Liveness.Operation | src/api/config.js:164-168 | `await wakeUpServer()` then the request; bounded by `OperationBounds` |
| Liveness.RetryBranch | src/api/config.js:68-77 | on a retryable failure the result, status and counts are those of settling the retry's reply after the wake-up, with two sends |
| Liveness.RetrySendsTaggedRequest | src/api/config.js:70-77 | the retry is the tagged request passed through the interceptors again: same record, same result as dispatching the tagged request on its own, one send more |
| Liveness.RetriedAtMostOnce | src/api/config.js:62-77 | a request is sent once or twice, twice exactly when its first failure is 503/502/`ECONNABORTED` and it was untagged; derived from the tag stopping the retried request |
| Liveness.TaggedRequestSettles | src/api/config.js:62-67 | a request tagged `_retry` is never retried: its reply is passed on and only the success interceptor can change the record |
| Liveness.HealthCheckNeverRetried | src/api/config.js:125-128 | the `/health` probe is sent once and its own reply is what comes back |
| Liveness.HealthStatusProbeIsRetried | src/api/config.js:144-146 | `checkServerHealth`'s untagged `/health` is sent twice after a 503, 502 or timeout, and the caller gets the second outcome |
| Liveness.OtherFailuresRejectedUnchanged | src/api/config.js:84 | a failure that is not retried is rejected unchanged and the record is untouched |
| Liveness.RetryGivesSecondOutcome | src/api/config.js:68-81 | after a retry the caller receives the retry's own outcome; the wake-up before it sends a health check unless one is in flight |
| Liveness.SuccessMarksAwake | src/api/config.js:52-56 | whichever path was taken, a response received leaves `isAwake` true and `lastWakeUp` equal to its arrival time |
| Liveness.DispatchLeavesNoFlag | src/api/config.js:58-85 | a request started with no wake-up in flight ends with none in flight |
| Liveness.OperationBounds | src/api/config.js:164-168 | an operation (wake-up then request) sends at most two health checks and its request at most twice |
| Payload.ProductFieldKeys | src/api/config.js:175-196 | the multipart fields are exactly name, description, price, then image when one is given |
| Payload.ShouldCompress | src/api/config.js:184 | compression is due when it is not turned off by an explicit `false` and the image exceeds 1048576 bytes; see `ImageKeptUnlessCompressed` |
| Payload.ImageToUpload | src/api/config.js:180-193 | the file appended as `image`; characterised in both directions by `ImageKeptUnlessCompressed` |
| Payload.ProductFields | src/api/config.js:174-196 | the `create` fields; their keys by `ProductFieldKeys`, the image by `ImageField`; `BuildProductForm` is proved to build them |
| Payload.UpdateFields | src/api/config.js:224-252 | the `update` fields; by `RemoveImageOnlyWhenAsked`, the `create` fields plus the flag when asked; `BuildUpdateForm` is proved to build them |
| Payload.AsList | src/api/config.js:167 | the list body or `[]`; see `AsListNormalises` |
| Payload.StatsOrDefault | src/api/config.js:305-314 | the stats body or the fallback; see `StatsFallback` and `ApiClient.GetStats` |
| Payload.RemoveImageOnlyWhenAsked | src/api/config.js:249-252 | `remove_image` is present iff removal was asked, then last and equal to "true"; the rest is the `create` payload, and without removal the whole payload is |
| Payload.ImageKeptUnlessCompressed | src/api/config.js:180-193 | the compressed file is sent iff compression is not turned off, the size exceeds 1048576 and compression produced a file; otherwise the original; a failure sends the original bytes |
| Payload.ImageField | src/api/config.js:180-196 | with an image the fourth field is the chosen file; without one no field is a file |
| Payload.DescriptionDefaultsToEmpty | src/api/config.js:177 | a missing or empty description is sent as "" |
| Payload.AsListNormalises | src/api/config.js:167 | an array body is returned as is, any other body becomes `[]` |
| Payload.StatsFallback | src/api/config.js:307-313 | an error gives `{total: 0, average_price: 0}`, a response gives its data |
| Payload.FormData.constructor | src/api/config.js:175 | a new buffer is empty |
| Payload.FormData.Append | src/api/config.js:176 | appending adds exactly one field at the end |
| Payload.BuildProductForm | src/api/config.js:174-196 | the buffer built field by field equals the `create` field list |
| Payload.BuildUpdateForm | src/api/config.js:224-252 | the buffer built field by field equals the `update` field list |
| Client.ApiClient.constructor | src/api/config.js:44-48 | the record starts as `{false, null, false}` |
| Client.ApiClient.Cleanup | src/api/config.js:337-343 | the record is reset to `{false, null, false}` |
| Client.ApiClient.OnFulfilled | src/api/config.js:52-56 | a response sets `isAwake` and `lastWakeUp` and leaves `isWaking` |
| Client.ApiClient.Deliver | src/api/config.js:51-86 | the interceptors on a tagged request's reply change the record as `Settle` says |
| Client.ApiClient.WakeUpServer | src/api/config.js:101-141 | the record, result, health-check count and wait count are those of `WakeUp`, the loop included |
| Client.ApiClient.Send | src/api/config.js:58-85 | the record, result and counts are those of `Dispatch` |
| Client.ApiClient.Call | src/api/config.js:165-166 | wake-up then request change the record and give the result as `Operation` says |
| Client.ApiClient.GetAll | src/api/config.js:164-168 | the record as `Operation` says; the normalised list or the request's error |
| Client.ApiClient.CheckServerHealth | src/api/config.js:144-159 | the record and outcome are those of dispatching an untagged `GET /health`; healthy with the body or unhealthy with the error, never a rejection |
| Client.ApiClient.Create | src/api/config.js:171-218 | sends a POST with exactly the `create` field list; returns its data or error |
| Client.ApiClient.Update | src/api/config.js:221-273 | sends a PUT to `/products/{id}` with exactly the `update` field list; returns its data or error |
| Client.ApiClient.DeleteItem | src/api/config.js:276-281 | DELETE `/products/{id}`; returns its data or error |
| Client.ApiClient.GetById | src/api/config.js:284-289 | GET `/products/{id}`; returns its data or error |
| Client.ApiClient.Search | src/api/config.js:292-302 | GET `/products/search?…`; the normalised list or the error |
| Client.ApiClient.GetStats | src/api/config.js:305-314 | never fails: the stats, or the fallback |
| Client.ListAfterCleanup | src/api/config.js:164-168 | after `cleanup`, a list call whose health check and request succeed returns the list and leaves the server awake |
| ProductList.FilteredIsMatchingSubsequence | src/components/ProductList.js:58-60 | the shown list is exactly the products whose lower-cased name includes the lower-cased term, each as often as it occurs, in original order |
| ProductList.Needle | src/components/ProductList.js:59 | the lower-cased term, or `''` when the term is undefined or empty; see `NoSearchTermKeepsAll`, `SearchIgnoresTermCase` |
| ProductList.FilteredProducts | src/components/ProductList.js:58-60 | the shown list; characterised by `FilteredIsMatchingSubsequence` |
| ProductList.WithoutId | src/components/ProductList.js:43 | the list after a delete; characterised by `RemovalKeepsOthersInOrder` and `RemovalOfAbsentIdIsNoOp` |
| ProductList.NoSearchTermKeepsAll | src/components/ProductList.js:59 | an undefined or empty term keeps every product |
| ProductList.SearchIgnoresTermCase | src/components/ProductList.js:59 | a term and its lower-cased form select the same products |
| ProductList.OwnNameMatches | src/components/ProductList.js:58-60 | searching for a product's own name keeps that product |
| ProductList.RemovalKeepsOthersInOrder | src/components/ProductList.js:43 | after removal no product has the id; every other product keeps its multiplicity and order |
| ProductList.RemovalOfAbsentIdIsNoOp | src/components/ProductList.js:43 | removing an id nobody has changes nothing; removing twice is removing once |
| ProductList.RemovalSplits | src/components/ProductList.js:43 | removal distributes over concatenation |
| ProductList.ProductListView.constructor | src/components/ProductList.js:8 | the list starts empty |
| ProductList.ProductListView.FetchProducts | src/components/ProductList.js:16-33 | a response replaces the list with its data; an error leaves it unchanged |
| ProductList.ProductListView.DeleteProduct | src/components/ProductList.js:35-56 | a confirmed delete removes every product with the id; an error leaves the list unchanged |

## Left out

- HTTP transport: `axios.create`, the base URL, the request headers, the timeouts (60000, 45000, 120000, 10000 ms) and the request-logging interceptor (src/api/config.js:89-98). These are library calls. Their outcomes come into the model as `Reply` values.
- `checkServerHealth` (src/api/config.js:144-159): the `timestamp` field (`Date.now()`) and the 10000 ms timeout. Its request, its retry and its effect on `serverStatus` are modelled.
- `compressImage` (src/api/config.js:17-41): canvas, `Image` and blob APIs, with floating-point ratio and quality. Only whether it is called and what happens when it throws or yields no blob are modelled; an image that never loads leaves its promise pending, which is not modelled. Nothing says the compressed file is smaller, because the source does not ensure it.
- Real waiting and the clock. The 5000 ms and 1000 ms `setTimeout` waits are abstract steps. `Date.now()` is an input. The interceptor and line 131 read the clock twice after a successful health check; the model uses the one arrival time for both.
- Concurrency. Other callers interleaving with a waiting caller are the `polled` input sequence. Other async interleavings (a second request's interceptors running during a wait) are not modelled.
- Floating point: `price.toString()` (price is taken as that text), upload-progress percentages, `Math.round`, `toFixed(2)` and `parseFloat` in the form components.
- `URLSearchParams` encoding in `search` (src/api/config.js:294-297). The encoded query string is an input.
- Unicode case folding: `toLowerCase` is modelled on ASCII letters only.
- A `detail` that is not a string (FastAPI sends an array for validation errors) would be converted to a string by the template literal. The model takes `detail` as an optional string.
- An error without `config` (`originalRequest._retry` would throw a TypeError): not modelled.
- FormData's string conversion of non-string values (an undefined `name` becomes "undefined"): field values are strings.
- The list screen's hard-coded URLs, including the `/productsDELETE/` path (src/components/ProductList.js:37): configuration, not logic.
- The list screen stores whatever a successful fetch returns; a non-array body would break `.filter` at render. The model types the fetched data as a product list.
- `deleteProduct` filters the `products` captured when the row was rendered (a React closure). The sequential model filters the current list.
- The user interface: rendering, styles, routing, the menu in `src/App.js`, and the form components `src/components/AddProduct.js` and `src/components/EditProduct.js`.
