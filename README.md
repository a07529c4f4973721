# dev-share-sdk core, modelled in Dafny

This project models the core of the dev-share-sdk TypeScript repository. It has two parts.

**The analytics SDK** (`analytics-sdk-js`):
- a batching event queue;
- identity and session stamping;
- UTM and browser-information helpers;
- the mapping of a batch to the collector's wire format.

**The REST client core** (`packages/core`):
- the `parseError` classifier;
- query, URL and header assembly and response classification in `RequestClient`;
- the `AuthManager` token store;
- JWT `userId` extraction;
- the cached-user validation helpers.

Each source file becomes one Dafny module:

| module | file | models |
|---|---|---|
| `Queue` | `event_queue.dfy` | `EventQueue` |
| `Sdk` | `analytics.dfy` | `Analytics` |
| `AnalyticsUtils` | `analytics_utils.dfy` | the SDK's `utils.ts` |
| `ApiErrors` | `api_error.dfy` | `error.ts` |
| `Requests` | `request.dfy` | `request.ts` |
| `Auth` | `auth.dfy` | `auth.ts` |
| `Jwt` | `jwt.dfy` | `jwt.ts` |
| `UserCache` | `user_cache.dfy` | `user-cache.ts` |

Shared modules give the JavaScript semantics the code relies on:
- `Js` covers values, truthiness and property access (a read on `undefined`/`null` is a thrown `TypeError`, None).
- `Text` covers `String(n)`, `parseInt` with and without radix 10 (including the `0x` prefix), `split`/`join`, `includes`, `repeat` and `replace`.
- `Browser` covers Web Storage and the window's globals; a missing window is a null `Window?`.
- `Wrappers`, `AnalyticsTypes` and `CoreConfig` hold the data types.

Objects that the source mutates are classes with `modifies` frames: the queue, the analytics client, the storages, the token manager and the id supply. Everything else is functions over values.

How the environment enters the model:
- **Clock.** `Date.now()`/`new Date()` is a `now` parameter; one operation reads one clock value.
- **Ids.** `generateId()` is the `IdSource` class: the n-th id drawn is `Id(n)`, and every id is non-empty.
- **Host functions as parameters.** These are `atob`, `JSON.parse`, `JSON.stringify`, `encodeURIComponent`, the form encoder of `URLSearchParams`, `toISOString` and `fetch`. A thrown exception is `None`.
- **Async flush.** The queue's asynchronous `flush` is split at its only `await`:
  - `BeginFlush` takes the snapshot and clears the queue; a timer tick runs the same step;
  - `CompleteFlush(batch, ok)` is the continuation.

  Any interleaving of enqueues and overlapping flushes is therefore a sequence of method calls. Ghost fields keep account of every event: delivered, in flight, queued or cleared.

## Behaviour the model follows

- **Stable ids in a browser.**
  - `generateSessionId` returns the stored session id whenever there is one, and `getOrCreateAnonymousId` does the same for the anonymous id.
  - So in a browser neither an expired session nor `reset()` changes either id while localStorage still holds them. `Sdk.Analytics.CheckAndUpdateSession` and `Sdk.Analytics.Reset` state this case separately.
  - Other code may remove or change the stored ids at any time, so the client does not assume they are still there. When a key is missing or empty, the next expired session or `reset()` draws a new id and stores it. The functions `AnalyticsUtils.IdFor`, `AnalyticsUtils.DrawsFor` and `AnalyticsUtils.ItemsFor` describe one such get-or-create step; the contracts of these methods are written with them.
- **Enqueue time wins.** `enqueue` overwrites the caller's `timestamp` with the enqueue time.
- **UTM keys do not match.**
  - `extractUTMParams` stores the parameters under their query names (`utmSource`, …).
  - `track` reads `utm_source`, `utm_medium`, …, the names the `UTMParams` type declares.
  - So on a first visit the parameters taken from the URL never reach an event. `Sdk.FirstVisitUtmNotForwarded` states it.
  - On later visits the event carries whatever `utm_*` entries the stored object has. An object stored by `getStoredUTMParams` itself has none.
- **A negative session timeout is kept.** `config.sessionTimeout || 30 * 60 * 1000` keeps any non-zero value. With a negative timeout every `track` finds the session expired, including the constructor's own page view. Without a window, that view draws a third id. `Sdk.Create` states this.
- **`request` and `uploadFile` classify differently.**
  - A body `{ code: 5 }` is data for `request` and an error for `uploadFile`; so is `{ errorCode: '0' }`.
  - `{ data: null }` yields `null` from `request` and the whole body from `uploadFile`.
  - `success: 'false'` at HTTP 200 is an error for `request`, but `parseError` then takes its HTTP branch, so it carries code 200.

## Model

| member | source | states |
|---|---|---|
| Queue.EventQueue.constructor | analytics-sdk-js/src/event-queue.ts:15-24 | the queue starts empty with the given batch size and interval, and the timer armed |
| Queue.EventQueue.Enqueue | analytics-sdk-js/src/event-queue.ts:29-43 | exactly one event goes at the tail, with a fresh id and the enqueue time; earlier entries are unchanged. When the length reaches `batchSize`, the started flush carries the whole queue and leaves it empty. No event is lost |
| Queue.Stamp | analytics-sdk-js/src/event-queue.ts:30-34 | the stored event keeps the draft's fields, with the new id and the enqueue time |
| Queue.StampIgnoresDraftTimestamp | analytics-sdk-js/src/event-queue.ts:30-34 | whatever timestamp the draft carries, the queued event's timestamp is the enqueue time |
| Queue.EventQueue.BeginFlush | analytics-sdk-js/src/event-queue.ts:48-59 | on an empty queue nothing is sent; otherwise the whole queue, in order, becomes one in-flight batch and the queue is left empty |
| Queue.EventQueue.CompleteFlush | analytics-sdk-js/src/event-queue.ts:58-65 | the settled batch leaves the in-flight set. On success it is delivered; on failure the queue becomes the batch followed by the events enqueued meanwhile. The no-loss invariant is kept |
| Queue.FlattenRemove | analytics-sdk-js/src/event-queue.ts:53-64 | removing one batch from the in-flight list removes exactly its events from the in-flight multiset |
| Queue.SettleKeepsAccount | analytics-sdk-js/src/event-queue.ts:58-65 | settling a batch, delivered or requeued, keeps the multiset equation enqueued = delivered + in flight + queued + cleared |
| Queue.EventQueue.Stop | analytics-sdk-js/src/event-queue.ts:84-89 | only the timer changes; the queue is untouched |
| Queue.EventQueue.Clear | analytics-sdk-js/src/event-queue.ts:101-103 | the queue becomes empty and its events are accounted as cleared; nothing else changes |
| Queue.EventQueue.GetLength | analytics-sdk-js/src/event-queue.ts:94-96 | the result is the queue's length |
| Queue.FailedFlush | analytics-sdk-js/src/event-queue.ts:53-65 | a flush that fails while nothing else is enqueued hands over the whole queue and leaves the queue exactly as it was |
| Queue.RetryKeepsOrder | analytics-sdk-js/src/event-queue.ts:53-65 | two events whose flush fails go out again before an event enqueued during that flush, all three in order |
| Queue.SizeTriggeredFlush | analytics-sdk-js/src/event-queue.ts:40-42 | with batch size 3, the third enqueue sends all three events and leaves the queue empty |
| Sdk.WithDefaults | analytics-sdk-js/src/analytics.ts:31-41 | a falsy or missing setting is replaced: batch size 10, interval 5000, session timeout 1800000, user id ''. Page views are tracked unless explicitly `false`; click tracking and debug only when `true` |
| Sdk.EmptyConfigDefaults | analytics-sdk-js/src/analytics.ts:31-41 | with nothing configured: batches of 10 every 5000 ms, 30-minute sessions, no user, page views on |
| Sdk.DefaultsAreIdempotent | analytics-sdk-js/src/analytics.ts:31-41 | applying the defaults to a resolved configuration changes nothing |
| Sdk.Analytics.constructor | analytics-sdk-js/src/analytics.ts:29-60 | the defaults are applied. The session id is the stored one when present and otherwise the next id drawn; the anonymous id likewise, drawn after the session id. Exactly one id is drawn per missing or empty key, two without a window. In a browser both ids end up stored and no other storage key changes. The queue is empty, armed, and built with the configured size and interval |
| Sdk.InitIds | analytics-sdk-js/src/analytics.ts:48-53 | the session id is obtained first, then the anonymous id. Each is the stored non-empty id or the next one drawn, and exactly as many ids are drawn as were missing. In a browser exactly these two keys end up holding them; without a window the two next ids are drawn, in that order |
| Sdk.Analytics.AutoTrackPageView | analytics-sdk-js/src/analytics.ts:63-65 | with auto page view off nothing changes and no id is drawn; otherwise the outcome is that of `trackPageView()`. It runs right after the identity step, when a browser's storage holds the session id, so that id stays and exactly one id, the event's, is drawn. Without a window an expired session draws one more id first, which becomes the session id |
| Sdk.Create | analytics-sdk-js/src/analytics.ts:29-65 | `new Analytics(config)` as a whole. In a browser each id is the stored one when present and otherwise the next id drawn, session first; one id is drawn per missing or empty key, plus one for the page view's event id when auto page view is on. Without a window two ids are drawn; with auto page view one more for the event, and another before it, which becomes the session id, when that first page view already finds the session expired. localStorage ends up as before, plus the two ids and, when a page view is tracked, the first-visit UTM entry. With auto page view the one `page_view` event is queued when `batchSize` exceeds 1, and is already the in-flight batch otherwise. Without it nothing is queued. Nothing is delivered or cleared |
| Sdk.GetOrCreateAnonymousId | analytics-sdk-js/src/analytics.ts:85-100 | without a window, a new id each time. In a browser, the stored non-empty id with nothing drawn and storage untouched; or, when none is stored, a new id that is then stored |
| Sdk.AnonymousIdIsStable | analytics-sdk-js/src/analytics.ts:90-99 | in a browser two calls return the same anonymous id |
| Sdk.Analytics.CheckAndUpdateSession | analytics-sdk-js/src/analytics.ts:105-115 | the activity time becomes `now`. A session id is asked for only when the gap strictly exceeds the timeout. It is then the stored non-empty id, or a newly drawn one that a browser stores; nothing else in storage changes. While storage holds the current id, the id stays |
| Sdk.Decorate | analytics-sdk-js/src/analytics.ts:126-146 | each of userId, sessionId, anonymousId, pageUrl, pageTitle and referrer is the option when non-empty, else the client or browser default. Properties default to `{}`; UTM fields are read under `utm_*`; browser fields come from the browser info |
| Sdk.FirstVisitUtmNotForwarded | analytics-sdk-js/src/analytics.ts:137-141 | the UTM object extracted from a URL has no `utm_*` key, so a decorated event carries no UTM field |
| Sdk.TrackTimestampIsEnqueueTime | analytics-sdk-js/src/analytics.ts:135 | the timestamp `track` puts on the draft is replaced by the enqueue time |
| Sdk.Analytics.PrepareEvent | analytics-sdk-js/src/analytics.ts:120-147 | the session is checked, then the draft is the decoration of the options with the client's ids, the browser info and the UTM object read before. The session id, the ids drawn and storage follow the session step, then the first-visit UTM write; the queue is untouched |
| Sdk.Analytics.EnqueueDraft | analytics-sdk-js/src/analytics.ts:148 | exactly one stamped event is appended. When the queue reaches `batchSize`, the started flush carries the whole queue and joins the in-flight batches. Nothing is delivered or cleared, and storage is untouched |
| Sdk.Analytics.Track | analytics-sdk-js/src/analytics.ts:120-149 | the session is checked first, with the same outcome for the session id and storage as `CheckAndUpdateSession`. Then exactly one event, the decorated and stamped options, is appended to the queue, and a flush starts exactly when the queue reaches `batchSize`. The started batch becomes in flight; nothing is delivered or cleared. localStorage changes only by the session step and the first-visit UTM write |
| Sdk.Analytics.TrackPageView | analytics-sdk-js/src/analytics.ts:154-159 | `track` with only the name `page_view` and the properties, with the same queue, flush and storage outcome. The event carries the given properties, or `{}` |
| Sdk.Analytics.SettleFlush | analytics-sdk-js/src/analytics.ts:216-265 | the batch leaves the in-flight set. It is delivered exactly when `sendBatchEvents` resolves: an empty batch, or a response that is ok and parses as JSON. Otherwise it goes back in front of the queue |
| Sdk.Analytics.Identify | analytics-sdk-js/src/analytics.ts:198-201 | only the default user id changes; queued events and both ids are untouched |
| Sdk.Analytics.Reset | analytics-sdk-js/src/analytics.ts:206-211 | the user id becomes ''. The anonymous id, then the session id, is each the stored non-empty id or a newly drawn one that a browser stores. While storage holds both current ids, nothing changes; without a window two new ids are drawn, anonymous first |
| Sdk.ToWire | analytics-sdk-js/src/analytics.ts:224-244 | a wire record carries the app id and the event name; user id or ''; properties or `{}`; ip ''; the formatted event timestamp |
| Sdk.SendBatchEvents | analytics-sdk-js/src/analytics.ts:216-245 | no request for an empty batch; otherwise one POST to `apiUrl + '/v1/analytics/events/batch'` with one wire record per event, in order |
| Sdk.Analytics.Flush | analytics-sdk-js/src/analytics.ts:271-273 | the queue's synchronous flush step: nothing on an empty queue, else the whole queue as one batch, which joins the in-flight batches. The queue is left empty; nothing is delivered, cleared or enqueued, and the timer is untouched |
| Sdk.Analytics.Destroy | analytics-sdk-js/src/analytics.ts:278-282 | the timer stops and the queued events are dropped without being sent |
| AnalyticsUtils.IdSource.GenerateId | analytics-sdk-js/src/utils.ts:10-12 | a non-empty id, the next one the supply gives |
| AnalyticsUtils.GenerateSessionId | analytics-sdk-js/src/utils.ts:17-31 | a stored non-empty session id is returned with no id drawn and storage untouched; otherwise a new id is drawn and stored when a window exists |
| AnalyticsUtils.GenerateSessionIdTwice | analytics-sdk-js/src/utils.ts:20-30 | in a browser two consecutive calls return the same id |
| AnalyticsUtils.ExpiryIsStrict | analytics-sdk-js/src/utils.ts:122-124 | a session is expired exactly when the gap exceeds the timeout; a gap equal to the timeout is not expired |
| AnalyticsUtils.UtmFromQuery | analytics-sdk-js/src/utils.ts:46-52 | only the five names `utmSource` … `utmContent` appear, each exactly when its query value is non-empty, with that value |
| AnalyticsUtils.ExtractUTMParams | analytics-sdk-js/src/utils.ts:36-55 | `{}` without a window; otherwise the UTM object of the given URL's query, or of the window's own |
| AnalyticsUtils.StoredUtmParams | analytics-sdk-js/src/utils.ts:60-84 | `{}` without a window; the query's parameters when nothing is stored |
| AnalyticsUtils.UtmStored | analytics-sdk-js/src/utils.ts:65-83 | only the UTM key can change. A stored non-empty text is left alone; otherwise the key gets the serialized query parameters when there is at least one |
| AnalyticsUtils.GetStoredUTMParams | analytics-sdk-js/src/utils.ts:60-84 | a stored object is returned, or `{}` when it does not parse, with storage untouched. On a first visit the extracted parameters are returned and stored only when at least one was found; localStorage becomes `UtmStored` of the old contents |
| AnalyticsUtils.GetBrowserInfo | analytics-sdk-js/src/utils.ts:89-109 | all six fields '' without a window. Otherwise the language falls back to the first of `languages`, and the resolution is `width + 'x' + height` |
| ApiErrors.FirstTruthy | packages/core/src/client/error.ts:19-23 | the first truthy candidate, or the default when none is truthy |
| ApiErrors.ParseError | packages/core/src/client/error.ts:8-58 | details are always the body and the message is always truthy. The first branch gives a numeric code; with neither a failure flag nor a non-zero `code`, the code is the HTTP status |
| ApiErrors.NumericErrorCode | packages/core/src/client/error.ts:11-14 | a numeric `errorCode`, string or number, becomes the code |
| ApiErrors.NonNumericErrorCode | packages/core/src/client/error.ts:12-14 | an `errorCode` that does not start like a number gives code 0 |
| ApiErrors.StatusFallback | packages/core/src/client/error.ts:15-17 | with `success: false` and no `errorCode`, the code is the status when it is at least 400, else 0 |
| ApiErrors.FailureMessageOrder | packages/core/src/client/error.ts:19-23 | the message prefers `errorMessage`, then `message`, then a non-empty string `error`, then the default |
| ApiErrors.CodeBranchIgnoresErrorMessage | packages/core/src/client/error.ts:33-43 | in the `code` branch, changing `errorMessage` changes neither the code (the body's `code`) nor the message |
| ApiErrors.HttpErrorMessage | packages/core/src/client/error.ts:46-57 | with no usable message the HTTP branch reports the status as code and a default message that names the status |
| Requests.AppIdEntry | packages/core/src/client/request.ts:34-38 | the request's appId wins over the configured one; with neither, no appId is added |
| Requests.KeptAppend | packages/core/src/client/request.ts:41-47 | the params filter works entry by entry: filtering a concatenation concatenates the results |
| Requests.KeptFromPresent | packages/core/src/client/request.ts:42-45 | every appended pair comes from an entry with a value other than `undefined`/`null`, as `String(value)` |
| Requests.KeptAllPresent | packages/core/src/client/request.ts:42-45 | when no value is `undefined` or `null`, every entry is appended, in order |
| Requests.BuildSearchParams | packages/core/src/client/request.ts:31-47 | the query pairs are the appId pair, if any, followed by the kept params in entry order |
| Requests.Serialize | packages/core/src/client/request.ts:51 | the serialized query is empty exactly when there are no pairs |
| Requests.ApiPath | packages/core/src/client/request.ts:50-53 | the path is `url` when the query is empty, else `url + '?' + query` |
| Requests.TargetUrl | packages/core/src/client/request.ts:56-62 | through the proxy, `apiProxy + '?path=' + encode(path)`, `apiProxy` defaulting to `/api/proxy`; otherwise `baseURL + path` |
| Requests.ProxyPathRecoverable | packages/core/src/client/request.ts:60-61 | the proxy URL starts with the proxy prefix, and decoding the rest gives the path back |
| Requests.DefaultTarget | packages/core/src/client/request.ts:56-62 | with no base URL and no proxy the target is `http://localhost:9080` followed by the path |
| Requests.RequestHeaders | packages/core/src/client/request.ts:69-74 | caller headers override the defaults. Authorization (`Bearer ` + token) is present only for a non-empty token or a caller value, X-API-Key only for a non-empty key or a caller value; no other header is added |
| Requests.RequestResult | packages/core/src/client/request.ts:83-144 | success happens exactly when the response is neither status-0 nor unparseable nor null, has no error flags, and is not a failed status of 400 or more. The data is `data.data` when defined, else the body. A rejected fetch gives -1 for CORS-like messages and 0 otherwise; status 0 gives -1. An unparseable body gives the status as code and the parse error's message, or '响应格式错误'. A `null` body gives code 0 and the `TypeError`'s message. Other failures on a parsed body are `parseError`'s |
| Requests.StringFalseAtOkStatus | packages/core/src/client/request.ts:124-129 | `success: 'false'` at HTTP 200 is an error whose code is 200 |
| Requests.FailedToFetchIsCors | packages/core/src/client/request.ts:83-91 | a rejection mentioning `Failed to fetch` is reported with code -1 |
| Requests.UploadUrl | packages/core/src/client/request.ts:256-258 | the appId query is joined with '&' when the target already contains '?', else with '?'; no query leaves the target as it is |
| Requests.ProxyUploadJoinsWithAmpersand | packages/core/src/client/request.ts:233-258 | through the proxy the upload URL always joins the appId with '&' |
| Requests.UploadResult | packages/core/src/client/request.ts:268-318 | as `RequestResult`, except that a non-zero `code`, or any truthy `errorCode` without `success: true`, is also an error. A rejected fetch is always -1, and the data treats `data.data === null` as absent. An unparseable or `null` body fails as in `RequestResult` |
| Requests.NullDataPayloads | packages/core/src/client/request.ts:137 | for `{ data: null }`, `request` yields `null` and `uploadFile` the whole body |
| Requests.NonZeroCodeOnlyFailsUploads | packages/core/src/client/request.ts:309-311 | `{ code: 5 }` at 200 is data for `request` and an error with code 5 for `uploadFile` |
| Requests.ZeroErrorCodeRequestSucceeds | packages/core/src/client/request.ts:124-129 | `{ errorCode: '0' }` at 200 is data for `request`, which skips an `errorCode` of '0' |
| Requests.ZeroErrorCodeUploadFails | packages/core/src/client/request.ts:309-311 | the same body is an error with code 0 for `uploadFile`, where '0' is a truthy `errorCode` |
| Requests.RequestClient.Request | packages/core/src/client/request.ts:20-145 | one fetch to the assembled target with the token-dependent headers; its outcome classified by `RequestResult` |
| Requests.RequestClient.UploadFile | packages/core/src/client/request.ts:208-328 | one fetch to the upload URL with the headers, without `Content-Type`; its outcome classified by `UploadResult` |
| Auth.StorageChoice | packages/core/src/client/auth.ts:78-96 | localStorage by default or when named; `sessionStorage` and `memory` select those stores |
| Auth.CustomSelectsNoStore | packages/core/src/client/auth.ts:93-94 | `custom` and any other name select no store |
| Auth.TokenKey | packages/core/src/client/auth.ts:24 | the configured key when non-empty, else `access_token` |
| Auth.AuthManager.GetToken | packages/core/src/client/auth.ts:15-32 | a custom getter alone decides. With no store the result is null. localStorage and sessionStorage are read under the token key; the memory store reads an empty string as null |
| Auth.AuthManager.SetToken | packages/core/src/client/auth.ts:37-55 | a custom setter receives the token and no store is written; otherwise only the selected store changes, taking the token under the key. With no custom hooks, a following `getToken` reads the token back (null for '' in memory) |
| Auth.AuthManager.ClearToken | packages/core/src/client/auth.ts:60-73 | the key is removed from the selected store only; afterwards `getToken` is null unless a custom getter answers |
| Auth.MemoryRoundTrip | packages/core/src/client/auth.ts:101-110 | in memory mode, setting then getting returns a non-empty token and null for '' |
| Auth.NoWindowNoToken | packages/core/src/client/auth.ts:20-22 | without a window or custom hooks no token is found before or after `setToken` |
| Jwt.PaddingLength | packages/core/src/utils/jwt.ts:22 | fewer than four `=` are added, and the padded length is a multiple of 4 |
| Jwt.ToStandardBase64 | packages/core/src/utils/jwt.ts:22-23 | `-` becomes `+` and `_` becomes `/`, every other character is kept, and `=` padding follows |
| Jwt.StandardAlphabet | packages/core/src/utils/jwt.ts:22-23 | a base64url payload becomes base64 text with at most three `=` |
| Jwt.StandardBase64RoundTrip | packages/core/src/utils/jwt.ts:22-23 | undoing the conversion gives the base64url payload back |
| Jwt.ParseUserIdFromToken | packages/core/src/utils/jwt.ts:11-36 | a result is a non-empty user id, and only a token with exactly two dots yields one |
| Jwt.WrongPartCount | packages/core/src/utils/jwt.ts:14-17 | a token that does not split into three parts yields null |
| Jwt.ComposedToken | packages/core/src/utils/jwt.ts:14-31 | for `header.payload.signature` whose payload decodes to claims with a non-empty string `userId`, that id is returned |
| Jwt.DecodeFailureGivesNull | packages/core/src/utils/jwt.ts:12-35 | for `header.payload.signature` with dot-free parts, an `atob` failure, a `JSON.parse` failure or claims that are not an object yield null |
| Jwt.NonStringClaim | packages/core/src/utils/jwt.ts:27-31 | a missing, non-string or empty `userId` claim yields null |
| Jwt.GetUserIdFromToken | packages/core/src/utils/jwt.ts:43-58 | null without a window or a non-empty token; otherwise the token's parsed user id; the default token is localStorage's `access_token` |
| Text.ParseIntOfIntToString | packages/core/src/client/error.ts:13 | `parseInt(String(n))` gives `n` back for every integer |
| Text.JoinSplit | packages/core/src/utils/jwt.ts:14 | joining the pieces of `split` gives the string back |
| Browser.QueryGet | analytics-sdk-js/src/utils.ts:48 | a result is the value of a pair with the name; null only when no pair has it |
| Browser.QueryGetIsFirst | analytics-sdk-js/src/utils.ts:48 | `get` answers `v` exactly when the first pair with the name holds `v` |
| Text.SplitJoin | packages/core/src/utils/jwt.ts:14 | splitting a join of dot-free pieces gives the pieces back |
| UserCache.Validate | packages/core/src/utils/user-cache.ts:37-76 | a user is returned exactly when all of these hold: the token is non-empty; its user id parses; the saved user id equals it; the saved user parses to a record with that user id. Returning a user never clears the cache. A missing token, an unparseable token id or a saved id that differs clears the cache; a valid token with no saved id, or with a matching saved id but no saved user, gives null without clearing |
| UserCache.MismatchedCachedUserIsCleared | packages/core/src/utils/user-cache.ts:58-72 | a saved user that does not parse, or names another user, is dropped and the cache cleared |
| UserCache.ValidateAndGetCachedUser | packages/core/src/utils/user-cache.ts:24-77 | null without a window. Otherwise the decision of `Validate` on the three getters' answers; clearing runs the caller's hook once, or removes `user` and `user_id` |
| UserCache.ClearUserCache | packages/core/src/utils/user-cache.ts:82-93 | nothing without a window; otherwise the caller's hook, or `user` and `user_id` removed |
| UserCache.SaveUserCache | packages/core/src/utils/user-cache.ts:100-114 | nothing without a window; otherwise the user record, then `user_id` = its `userId`, each through the caller's setter or localStorage |
| UserCache.CheckHasToken | packages/core/src/utils/user-cache.ts:121-128 | true exactly when a window exists and the getter (default: localStorage `access_token`) returns a non-empty string |
| UserCache.SaveThenValidate | packages/core/src/utils/user-cache.ts:100-114 | with the default hooks, a user saved under the token's user id is found again |

## Left out

- I/O is outside the model: the network (`fetch` is a parameter), the DOM, `beforeunload` and click listeners (`trackClick`, `setupClickTracking`), debug logging and the `__analytics_debug__` flag. These have no effect on the modelled state.
- Timers: `setInterval` is the `timerArmed` flag. A tick is the same step as `BeginFlush`, and its timing is not modelled.
- The id format of `generateId` (time and random digits) is not modelled. Ids are an abstract supply of non-empty strings, and their uniqueness is not assumed.
- Host functions are parameters: `atob`, `JSON.parse`, `JSON.stringify`, `encodeURIComponent`, form encoding, `toISOString`. The text of a runtime `TypeError` is a parameter too.
- JavaScript numbers are integers here. Floating point, `NaN` inputs, exponent formats of `String(n)` and arrays are not represented.
- String lengths count code points, not UTF-16 code units. This matters for JWT padding only on payloads outside base64url, which `atob` rejects anyway.
- `Object.entries(params)` order, with integer-like keys first, is taken as the order of the given entry sequence.
- Custom hooks have abstract effects:
  - the custom token setter and the user-cache setters/clear are recorded as called, with what they were handed;
  - custom getters are pure functions, so a getter read twice gives one answer.
- A stored UTM text that parses to a non-object (such as `null`) is modelled as an empty object. In the source, `track` would then throw.
- `formData` contents of `uploadFile` (the file and metadata) are not modelled, nor are request options other than headers.
- `SDKConfig.timeout`, `retry` and `internal` are not read by the core and are not modelled.
- Sdk.SendBatchEvents: the request is a value. Whether it succeeds is the `PostOutcome` handed to `Sdk.Analytics.SettleFlush`.
- Storage exceptions are not modelled. `getItem`/`setItem` can throw (`SecurityError` when storage is blocked, `QuotaExceededError` when full). Nothing catches this in `generateSessionId` (utils.ts:20-28), `getOrCreateAnonymousId` (analytics.ts:90-99) or `getStoredUTMParams` (utils.ts:66, 79). The model's storage always succeeds.
- AnalyticsUtils.ExtractUTMParams: an explicit `url` that `new URL` rejects throws a `TypeError` in the source (utils.ts:43). The model takes the URL's query as already parsed, so that error path is absent.
- Sdk.Create: `new Analytics(config)` is modelled as the constructor, which sets the fields, followed by `AutoTrackPageView`. Within one JavaScript constructor the two run back to back, so the split changes no observable state.
- Sdk.Analytics.Track: the clock is read once per operation, although the source calls `Date.now()` and `new Date()` separately inside one `track`.
