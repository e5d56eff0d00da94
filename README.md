# axis-request in Dafny

A model of the core of axis-request, a thin layer over the axios HTTP client,
with proofs about it. The model covers four parts:

- **The request matcher** (`matchPattern`, `createMatcher`). Every interceptor
  uses it to decide whether a request is in scope. Include and exclude lists
  hold patterns. A pattern is either `method:<verb>` or a glob over the URL.
- **The five interceptor factories**:
  - request headers: an in-place merge into `config.headers`;
  - retry: a recursive re-send with a counter;
  - status handlers: keyed by status, on success and on failure;
  - timeout-code normalisation: an in-place rewrite of `error.code`;
  - blob responses: an `onResponse` transform.
- **The client wrapper** (`createAxis`):
  - the 33 shorthand runners and the request each one builds;
  - the default-header dictionary, with `setHeader` and `removeHeader`;
  - the two interceptor registration lists.
- **The lifecycle hook** (`createUseAxis` / `useAxis`):
  - five cells: value, loading, error, upload progress and download progress;
  - an abort controller that `run` replaces once it has been aborted;
  - option precedence between the factory and the call site;
  - `immediate`.

Modules follow the source files. The supporting modules are:

- `Wrappers`: `Option`.
- `Js`: JavaScript values. A plain object is its list of own properties in
  enumeration order. Read, write, delete and spread are modelled as JavaScript
  does them.
- `Axios`: the parts of axios's config, response and error objects that the
  library touches.

The source changes state in three places, and the model keeps those as classes:

- the config and the error (`Axios.RequestConfig`, `Axios.AxiosError`);
- the client (`Instance.Axis`);
- the hook (`UseAxis.Hook`, with `UseAxis.AbortController`).

Their methods state the whole new state. Loops in the source are loops in the
model:

- the header merge;
- the retry recursion, written as a loop;
- the `FormData` fill;
- `removeHeader` over a key list;
- interceptor registration.

Each loop is proved against a specification function. Everything else is pure
functions and lemmas.

Three outside behaviours are parameters:

- the glob test (`minimatch`): `glob: (url, pattern) -> bool`;
- `qs.stringify`: `stringify`;
- the answers the transport gives to successive retries: a sequence of `Attempt`s.

The hook's `run` is split in two:

- `Start` is everything before the awaited request.
- `Settle` is everything after it, with the request's outcome as an argument.

The user callbacks are recorded as steps, each with the cells it saw.

The hook calls the params getter on every run
(`src/hooks/createUseAxis.ts:113`), even when a custom `request` is used and
the result goes unused. On the client path, the run's own `params` argument is
not sent at all. The model keeps the second behaviour: the client request
carries the hook's params, never the run's argument. It does not record the
first: a getter is a pure function here, so a call whose result goes unused
changes nothing, and a custom request is handed only the run's argument.

## Model

| member | source | states |
|---|---|---|
| Js.PutGet | src/instance.ts:72-74 | after `obj[k] = v`, `k` reads `v` and every other key reads as before |
| Js.DeleteGet | src/instance.ts:76-85 | after `Reflect.deleteProperty(obj, k)`, `k` is absent and every other key reads as before |
| Js.AssignGet | src/instance.ts:28-32 | in `{...p, ...q}`, a key of `q` takes `q`'s value, and any other key keeps `p`'s |
| Js.AssignSnoc | src/interceptors/requestHeader.ts:18-20 | spreading one more property is one more write, which ties the write loops to the spread |
| Utils.Trim | src/utils.ts:23 | `trim()` returns a slice of the string whose removed prefix and suffix are all ECMAScript white space or line terminators, with neither end of the result white space; a string with no white space at either end is unchanged |
| Utils.IndexOf | src/utils.ts:23 | `replace` with a string pattern finds the first occurrence |
| Utils.MatchPattern | src/utils.ts:21-25 | a `method:` pattern matches iff the trimmed rest equals the method, whatever the URL; any other pattern matches iff the glob accepts the URL, whatever the method |
| Utils.AnyMatch | src/utils.ts:33 | `.some(test)` holds iff some pattern passes the test; `Matches` passes it `matchPattern` for the request |
| Utils.Matches | src/utils.ts:27-49 | the matcher accepts iff both lists are absent, or no exclude pattern matches and the include list is absent or has a matching pattern |
| Utils.MatchesEverythingWhenUnconfigured | src/utils.ts:29-31 | with neither list, every request matches |
| Utils.ExcludeWins | src/utils.ts:33-37 | a matching exclude pattern rejects, whatever the include list says |
| Utils.AbsentIncludeAccepts | src/utils.ts:39-41 | with no include list and no exclude match, the request matches |
| Utils.PresentIncludeDecides | src/utils.ts:43-45 | a present include list decides alone, and an empty one rejects everything |
| Utils.AddExcludeNarrows | src/utils.ts:33-37 | one more exclude pattern can only turn a match into a miss |
| Utils.AddIncludeWidens | src/utils.ts:43-45 | one more pattern on a present include list can only turn a miss into a match |
| RequestHeader.OnFulfilled | src/interceptors/requestHeader.ts:10-23 | returns the same config. Out of scope, the headers are unchanged and the getter is not called. In scope, the headers become the old headers with the resolved entries written over them in order |
| RequestHeader.MergedHeaders | src/interceptors/requestHeader.ts:16-20 | after the merge, each resolved entry has its value, every other header keeps its value, and nothing else appears |
| RequestHeader.NullishHeadersChangeNothing | src/interceptors/requestHeader.ts:16 | absent headers, or a `null`/`undefined` record or getter result, write nothing |
| RequestHeader.OnRejected | src/interceptors/requestHeader.ts:24 | rejects with the same error |
| RequestRetry.Retried | src/interceptors/requestRetry.ts:16-32 | each re-send carries the same config, and all but the last failed. A resolution is the last re-send's success. A rejection happens after exactly `count` re-sends, with the `count`-th re-send's error. With no outcome the transport was used up |
| RequestRetry.Expected | src/interceptors/requestRetry.ts:10-32 | anything is re-sent only in scope and for a non-cancelled error, always with `error.config`, and the interceptor never resolves with a value of its own |
| RequestRetry.OnRejected | src/interceptors/requestRetry.ts:10-33 | the loop settles exactly as `Retried` states: out of scope or cancelled it rejects with the error and re-sends nothing; otherwise the first success within `count` re-sends wins, else the `count`-th re-send's error rejects |
| RequestRetry.FirstSuccess | src/interceptors/requestRetry.ts:19-29 | the first successful re-send: every one before it failed |
| RequestRetry.OnFulfilled | src/interceptors/requestRetry.ts:9 | resolves with the same response |
| RequestRetry.NoRetryOutOfScopeOrCancelled | src/interceptors/requestRetry.ts:11-14 | out of scope or cancelled, it rejects with the original error and re-sends nothing |
| RequestRetry.AllFailingRejectsWithLastError | src/interceptors/requestRetry.ts:19-29 | when the first `count` re-sends fail, there are exactly `count` re-sends and the last one's error rejects |
| RequestRetry.StopsAtFirstSuccess | src/interceptors/requestRetry.ts:20-22 | the first success within the limit resolves the run, and nothing is re-sent after it |
| RequestRetry.ResendsOriginalConfig | src/interceptors/requestRetry.ts:22 | every re-send uses the error's own config |
| RequestRetry.SettlesIffCountPositive | src/interceptors/requestRetry.ts:16-29 | with `count >= 1` the run settles within `count` re-sends; with `count <= 0` and every re-send failing, it never settles |
| RequestRetry.DefaultIsOneRetry | src/interceptors/requestRetry.ts:16 | without `count`, exactly one re-send is made, and its result is the outcome |
| ResponseStatus.OnFulfilled | src/interceptors/responseStatus.ts:8-22 | never rejects of its own accord. It resolves with the handler's result iff the response is in scope, a handler exists for its status and the result is not nullish; otherwise it resolves with the response |
| ResponseStatus.OnRejected | src/interceptors/responseStatus.ts:24-37 | out of scope, rejects with the error. In scope with no response, it throws. With a handler and a non-nullish result, it resolves with that result (a plain value, see "## Left out"). Otherwise it rejects with the same error |
| ResponseStatus.FalsyHandlerResultKept | src/interceptors/responseStatus.ts:19-21 | a handler result of `0`, `false` or `''` still replaces the response |
| ResponseTimeout.Normalized | src/interceptors/responseTimeout.ts:15-20 | only a timeout code changes. A timeout becomes `normalizeErrorCode ?? 'TIMEOUT'`. The result counts as a timeout only if it was unchanged or chosen by the caller |
| ResponseTimeout.OnRejected | src/interceptors/responseTimeout.ts:9-23 | rejects with the same error object, whose `code` is normalised in scope and untouched out of scope |
| ResponseTimeout.OnFulfilled | src/interceptors/responseTimeout.ts:8 | resolves with the same response |
| ResponseTimeout.NormalizeIdempotent | src/interceptors/responseTimeout.ts:15-20 | normalising twice is normalising once |
| ResponseTimeout.ConnAbortedNeedsLowerCaseTimeout | src/interceptors/responseTimeout.ts:16 | `ECONNABORTED` with no `timeout` in the message keeps its code |
| ResponseTimeout.UpperCaseIsNotTimeout | src/interceptors/responseTimeout.ts:16 | matching `timeout` is case-sensitive: the message `TIMEOUT` does not contain it |
| ResponseBlob.OnFulfilled | src/interceptors/responseBlob.ts:8-19 | resolves with `onResponse`'s result iff the response is in scope, its request asked for a blob, `onResponse` is given and the result is not nullish; otherwise with the response |
| ResponseBlob.OnRejected | src/interceptors/responseBlob.ts:20 | rejects with the same error |
| ResponseBlob.DefaultScopeRoutesEveryBlob | src/interceptors/responseBlob.ts:5-15 | with the default options' empty scope, every blob response reaches `onResponse` |
| Instance.ShorthandTable | src/instance.ts:107-146 | 33 shorthands; each name is the verb followed by the variant, and the entries appear in verb order, then variant order |
| Instance.ParseShorthandName | src/instance.ts:107-146 | the name of a runner can be read back into that verb and variant |
| Instance.ShorthandNameInjective | src/instance.ts:107-146 | two different runners never share a name |
| Instance.RunnerListed | src/instance.ts:107-146 | every fetch verb (4) with every response type (6), and every modify verb (3) with every encoding (3), has a shorthand |
| Instance.ShorthandNamesDistinct | src/instance.ts:107-146 | no shorthand name appears twice, so none overwrites another |
| Instance.Lookup | src/instance.ts:107-146 | looking a name up returns a runner listed under that name, or nothing when no entry has it |
| Instance.LookupShorthandName | src/instance.ts:107-146 | `axis[name]` for a runner's name is that runner |
| Instance.FetchRunner | src/instance.ts:18-34 | the call goes to the runner's own verb with the url unchanged; `params` and the runner's `responseType` are in its config unless the caller's config sets them |
| Instance.FetchConfigPrecedence | src/instance.ts:18-34 | the request config holds `params` and the runner's `responseType`, unless the caller's config carries the same key, which wins |
| Instance.ModifyConfigPrecedence | src/instance.ts:56-61 | `headers` defaults to `{'Content-Type': contentType}`; a caller's `headers` replaces it whole |
| Instance.FormOfObject | src/instance.ts:51-53 | a multipart form of an object has one field per own key, in key order, with that key's value |
| Instance.BuildForm | src/instance.ts:51-53 | the `forEach` loop appends one field per own key, in key order, each with the value read back through its key: exactly `FormOf` of the entries |
| Instance.ModifyRunner | src/instance.ts:36-63 | JSON sends the params as given, url-encoding sends `stringify(params)`, and multipart sends the form its loop builds, or throws on `null`/`undefined` params |
| Instance.RunnerDispatch | src/instance.ts:18-63 | a shorthand's call goes to its url with its verb and its config rule; it throws a `TypeError` exactly for a multipart runner given `null` or `undefined` params |
| Instance.DeleteAllGet | src/instance.ts:82-84 | removing a list of keys removes exactly those keys; an absent key is a no-op |
| Instance.Axis.constructor | src/instance.ts:65-66 | a new client starts with the given common headers, a well-formed object, and no interceptors |
| Instance.Axis.GetHeaders | src/instance.ts:68-70 | returns the live common headers, whose keys are distinct while the client is valid |
| Instance.Axis.SetHeader | src/instance.ts:72-74 | the key reads the new value and every other header reads as before; the headers stay a well-formed object |
| Instance.Axis.RemoveHeader | src/instance.ts:76-85 | one key or each key of a list is deleted, in order: afterwards exactly the listed keys are absent and every other header reads as before; the headers stay a well-formed object |
| Instance.Axis.UseRequestInterceptor | src/instance.ts:87-95 | each interceptor is appended once, in argument order |
| Instance.Axis.UseResponseInterceptor | src/instance.ts:97-105 | each interceptor is appended once, in argument order |
| UseAxis.Immediate | src/hooks/createUseAxis.ts:57-66 | the call-site `immediate` decides when given; otherwise the factory's, with an absent one counting as off |
| UseAxis.ApplyTransform | src/hooks/createUseAxis.ts:73-74 | the call-site `onTransform` wins, then the factory's, then the identity |
| UseAxis.TransformPrecedence | src/hooks/createUseAxis.ts:73-74 | once the call site gives a transform, the factory's has no effect on the value |
| UseAxis.ResetFlag | src/hooks/createUseAxis.ts:100-103 | the value is reset iff the hook's `resetValue` is `true`, or it is absent and the run's `reset` is `true` |
| UseAxis.AxisParams | src/hooks/createUseAxis.ts:113-118 | with no params option the client request's params object is empty |
| UseAxis.InitialParams | src/hooks/createUseAxis.ts:155-159 | the immediate run is handed the getter's result, else the static params, else `undefined` |
| UseAxis.ImmediateParamsAgree | src/hooks/createUseAxis.ts:113-118 | the params the immediate run sends through the client and the argument it is handed agree key by key |
| UseAxis.AxisParamsGet | src/hooks/createUseAxis.ts:113-118 | the params sent through the client are the getter's result or the static params, whichever was given, and nothing else |
| UseAxis.RequestFor | src/hooks/createUseAxis.ts:63-132 | a custom request gets the run's argument. Otherwise the client request uses the current controller, the given method (default `get`), the given url (default `''`), the hook's params rather than the run's argument, and the own properties of `config` |
| UseAxis.SettleSteps | src/hooks/createUseAxis.ts:134-146 | after a settlement, `onSuccess` or `onError` sees the new value and error, then `onAfter` sees `loading` false |
| UseAxis.AbortController.Abort | src/hooks/createUseAxis.ts:151-153 | the controller is aborted |
| UseAxis.Hook.constructor | src/hooks/createUseAxis.ts:79-93 | the cells start as initial value, not loading, no error, 0 and 0, with a fresh controller. With `immediate` on, one run has started with the initial params |
| UseAxis.Hook.Start | src/hooks/createUseAxis.ts:95-110 | an aborted controller is replaced by a fresh one, so a run never uses an aborted controller. The value is reset iff the flag is `true`. Both progress cells become 0. `onBefore` sees that before `loading` becomes true. The request goes out with the current controller |
| UseAxis.Hook.Settle | src/hooks/createUseAxis.ts:134-148 | on success the value is the transformed response and the error is cleared; on failure the error is the reason and the value is kept. `loading` ends false either way, and the outcome is passed on unchanged |
| UseAxis.Hook.Run | src/hooks/createUseAxis.ts:95-149 | a whole run. The callbacks run in the order `onBefore`, then `onSuccess` or `onError`, then `onAfter`. `loading` ends false, and the run resolves with the raw response or rejects with the same reason |
| UseAxis.Hook.Abort | src/hooks/createUseAxis.ts:151-153 | only the current controller is marked aborted |
| UseAxis.Hook.UploadProgress | src/hooks/createUseAxis.ts:122-124 | `uploadProgress` becomes the event's progress, or 0 when it has none |
| UseAxis.Hook.DownloadProgress | src/hooks/createUseAxis.ts:126-128 | `downloadProgress` becomes the event's progress, or 0 when it has none |

## Left out

- `download` and `inBrowser` (src/utils.ts:3-19): they work on the browser's DOM.
- `ResponseStatus.OnFulfilled`, `ResponseStatus.OnRejected`, `ResponseBlob.OnFulfilled`, `RequestHeader.OnFulfilled`: the status handlers, `onResponse` and the headers getter are modelled as total functions returning plain values. A handler that throws, so that the interceptor rejects, is not modelled. Neither is one that returns a promise (such as `Promise.reject(...)`), which the client's promise chain would then adopt.
- Glob matching: it is done by the `minimatch` library. Every matcher property holds for any glob predicate.
- `matchPattern`'s `url ?? ''` is not modelled separately. Every caller already passes a string.
- `qs.stringify` is the parameter `stringify`.
- `FormData`: a form is the list of fields appended to it. How `FormData` converts values to strings or blobs is not modelled.
- Sending the HTTP request: a runner returns the call it would make. The `axios` member of the returned object and `getHeaders` aliasing the live header object are not modelled.
- The order in which axios runs the registered interceptors is not modelled. The pipelines are the registration lists.
- `RequestRetry.OnRejected`: a re-send goes through a fresh axios client, and that client is not modelled. What each re-send comes back with is a finite sequence, and a run that uses up the sequence while still retrying reports no outcome. An unbounded retry (`count <= 0`) shows up that way.
- `RequestRetry.Limit`: `count` is an integer. A fractional `count` never equals the counter and retries forever; the model does not cover it.
- Errors and responses without a `config` object are not modelled. The matcher guard reads `error.config.method`, which would throw a `TypeError` outside the model.
- JavaScript's own-key order puts integer-like keys first. The model keeps insertion order.
- `Object.keys`, `Object.entries` and spread of strings, arrays and functions are not modelled. They give indexes or nothing; the model gives every non-object value no own properties.
- Vue reactivity: the cells are plain fields.
- Concurrency: overlapping runs of one hook, cancellation reaching an in-flight request through its `AbortSignal`, and progress events arriving during a run are not modelled. One run at a time is modelled. An abort shows only as the failure outcome handed to `Settle`.
- The numeric meaning of progress values: they are reals taken as given.
- `UseAxis.Hook.Settle`: callbacks are notifications and are recorded with the cells they saw. A callback that writes to the refs or throws is not modelled. Neither is an `onTransform` that reads the refs or throws; in the source, a throwing `onTransform` sends a successful request down the failure path.
- `UseAxis.Hook.Start`: the params getter is a pure function. A getter that throws, and so fails the run, is not modelled, and neither is the unused getter call on the custom-request path.
- `UseAxis.RequestFor`: the hook's signal and progress handlers are not values in the request config. The call records the controller, plus `config`'s own properties that are spread over those three entries.
- `Axios.AxiosError`: whether an error is a cancellation (`isCancel`) is a field of the error.
