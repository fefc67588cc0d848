# http-client decision logic in Dafny

This project models the decision logic of `@digitalbazaar/http-client` and proves properties about it. The library is a thin layer over the `ky-universal` HTTP transport. Two pieces of logic are modelled:

- **`main.js`**: a `Proxy` around the ky instance.
  - Its `get` trap wraps only the names in `proxyMethods`: `get`, `post`, `push`, `patch`, `head` and `delete`.
  - On success, the wrapper attaches the decoded JSON body as `response.data` when the content-type contains `json`.
  - On failure, `_handleError` rewrites the thrown error and always rethrows it:
    - with no response, it rewrites the browser's `Failed to fetch` message;
    - with a response, it copies `status` up and, for a JSON body, merges in the body's `message` and the whole body as `data`.
- **`lib/deferred.js`**: `deferred(f)`, a lazy, memoised thenable.
  - Its first `then` runs `f` and stores the promise.
  - Every later `then` reuses that promise.

Files:

- `wrappers.dfy`: `Option` and `Result`.
- `js_values.dfy` (module `JsValues`): the JavaScript semantics the logic depends on.
  - JSON values, with numbers as reals.
  - Truthiness, used for `a || b`.
  - Property reads, which throw a `TypeError` on `null`.
  - `String.prototype.includes`, proved equal to the usual definition of a substring occurrence.
- `http_client.dfy` (module `HttpClient`): `main.js`, in two layers.
  - Functions on value records (`Response`, `Error`) state the logic. The properties are proved about these functions.
  - The classes `ResponseObject` and `ErrorObject`, with the methods `OnSuccess`, `HandleErrorInPlace` and `Call`, mutate the objects field by field in the source's order. Each method's postcondition ties the new state to the matching function.
- `deferred.dfy` (module `DeferredValue`): `lib/deferred.js`.
  - A class `Deferred` with the captured `promise` as an `Option` field and a ghost count of invocations of `f`.
  - Two client methods that replay the library's tests.

Behaviour of `main.js` worth noting:

- The wrapped verbs include `push`, not `put`. `put` is passed through unwrapped. Calling `push` on a target that lacks it throws the `TypeError` from `undefined.apply`, which `_handleError` rethrows unchanged.
- A missing content-type header is not treated as "not JSON". `.includes` is called on `null`, and the resulting `TypeError` escapes. On the success path it escapes the wrapper directly, because the content-type test sits outside the `try`. On the error path it escapes `_handleError` after `status` has been set.
- A JSON error body that decodes to `null` makes `errorBody.message` throw a `TypeError` as well, before `message` or `data` is assigned.
- The Proxy has only a `get` trap. A direct call `httpClient(url)` reaches ky unwrapped: no `data` is attached and `_handleError` is not involved.
- `main.js` does not set `requestUrl`, does not rewrite timeout messages and does not quote the URL in the CORS message.

## Model

| member | source | states |
|---|---|---|
| `HttpClient.GetTrap` | main.js:14-21 | A property is passed through unchanged (the target's own value) exactly when its name is not in `proxyMethods`. Otherwise it is replaced by a wrapper around the target's value. |
| `HttpClient.InterceptedVerbs` | main.js:10-21 | Exactly `get`, `post`, `push`, `patch`, `head` and `delete` are intercepted. `put` is passed through. |
| `HttpClient.PushWithoutTargetMethodThrows` | main.js:19-27 | On a target with no `push`, reading `push` still yields a wrapper. Calling it throws an error whose message is the `undefined.apply` TypeError's, with no status, data or response. |
| `HttpClient.IsJson` | main.js:29 | The content-type test fails with a TypeError exactly when the header is absent. Otherwise it is true iff `json` occurs somewhere in the header value. |
| `HttpClient.LdJsonIsJson` | main.js:29 | `application/ld+json` counts as JSON. |
| `HttpClient.JsonWithCharsetIsJson` | main.js:29 | `application/json; charset=utf-8` counts as JSON. |
| `HttpClient.HtmlIsNotJson` | main.js:29 | `text/html; charset=utf-8` does not count as JSON. |
| `HttpClient.UpperCaseJsonIsNotJson` | main.js:29 | The test is case-sensitive: `application/JSON` does not count. |
| `HttpClient.AttachData` | main.js:29-32 | The success path fails exactly when the content-type is absent. Otherwise only `data` may change: it becomes the decoded body for a JSON content-type, and the response is returned untouched for any other. |
| `HttpClient.HandleError` | main.js:37-57 | Always throws, and the error thrown is the updated error itself unless a TypeError escapes. `response` never changes. With no response: status and data stay as they were, and the message changes iff it is exactly `Failed to fetch`, becoming `Failed to fetch. Possible CORS error.`. With a response: status is copied whatever the content-type. A missing content-type makes the `null.includes` TypeError escape after status is set. A non-JSON body leaves message and data alone. A JSON body becomes `data`, and the message becomes the body's `message` when that is truthy. A `null` JSON body makes the `null.message` TypeError escape, with only `status` changed. |
| `HttpClient.CallWrapped` | main.js:22-33 | A wrapped call returns only when the transport resolved, and then returns the response `AttachData` produced. A resolved call with a content-type header always returns. A resolved call without one throws the raw `null.includes` TypeError, bypassing `_handleError`. A rejection throws what `HandleError` throws. A missing target method throws what `HandleError` makes of the `undefined.apply` TypeError. |
| `HttpClient.RejectionAlwaysThrows` | main.js:24-28 | A rejected transport call never turns into a returned value. |
| `HttpClient.ResolutionReturnsIffHeader` | main.js:25-32 | A resolved transport call returns iff the response has a content-type header. |
| `HttpClient.StatusIffResponse` | main.js:39-49 | For an error with no `status`, `status` is present after `_handleError` exactly when a response is, whatever it ends by throwing. |
| `HttpClient.HandleErrorIdempotent` | main.js:37-57 | Handling an already handled error changes nothing: the CORS rewrite, the status copy and the message/data merge are each idempotent. |
| `HttpClient.OnSuccess` | main.js:29-32 | Updating the response object in place leaves it equal to `AttachData`'s result, and reports an escaping TypeError exactly when `AttachData` fails. On failure the object is unchanged. |
| `HttpClient.HandleErrorInPlace` | main.js:37-57 | Updating the error object field by field leaves it as `HandleError` says, including the partial update before an escaping TypeError. It throws what `HandleError` throws. |
| `HttpClient.Call` | main.js:22-33 | The wrapper over objects ends the way `CallWrapped` says. A returned response is the transport's own object, and a thrown error is the transport's own error object. |
| `JsValues.IncludesIffOccurs` | main.js:29 | `includes` is true iff the substring occurs at some index (both directions). |
| `JsValues.GetProperty` | main.js:53 | For a key no JSON value inherits, such as `message`, reading it from a decoded body throws exactly on `null`. It yields the member of an object that has one, and `undefined` for anything else. |
| `JsValues.Or` | main.js:53 | `a \|\| b` is `a` when `a` is truthy, and `b` otherwise. A missing or empty `message` therefore keeps the original. |
| `DeferredValue.Settle` | lib/deferred.js:9 | The stored promise fulfils with `f`'s value, adopts the settlement of a promise `f` returns, and rejects with what `f` throws. |
| `DeferredValue.Deferred.constructor` | lib/deferred.js:1-4 | Creating a deferred invokes nothing and stores no promise. |
| `DeferredValue.Deferred.Then` | lib/deferred.js:5-14 | The first `then` invokes `f` once and stores the settlement of its result. A later `then` keeps the stored promise and invokes nothing. Every `then` yields the stored settlement, and `f` has run exactly once afterwards. |
| `DeferredValue.AwaitTwice` | tests/deferred.spec.js:27-39 | Awaiting a fresh deferred twice gives two equal settlements, both those of `f`'s first invocation. The invocation count goes from 0 to 1. |
| `DeferredValue.AwaitRepeatedly` | lib/deferred.js:9-13 | With any number of awaits, every await settles as the first invocation of `f` did, whether that was a value or a rejection. Later invocations are never used. `f` runs once, or never if nothing awaits. |

## Left out

- The `ky-universal` transport and HTTP I/O (main.js:4, 8, 25). A transport call is an abstract outcome: it resolves to a response or rejects with an error.
- The default `Accept` header (main.js:6, 8). It is only passed to the transport's `create`.
- JSON decoding (main.js:30, 50). The decoded body is a given value. Failures of `response.json()` on a malformed body are not modelled, and neither is the body stream being consumed.
- JavaScript `Proxy` reflection, `this` binding and `Symbol` property keys. A property name is a string and the target is a map.
- `async`/`await` and promise scheduling. These are modelled sequentially, and a promise is represented by its eventual settlement. The pending state of a deferred therefore coincides with the settled one.
- The callbacks passed to `then` (lib/deferred.js:10-13), and the promise they produce. `Then` returns the settlement the callbacks receive.
- JSON numbers are reals. IEEE-754 rounding is not modelled; it does not affect truthiness.
- `JsValues.TypeErrorMessage` uses V8's wording. It only matters where such a TypeError reaches `_handleError` as an error message.
- The client that `lib/index.js` builds with `createInstance()` from `lib/httpClient.js` is not part of this model. The tests assert of that client a `requestUrl` property, a timeout message, a CORS message that quotes the URL, and `extend`. `main.js` implements none of these.
- Direct invocation of the proxied client (`httpClient(url)`, a call rather than a property read) is not intercepted by `main.js`, so it has no model beyond the transport itself.
- `Deferred.Then` takes `f`'s outcome as a value, so `f` cannot re-enter. In the source, `promise` is assigned only after `f()` returns (lib/deferred.js:9). An `f` that synchronously calls `then` on its own deferred would find `promise` still unset and invoke `f` again. The model's "at most once" therefore covers only an `f` that does not re-enter.
- Test servers and build configuration (tests/utils.cjs, tests/utils-browser.cjs, rollup.config.js).
