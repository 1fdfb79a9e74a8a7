# zencoder-promises client, modelled in Dafny

A model of the `Zencoder` client object of `zencoder-promises`. The client is a
promise-returning binding for the Zencoder video-transcoding REST API (version 2). The model
covers the parts of the client that make decisions:

- **Construction** (`Client.Zencoder.New`). The API key is checked and the client's base URL
  and header table are set up.
- **Request preparation** (`Client.Zencoder.PrepareRequest`, specified by `Dispatch.Prepare`).
  Each call changes the client's own header table in place:
  - it merges in the API key;
  - it captures the table as the headers to send;
  - a non-GET call then merges a `Content-Length` header;
  - a GET call deletes `Content-Length` from the table.
- **Response classification** (`Response.Classify`). This decides how the returned promise
  settles, given the transport's answer.
- **The verb wrappers and the sixteen endpoint methods** (`Endpoints.Route`). Each call maps
  to a fixed verb and a concatenated path.

JavaScript values are a small datatype (`Js.JsValue`). This makes the following behave as
they do in JavaScript: `typeof`, truthiness, reading `.length` (including the TypeError on
`null`/`undefined`) and strict comparison.

The model reproduces the client as written, defects included. Each defect is stated as a
proved property:

- The key check's `typeof(typeof key)` test is always `"string"`. Only `key.length !== 32`
  decides, so an array of 32 elements is accepted as a key (`Client.NonStringKeyAccepted`).
- `_.extend({new}, table)` lets existing entries win. The API key and `Content-Length` are
  therefore only ever added, never replaced. A `Content-Length` left by one non-GET call stays
  until the next GET (`Dispatch.ContentLengthHistory`).
- The headers sent with a non-GET call are captured before that call's own `Content-Length`
  is merged. Such a call therefore sends no `Content-Length` or a stale one, never its own
  (`Dispatch.SentContentLength`, `Dispatch.StaleContentLength`).
- `Content-Length` is the unserialised body's `length` property. For a plain job object this
  is `undefined` (`Endpoints.PlainJobLengthUndefined`).
- `resubmitJob`, `cancelJob`, `accountIntegration` and `accountLive` call `put` without a
  body. Reading `body.length` therefore throws before any request is made
  (`Endpoints.BodylessPutsThrow`).
- A 404 rejects with the transport's error argument, which is falsy there
  (`Response.NotFoundRejectsWithNull`).
- Identifiers are not encoded into paths, so different endpoints can produce the same request
  (`Endpoints.IdentifiersAreNotEncoded`).

Where the source's own comments and tests suggest a different intent, the model follows the
code:

- The key is documented as a `String` (lib/zencoder-promises.js:19-20) and tested only with
  strings (test/index.test.js:50), but the code never checks that it is one.
- A 404 is commented as "bad endpoint" (lib/zencoder-promises.js:87), but it is rejected with
  the null error value rather than with an error describing it.

Files: `js.dfy` (JavaScript values), `dispatch.dfy` (request preparation and call histories),
`response.dfy` (classification), `endpoints.dfy` (wrappers and endpoint table) and
`client.dfy` (the client class).

## Model

| member | source | states |
|---|---|---|
| `Js.TypeOf` | lib/zencoder-promises.js:27 | `typeof` yields `"string"` exactly for strings, so `typeof(typeof k)` is always `"string"` |
| `Js.Truthy` | lib/zencoder-promises.js:83 | `if (error)` fails exactly for `undefined`, `null`, `false`, `0` and `""`; every other value is truthy |
| `Js.LengthOf` | lib/zencoder-promises.js:73 | reading `.length` throws a TypeError exactly for `null`/`undefined`; string and array lengths are non-negative |
| `Client.KeyCheck` | lib/zencoder-promises.js:27-31 | the key is accepted exactly when its `length` is the number 32; otherwise the hash error, or a TypeError for `null`/`undefined` |
| `Client.StringKeyCheck` | lib/zencoder-promises.js:27-31 | a string key is accepted iff it has 32 characters, and is otherwise refused with `'API Key must be a valid hash!'` |
| `Client.NonStringKeyAccepted` | lib/zencoder-promises.js:27 | the string test is vacuous: any 32-element array is accepted as a key |
| `Client.Zencoder.constructor` | lib/zencoder-promises.js:23-42 | stores the key, the base URL `https://app.zencoder.com/api/v2` and exactly the three base headers; no call has been made yet |
| `Client.Zencoder.New` | lib/zencoder-promises.js:23-42 | throws exactly when the key check fails, and with its error; otherwise a fresh valid client with the key, base URL and base headers |
| `Dispatch.BaseHeaders` | lib/zencoder-promises.js:35-39 | the initial table has exactly `Content-Type`, `User-Agent` and `Accept`, and neither the key nor `Content-Length` |
| `Dispatch.Extend` | lib/zencoder-promises.js:62-64 | `_.extend({name: v}, t)` has `t`'s keys plus `name`; every entry of `t` keeps its value; `v` is used only when `name` was absent |
| `Dispatch.Prepare` | lib/zencoder-promises.js:59-80 | the key is added once and never replaced; other headers are unchanged; GET deletes `Content-Length` from the table and the sent headers and attaches no body; non-GET adds `Content-Length` only when absent, from the unserialised body's length, and sends the table as it was before that merge; a non-GET without a body throws after the key merge; the URI is base URL + path |
| `Dispatch.Replay` | lib/zencoder-promises.js:62-80 | across any sequence of calls, the key header holds the first value it ever had, no header other than `Content-Length` is removed or replaced, and no header other than the key and `Content-Length` is ever added |
| `Dispatch.ReplayAppend` | lib/zencoder-promises.js:59-80 | replaying one more call is one more `_request` applied to the table the earlier calls left |
| `Dispatch.KeyPersists` | lib/zencoder-promises.js:62-64 | after any non-empty history on a fresh client, the table holds the client's key and the three base headers unchanged |
| `Dispatch.LastGet` | lib/zencoder-promises.js:78-80 | locates the last GET of a history: no GET follows it |
| `Dispatch.FirstSetter` | lib/zencoder-promises.js:71-74 | locates the first call from a position on that merges `Content-Length`: none comes before it |
| `Dispatch.FirstSetterAppend` | lib/zencoder-promises.js:71-74 | appending a call changes the first `Content-Length`-merging call only if there was none before |
| `Dispatch.StickyLengthStep` | lib/zencoder-promises.js:71-80 | one more call: a GET clears the remembered length; a non-GET keeps an existing one, or supplies its body length |
| `Dispatch.ContentLengthHistory` | lib/zencoder-promises.js:71-80 | after any history, `Content-Length` in the table is the body length of the first non-GET call with a body after the last GET (or an initial value if no GET was made), and is absent otherwise |
| `Dispatch.SentContentLength` | lib/zencoder-promises.js:66-74 | a non-GET call with a body sends the `Content-Length` an earlier call left, never its own |
| `Dispatch.StaleContentLength` | lib/zencoder-promises.js:66-74 | on a fresh client the first POST sends no `Content-Length`; a second POST sends the first one's body length |
| `Client.Zencoder.PrepareRequest` | lib/zencoder-promises.js:59-80 | the imperative `_request` preparation changes the header table and returns options exactly as `Prepare` says; it appends the call to the history and keeps the key and base headers in place |
| `Client.Zencoder.Send` | lib/zencoder-promises.js:59-111 | a whole `_request`: either it throws synchronously with the preparation's exception, or it sends the prepared options and settles as `Classify` decides for the transport's answer |
| `Response.Classify` | lib/zencoder-promises.js:82-109 | first match wins: a truthy transport error rejects with it; 404 rejects with the falsy error; 200/201 resolves with the parsed body, or rejects with the parse exception; anything else rejects with `'Unknown Error!'` |
| `Response.ParseOnlyOnSuccess` | lib/zencoder-promises.js:92-101 | the body is parsed only for 200/201 without a transport error; otherwise the parser does not affect the settlement |
| `Response.NotFoundRejectsWithNull` | lib/zencoder-promises.js:88-90 | a 404 with a null transport error rejects with null whatever the body |
| `Endpoints.Get` | lib/zencoder-promises.js:121-123 | `get` sends GET with the given path and no body |
| `Endpoints.Put` | lib/zencoder-promises.js:133-135 | `put` sends PUT with the given path and forwards the body unchanged |
| `Endpoints.Post` | lib/zencoder-promises.js:145-147 | `post` sends POST with the given path and forwards the body unchanged |
| `Endpoints.Route` | lib/zencoder-promises.js:154-216 | every endpoint uses GET, PUT or POST; it uses GET exactly for the ten query endpoints and PUT exactly for the four bodiless ones; every path starts with `/`; only `createJob` and `createAccount` carry a body |
| `Endpoints.ConcatCancel` | lib/zencoder-promises.js:162-192 | the same prefix and suffix around two identifiers give the same path only when the identifiers are equal |
| `Endpoints.RouteDeterminesArguments` | lib/zencoder-promises.js:154-212 | within one endpoint method, the request determines the arguments (except the dropped `options`) |
| `Endpoints.OptionsAreDropped` | lib/zencoder-promises.js:194-216 | `listNotifications`, `minutesReport` and `createAccount` give the same request whatever their `options` |
| `Endpoints.IdentifiersAreNotEncoded` | lib/zencoder-promises.js:162-176 | `jobDetails('1/progress')` and `jobProgress('1')` produce the same request |
| `Endpoints.BodylessPutsThrow` | lib/zencoder-promises.js:166-172 | `resubmitJob`, `cancelJob`, `accountIntegration` and `accountLive` always throw the `length`-of-undefined TypeError, after the key merge |
| `Endpoints.PlainJobLengthUndefined` | lib/zencoder-promises.js:158-160 | `createJob` with a plain object stores `Content-Length: undefined`, sends no `Content-Length`, and attaches the job as body |
| `Client.Zencoder.Invoke` | lib/zencoder-promises.js:154-216 | calling an endpoint method is `_request` on its route; the four bodiless PUTs always throw; a sent request goes to base URL + path with the endpoint's verb |

## Left out

- The HTTP call through `request(...)` (lib/zencoder-promises.js:82) is network I/O. Its answer (error argument, status code, body text) is an input to `Client.Zencoder.Send`.
- `JSON.parse` is a function-typed parameter standing for the parser. `JSON.stringify` is kept symbolic: `Options.body` holds the value whose JSON text is sent.
- The `node-promise` machinery is not modelled. The promise's single settlement is the value `Response.Classify` returns. The second argument of `promise.reject(error, true)` has no modelled effect.
- Concurrent in-flight calls racing on the shared header table are not modelled. Calls are a sequence of method invocations on one object (`history`).
- The unused imports (`fs`, `url`, `https`, `querystring`) and `noop` are not modelled.
- The test file's network-dependent integration test is not modelled.
- Function and symbol values are not modelled. A function's `length` is its number of parameters, so a function declaring 32 parameters would also pass the key check.
- JavaScript numbers are modelled as integers (no fractions, NaN or infinities).
- A string's `length` is its number of characters, not of UTF-16 code units.
- Header insertion order is not modelled: the table is a map.
- Endpoint identifiers are the text that `'/jobs/' + id` produces. The conversion of non-string identifiers to text is not modelled.
- The TypeError message follows one engine's wording; the wording varies between engines.
- The case where the transport reports no error and gives no response is not modelled.
