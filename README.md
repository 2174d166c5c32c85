# mock-rest-request: the request dispatcher and its mock table

`mockRequests(options)` returns an HTTP middleware `(req, res, next)` for test servers.
A test registers a canned response with `POST /mock<path>`. It clears one with
`/reset<path>`. Any later request to `/api…` is answered with the canned response,
matched exactly on (request method, URL), or passed on to `next` when there is none.
Every other request goes to `next`.

This project models that closure (`index.js`). It proves the properties below about:

- which branch a request takes;
- the slot a registration or reset addresses;
- the entry a registration stores;
- how each branch changes the table.

Modules:

- `MockData` (mock_data.dfy) holds the values. A request has a method, URL, header list and body chunks.
  A stored entry has a body, a response code and response headers. The table is a map from
  (method, path) to an optional entry. An outcome is either a response or `next`.
- `Routing` (routing.dfy) holds the pure parts:
  - the prefix classification;
  - JavaScript's one-argument `substring`;
  - the `header || default` choices for the slot method and the response code;
  - the response-header map built by the `_.each` loop;
  - the joining of body chunks.
- `MockSpec` (mock_spec.dfy) gives the middleware as a function `Step` from (table, request) to
  (new table, outcome), and `Run` over a sequence of requests. It holds the lemmas about registration,
  reset, serving and passthrough, and two scenarios taken from the repository's tests.
- `Middleware` (middleware.dfy) holds the imperative parts:
  - class `MockStore`, the table `mocks`, which the closure captures as a free variable;
  - class `MockMiddleware`, the closure itself. It holds a reference to the shared store, so
    every middleware built over one store reads and writes the same table. Its methods are
    `Register`, `Reset`, `Serve` and `Handle`;
  - the loops that accumulate the body (`body += data`) and build the header object.

  Each method is proved against the functions in `Routing` and `MockSpec`. `Handle` is proved
  equal to `Step`.

Modelling decisions:

- **The table.** `mocks` is never declared in `index.js`. It is a free variable of the closure, so
  all middlewares share it. The model takes it as one store, created empty, in which a missing slot
  means "no mock". `mocks[method][path]` becomes one map keyed by the
  pair (method, path). A reset stores `None`, which stands for the source's `null`. Serving treats
  `None` and a missing slot the same way, as the source's truthiness test does.
- **Request headers.** They are the ordered list of (name, value) assignments that built the
  JavaScript header object. A lookup `req.headers[name]` gives the value assigned last. The `_.each`
  loop visits the assignments in order. Node.js lower-cases header names before the middleware sees
  them; the model takes the names as delivered and compares them exactly, as the code does.
- **`a || b`.** It is JavaScript's falsy test. An empty `mock-method` or `mock-response` header
  falls back to "GET" or 200, just like a missing one.
- **Response code.** The stored code is the raw text of `mock-response` when it is non-empty, and
  otherwise the number 200 (`ResponseCode = HeaderText(text) | Number(code)`). `index.js` does no
  numeric parsing, so neither does the model.
- **Content-Type.** A registered entry always has a `Content-Type` key. Its value is `None` when the
  request had no `content-type`, standing for JavaScript's `undefined`. A `mock-header-Content-Type`
  header, which the loop writes later, replaces it.
- **`__proto__`.** The header object is an object literal. Assigning a string to its `__proto__`
  key runs the prototype setter, which ignores the string, so a `mock-header-__proto__` request
  header adds no key. The model skips that name.
- **Prefix tests.** `url.indexOf(p) === 0` is Dafny's sequence-prefix test `p <= url`. The cut
  lengths 5 and 6 are the source's literal constants.

`index.js` keeps one slot per (method, path); a second registration overwrites it. It stores
the raw `mock-response` text. The repository's tests expect behaviour that `index.js` does not
have:

- a mock id returned by registration (test/test.js:102-103);
- `/mock-reset/<id>` and `/mock-reset` (test/test.js:111, test/test.js:147);
- `mock-limit` use counting (test/test.js:185-201);
- `/mock-list` (test/test.js:217-219).

The model follows `index.js`. On the code as written, a `GET /mock-reset` request passes through
to `next`. It starts with "/mock" but is not a POST, and it does not start with "/reset".
`Routing.RoutingPriority` states this case.

## Model

| member | source | states |
|---|---|---|
| `Routing.RoutingPriority` | index.js:13-55 | A request registers iff it is a POST whose URL starts with "/mock". It resets iff the URL starts with "/reset", for any method. It is a serve attempt iff the URL starts with "/api". Otherwise it passes through, and that includes a non-POST "/mock…" request. |
| `Routing.Substring` | index.js:14 | JavaScript `substring(start)`: when `start` is within the string, the dropped prefix followed by the result is the original string; past the end, the result is empty. |
| `Routing.RegistrationTarget` | index.js:14 | A "/mock…" URL is "/mock" followed by the registration path, and "/mock" + p has path p ("/mock/api" gives "/api"). |
| `Routing.ResetTarget` | index.js:41 | A "/reset…" URL is "/reset" followed by the path the reset clears, and "/reset" + p clears p. |
| `Routing.SlotDefaults` | index.js:31 | Over the header list: with no `mock-method` header the slot method is "GET". A last `mock-method` with non-empty value m gives m; an empty one gives "GET". A header with another name does not change it, and it is never empty. |
| `Routing.StatusDefaults` | index.js:33 | Over the header list: with no `mock-response` header the stored code is the number 200. A last `mock-response` with non-empty text c is stored as the text c; an empty one gives 200. A header with another name does not change it. A stored number is always 200, since the text is never parsed. |
| `MockData.HeaderValue` | index.js:23 | `req.headers[name]` is defined exactly when some header assignment has that name. When defined, its value is the one in the last assignment to that name. |
| `Routing.CopyMockHeadersContents` | index.js:25-29 | After the loop over the request headers, starting from any base map: a name other than `__proto__` is present iff it was in the base or a `mock-header-<name>` header exists. A forwarded name carries the value last assigned to that header. Every other name, `__proto__` included, keeps its presence and value from the base. |
| `Routing.ResponseHeadersContents` | index.js:22-29 | A registered entry's header keys are exactly `Content-Type` and X for each `mock-header-X` request header with X other than `__proto__`. X carries that header's value. `Content-Type`, unless forwarded, carries the request's `content-type`. |
| `Routing.ConcatAppend` | index.js:16-19 | In the model, where chunks are already-decoded strings, joining chunks respects concatenation of the chunk sequence. |
| `MockSpec.RegisterOverwrites` | index.js:31-38 | After a registration, the addressed slot holds exactly the new entry (joined body, stored code, built headers). Every other slot is unchanged. The reply is 200 with no headers and an empty body. |
| `MockSpec.RegisterTwiceKeepsLatest` | index.js:31-35 | Two registrations of the same slot leave the same table as the second one alone. |
| `MockSpec.RegisterThenServe` | index.js:31-49 | Registering "/mock" + p for an "/api" path p, then requesting p with the slot's method, answers with the registered code, headers and body, whatever the table held before. |
| `MockSpec.RegisterIsolatesMethods` | index.js:45 | A registration does not change what any other method receives for the same path, so mocking GET /api does not mock PUT or POST /api. |
| `MockSpec.ResetClears` | index.js:40-43 | After a reset, serving the cleared (method, path) yields `next` and every other slot is unchanged. The reply is 200 with an empty body. Repeating the reset changes nothing. |
| `MockSpec.RegisterThenReset` | index.js:41-51 | Register "/mock" + p, reset "/reset" + p with the same headers, then request p: the outcomes are acknowledge, acknowledge, `next`. |
| `MockSpec.ServeReadOnly` | index.js:44-52 | A serve attempt leaves the table unchanged. It answers with exactly the code, headers and body of slot (request method, URL) when that slot holds an entry, and yields `next` otherwise. |
| `MockSpec.PassthroughLeavesTable` | index.js:53-55 | A request outside the three branches yields `next` and leaves the table unchanged. |
| `MockSpec.ServesPreserveTable` | index.js:44-55 | In any run of requests that are neither registrations nor resets, the table never changes. Each request is answered from the table as it was at the start, so repeated serves return the same entry. |
| `MockSpec.EmptyTablePassesThrough` | index.js:44-55 | From an empty table, every run of requests that are neither registrations nor resets yields `next` for each request and leaves the table empty. |
| `MockSpec.StatusOverrideScenario` | test/test.js:61-74 | A JSON body registered with `mock-response: 500` is served for GET /api with the raw code text "500", `Content-Type` `application/json`, and the registered body. |
| `MockSpec.CustomMethodScenario` | test/test.js:165-183 | A mock registered with `mock-method: COPY` answers COPY /api and no other method of /api. |
| `Middleware.AccumulateBody` | index.js:16-19 | The `body += data` loop yields the data chunks joined in order. |
| `Middleware.BuildResponseHeaders` | index.js:22-29 | The header-building loop yields exactly the response-header map described by `ResponseHeadersContents`. |
| `Middleware.MockStore.constructor` | index.js:31 | The table written at `mocks[...][...]` starts with no mocks. |
| `Middleware.MockMiddleware.constructor` | index.js:11-12 | `mockRequests` returns a closure over the shared table. It refers to the given store and leaves the table unchanged. |
| `Middleware.MockMiddleware.Register` | index.js:13-39 | The table becomes the old table with the addressed slot overwritten by the new entry, nothing else changes, and the reply is 200 with an empty body. |
| `Middleware.MockMiddleware.Reset` | index.js:40-43 | The table becomes the old table with the addressed slot nulled, nothing else changes, and the reply is 200 with an empty body. |
| `Middleware.MockMiddleware.Serve` | index.js:44-52 | Without changing anything, answers with the stored code, headers and body of slot (method, URL), or `next` when the slot is empty. |
| `Middleware.MockMiddleware.Handle` | index.js:12-56 | The new shared table and the outcome are exactly those of `Step`, so every lemma about `Step` holds of the middleware. |
| `Middleware.GetScenario` | test/test.js:16-58 | With no mocks, GET / passes through. After a JSON body is registered at "/mock/api", GET /api is answered with code 200, `Content-Type` `application/json` and that body. GET /something, PUT /api and POST /api pass through. |
| `Middleware.SharedTableScenario` | index.js:11-12 | Two middlewares built over the same table share it: a mock registered through one is served through the other. |

## Left out

- Body streaming. The `data`/`end` events are taken as the complete, ordered sequence of chunks. A body whose `end` never arrives is not modelled.
- Routing.ConcatAppend: chunks are taken as already-decoded strings. In the source each `data` event is a Buffer that `body += data` decodes on its own, so a multi-byte character split across two chunks is not preserved; the model does not capture that.
- Atomic registration. The source writes the slot in the `end` handler, so any request handled between a POST's arrival and its `end` still sees the old table. `Step`, `Run`, `MockSpec.RegisterThenServe`, `MockSpec.RegisterThenReset` and `Middleware.MockMiddleware.Register` treat a registration as one atomic step.
- The response object and `next`. `res.writeHead`/`res.write`/`res.end` and the call to `next` become the returned `Outcome` value. Node.js's own handling of the status text and of an undefined header value when writing is not modelled.
- Crashes. `mocks` and lodash's `_` are never declared in `index.js`, and indexing a method that `mocks` has no map for throws. The model assumes one declared, initially empty table, shared by all middlewares, in which every slot may be written or read.
- The unused `options` argument of `mockRequests`.
- Behaviour that only the tests expect. `index.js` has none of: returned mock ids, `/mock-reset` and `/mock-reset/<id>`, `mock-limit` use counting, `/mock-list`.
- The test harness itself (HTTP server, supertest), beyond the scenarios replayed as lemmas.
