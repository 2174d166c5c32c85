/** The middleware closure returned by `mockRequests`, as an object that owns the mock
    table and handles one request at a time. */
module Middleware {
  import opened MockData
  import opened Routing
  import opened MockSpec

  /** The `data` handler's `body += data`, run over the data events up to `end`. */
  method AccumulateBody(chunks: seq<string>) returns (body: string)
    ensures body == Concat(chunks)
  {
    body := "";
    for i := 0 to |chunks|
      invariant body == Concat(chunks[..i])
    {
      assert chunks[..i + 1][..i] == chunks[..i];
      body := body + chunks[i];
    }
    assert chunks[..|chunks|] == chunks;
  }

  /** The header object of a registered mock: `Content-Type` first, then the `_.each`
      loop that copies every `mock-header-X` request header as `X`. */
  method BuildResponseHeaders(hs: HeaderList) returns (headers: Headers)
    ensures headers == ResponseHeaders(hs)
  {
    var base := map["Content-Type" := HeaderValue(hs, "content-type")];
    headers := base;
    for i := 0 to |hs|
      invariant headers == CopyMockHeaders(base, hs[..i])
    {
      assert hs[..i + 1][..i] == hs[..i];
      var (key, value) := hs[i];
      if MockHeaderPrefix <= key {
        var name := Substring(key, 12);
        if name != ProtoKey {
          headers := headers[name := Some(value)];
        }
      }
    }
    assert hs[..|hs|] == hs;
  }

  /** The table `mocks`, a free variable of the closure: one table shared by every
      middleware that `mockRequests` returns. */
  class MockStore {
    /** `mocks[method][path]`, flattened to one map keyed by (method, path). */
    var table: Table

    /** The table starts with no mocks. */
    constructor ()
      ensures table == map[]
    {
      table := map[];
    }
  }

  /** The closure `function (req, res, next)` returned by `mockRequests`. It holds no table
      of its own: it reads and writes the shared `store`. */
  class MockMiddleware {
    const store: MockStore

    /** `mockRequests(options)`: a new closure over the shared table, which it leaves as it is. */
    constructor (shared: MockStore)
      ensures store == shared
      ensures store.table == old(shared.table)
    {
      store := shared;
    }

    /** The entry in slot (verb, path), if there is one. */
    function Mocked(verb: string, path: string): Option<Entry>
      reads store
    {
      Lookup(store.table, (verb, path))
    }

    /** A POST to "/mock…": overwrite the slot of the `mock-method` (or GET) and the URL
        without its first 5 characters with the request's body, code and headers. */
    method Register(req: Request) returns (out: Outcome)
      modifies store
      ensures store.table == old(store.table)[RegistrationKey(req) := Some(NewEntry(req))]
      ensures Mocked(RegistrationKey(req).0, RegistrationKey(req).1) == Some(NewEntry(req))
      ensures forall v, p :: (v, p) != RegistrationKey(req) ==> Mocked(v, p) == old(Mocked(v, p))
      ensures out == Acknowledge
    {
      var path := Substring(req.url, 5);
      var body := AccumulateBody(req.chunks);
      var headers := BuildResponseHeaders(req.headers);
      var verb := HeaderOr(req.headers, "mock-method", "GET");
      store.table := store.table[(verb, path) := Some(Entry(body, StoredCode(req.headers), headers))];
      out := Respond(Number(200), map[], "");
    }

    /** A request to "/reset…": null the slot of the `mock-method` (or GET) and the URL
        without its first 6 characters. */
    method Reset(req: Request) returns (out: Outcome)
      modifies store
      ensures store.table == old(store.table)[ResetKey(req) := None]
      ensures Mocked(ResetKey(req).0, ResetKey(req).1) == None
      ensures forall v, p :: (v, p) != ResetKey(req) ==> Mocked(v, p) == old(Mocked(v, p))
      ensures out == Acknowledge
    {
      store.table := store.table[(HeaderOr(req.headers, "mock-method", "GET"), Substring(req.url, 6)) := None];
      out := Respond(Number(200), map[], "");
    }

    /** A request to "/api…": answer from slot (request method, URL) if it holds an entry,
        otherwise call `next`. Nothing is changed. */
    method Serve(verb: string, url: string) returns (out: Outcome)
      ensures Mocked(verb, url).Some? ==>
                out == Respond(Mocked(verb, url).value.responseCode, Mocked(verb, url).value.headers, Mocked(verb, url).value.body)
      ensures Mocked(verb, url).None? ==> out == Next
    {
      var mocked := Lookup(store.table, (verb, url));
      if mocked.Some? {
        out := Respond(mocked.value.responseCode, mocked.value.headers, mocked.value.body);
      } else {
        out := Next;
      }
    }

    /** The middleware itself: dispatch on method and URL prefix, in the source's order. */
    method Handle(req: Request) returns (out: Outcome)
      modifies store
      ensures After(store.table, out) == Step(old(store.table), req)
    {
      if req.verb == "POST" && RegisterPrefix <= req.url {
        out := Register(req);
      } else if ResetPrefix <= req.url {
        out := Reset(req);
      } else if ApiPrefix <= req.url {
        out := Serve(req.verb, req.url);
      } else {
        out := Next;
      }
    }
  }

  /** The repository's GET scenario, replayed against the method contracts alone: with no
      mocks GET / passes through; after a JSON body is registered at "/mock/api", GET /api is
      answered with it, and GET /something, PUT /api and POST /api pass through. */
  method GetScenario(data: string) returns (before: Outcome, got: Outcome, other: Outcome, put: Outcome, post: Outcome)
    ensures before == Next
    ensures got == Respond(Number(200), map["Content-Type" := Some("application/json")], data)
    ensures other == Next && put == Next && post == Next
  {
    var store := new MockStore();
    var m := new MockMiddleware(store);
    before := m.Handle(Request("GET", "/", [], []));
    assert !(ResetPrefix <= "/") && !(ApiPrefix <= "/");

    var hs := [("content-type", "application/json")];
    var reg := Request("POST", "/mock/api", hs, [data]);
    assert RegisterPrefix <= reg.url;
    var ack := m.Handle(reg);
    assert store.table == map[("GET", "/api") := Some(NewEntry(reg))];
    assert Concat([data]) == data by { assert [data][..0] == []; assert Concat([data]) == Concat([]) + data; }
    assert ResponseHeaders(hs) == map["Content-Type" := Some("application/json")] by {
      assert !(MockHeaderPrefix <= "content-type") by { assert "content-type"[0] != MockHeaderPrefix[0]; }
      assert hs[..0] == [];
    }

    assert ApiPrefix <= "/api";
    got := m.Handle(Request("GET", "/api", [], []));
    other := m.Handle(Request("GET", "/something", [], []));
    assert ResetPrefix[1] != "/something"[1] && ApiPrefix[1] != "/something"[1];
    put := m.Handle(Request("PUT", "/api", [], []));
    post := m.Handle(Request("POST", "/api", [], []));
    assert !(RegisterPrefix <= "/api");
  }

  /** Two middlewares built by `mockRequests` share the table: a mock registered through
      one is served through the other. */
  method SharedTableScenario(data: string) returns (got: Outcome)
    ensures got.Respond? && got.body == data
  {
    var store := new MockStore();
    var first := new MockMiddleware(store);
    var second := new MockMiddleware(store);
    var reg := Request("POST", "/mock/api", [], [data]);
    assert RegisterPrefix <= reg.url;
    var ack := first.Handle(reg);
    assert Concat([data]) == data by { assert [data][..0] == []; assert Concat([data]) == Concat([]) + data; }
    assert ApiPrefix <= "/api";
    got := second.Handle(Request("GET", "/api", [], []));
  }
}
