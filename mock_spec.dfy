/** The middleware as a function from (mock table, request) to (new table, outcome),
    and the properties of registration, reset and serving stated over it. */
module MockSpec {
  import opened MockData
  import opened Routing

  /** The reply to a registration and to a reset: status 200, no headers, empty body. */
  const Acknowledge: Outcome := Respond(Number(200), map[], "")

  /** The table after one request, and what was done with the request. */
  datatype After = After(table: Table, outcome: Outcome)

  /** The slot a registration writes. */
  function RegistrationKey(req: Request): Key
  {
    (SlotMethod(req.headers), RegistrationPath(req.url))
  }

  /** The slot a reset clears. */
  function ResetKey(req: Request): Key
  {
    (SlotMethod(req.headers), ResetPath(req.url))
  }

  /** Answering from the table: exact match on (request method, full URL). */
  function ServeFrom(t: Table, verb: string, url: string): Outcome
  {
    match Lookup(t, (verb, url))
    case Some(e) => Respond(e.responseCode, e.headers, e.body)
    case None => Next
  }

  /** One request through the middleware. */
  function Step(t: Table, req: Request): After
  {
    match Classify(req.verb, req.url)
    case Registration => After(t[RegistrationKey(req) := Some(NewEntry(req))], Acknowledge)
    case Reset => After(t[ResetKey(req) := None], Acknowledge)
    case ServeAttempt => After(t, ServeFrom(t, req.verb, req.url))
    case Passthrough => After(t, Next)
  }

  /** A sequence of requests, handled one after the other; the outcomes in order. */
  function Run(t: Table, reqs: seq<Request>): (r: (Table, seq<Outcome>))
    ensures |r.1| == |reqs|
    decreases |reqs|
  {
    if reqs == [] then (t, [])
    else
      var first := Step(t, reqs[0]);
      var rest := Run(first.table, reqs[1..]);
      (rest.0, [first.outcome] + rest.1)
  }

  predicate IsControl(req: Request)
  {
    Classify(req.verb, req.url) in {Registration, Reset}
  }

  // ---------------------------------------------------------------------------
  // Registration

  /** Register is an overwrite: the addressed slot now holds exactly the new entry
      (the joined body, the stored code, the built headers), every other slot is as it
      was, and the reply is 200 with an empty body. */
  lemma RegisterOverwrites(t: Table, req: Request)
    requires Classify(req.verb, req.url) == Registration
    ensures Lookup(Step(t, req).table, RegistrationKey(req)) == Some(Entry(Concat(req.chunks), StoredCode(req.headers), ResponseHeaders(req.headers)))
    ensures forall k :: k != RegistrationKey(req) ==> Lookup(Step(t, req).table, k) == Lookup(t, k)
    ensures Step(t, req).outcome == Respond(Number(200), map[], "")
  {
  }

  /** Round trip: registering "/mock" + p and then requesting p with the slot's method
      answers with the registered code, headers and body, whatever was there before. */
  lemma RegisterThenServe(t: Table, p: string, hs: HeaderList, chunks: seq<string>)
    requires ApiPrefix <= p
    ensures var reg := Request("POST", RegisterPrefix + p, hs, chunks);
            var serve := Request(SlotMethod(hs), p, [], []);
            Step(Step(t, reg).table, serve).outcome == Respond(StoredCode(hs), ResponseHeaders(hs), Concat(chunks))
  {
    var reg := Request("POST", RegisterPrefix + p, hs, chunks);
    var serve := Request(SlotMethod(hs), p, [], []);
    RoutingPriority(reg.verb, reg.url);
    RoutingPriority(serve.verb, serve.url);
    RegistrationTarget(p);
    assert RegistrationKey(reg) == (serve.verb, serve.url);
  }

  /** Mocking one method of a path does not mock any other method of it. */
  lemma RegisterIsolatesMethods(t: Table, req: Request, other: string)
    requires Classify(req.verb, req.url) == Registration
    requires other != SlotMethod(req.headers)
    ensures ServeFrom(Step(t, req).table, other, RegistrationPath(req.url)) == ServeFrom(t, other, RegistrationPath(req.url))
  {
  }

  /** Re-registering a slot replaces the earlier entry. */
  lemma RegisterTwiceKeepsLatest(t: Table, first: Request, second: Request)
    requires Classify(first.verb, first.url) == Registration
    requires Classify(second.verb, second.url) == Registration
    requires RegistrationKey(first) == RegistrationKey(second)
    ensures Step(Step(t, first).table, second).table == Step(t, second).table
  {
    var k, e1, e2 := RegistrationKey(second), NewEntry(first), NewEntry(second);
    assert Step(t, first).table == t[k := Some(e1)];
    assert Step(t[k := Some(e1)], second).table == t[k := Some(e1)][k := Some(e2)];
    assert t[k := Some(e1)][k := Some(e2)] == t[k := Some(e2)];
  }

  // ---------------------------------------------------------------------------
  // Reset

  /** Reset clears one slot: serving it afterwards passes through, every other slot is as it
      was, the reply is 200 with an empty body, and a second identical reset changes nothing. */
  lemma ResetClears(t: Table, req: Request)
    requires Classify(req.verb, req.url) == Reset
    ensures ServeFrom(Step(t, req).table, ResetKey(req).0, ResetKey(req).1) == Next
    ensures forall k :: k != ResetKey(req) ==> Lookup(Step(t, req).table, k) == Lookup(t, k)
    ensures Step(t, req).outcome == Respond(Number(200), map[], "")
    ensures Step(Step(t, req).table, req) == Step(t, req)
  {
    assert Step(t, req).table[ResetKey(req) := None] == Step(t, req).table;
  }

  /** Registering "/mock" + p, then resetting "/reset" + p with the same headers, leaves p unmocked. */
  lemma RegisterThenReset(t: Table, p: string, hs: HeaderList, chunks: seq<string>)
    requires ApiPrefix <= p
    ensures var reg := Request("POST", RegisterPrefix + p, hs, chunks);
            var reset := Request("GET", ResetPrefix + p, hs, []);
            var serve := Request(SlotMethod(hs), p, [], []);
            Run(t, [reg, reset, serve]).1 == [Acknowledge, Acknowledge, Next]
  {
    var reg := Request("POST", RegisterPrefix + p, hs, chunks);
    var reset := Request("GET", ResetPrefix + p, hs, []);
    var serve := Request(SlotMethod(hs), p, [], []);
    RoutingPriority(reg.verb, reg.url);
    RoutingPriority(reset.verb, reset.url);
    RoutingPriority(serve.verb, serve.url);
    RegistrationTarget(p);
    ResetTarget(p);
    var t1 := Step(t, reg).table;
    var t2 := Step(t1, reset).table;
    assert ResetKey(reset) == (serve.verb, serve.url);
    assert Step(t2, serve).outcome == Next;
    assert [reset, serve][1..] == [serve];
    assert [reg, reset, serve][1..] == [reset, serve];
    assert Run(t2, [serve]).1 == [Next] by { assert [serve][1..] == []; }
    assert Run(t1, [reset, serve]).1 == [Acknowledge, Next];
  }

  // ---------------------------------------------------------------------------
  // Serving and passthrough

  /** Serving is read-only and exact-match: the table is unchanged, and the outcome is the
      entry of slot (request method, URL) if it holds one, else `next`. */
  lemma ServeReadOnly(t: Table, req: Request)
    requires Classify(req.verb, req.url) == ServeAttempt
    ensures Step(t, req).table == t
    ensures (req.verb, req.url) in t && t[(req.verb, req.url)].Some? ==>
              var e := t[(req.verb, req.url)].value;
              Step(t, req).outcome == Respond(e.responseCode, e.headers, e.body)
    ensures !((req.verb, req.url) in t && t[(req.verb, req.url)].Some?) ==> Step(t, req).outcome == Next
  {
  }

  /** A request outside the three prefixes (or a non-POST "/mock…" request) goes to `next`
      and leaves the table as it is. */
  lemma PassthroughLeavesTable(t: Table, req: Request)
    requires Classify(req.verb, req.url) == Passthrough
    ensures Step(t, req) == After(t, Next)
  {
  }

  /** A run of requests that are neither registrations nor resets never changes the table,
      so each of them is answered from the table as it was before the run: repeated serves
      return the same entry. */
  lemma {:induction false} ServesPreserveTable(t: Table, reqs: seq<Request>)
    requires forall i :: 0 <= i < |reqs| ==> !IsControl(reqs[i])
    ensures Run(t, reqs).0 == t
    ensures forall i :: 0 <= i < |reqs| ==>
              Run(t, reqs).1[i] == (if Classify(reqs[i].verb, reqs[i].url) == ServeAttempt
                                    then ServeFrom(t, reqs[i].verb, reqs[i].url) else Next)
  {
    if reqs != [] {
      assert Step(t, reqs[0]).table == t;
      ServesPreserveTable(t, reqs[1..]);
      forall i | 1 <= i < |reqs| ensures Run(t, reqs).1[i] == Run(t, reqs[1..]).1[i - 1] {
      }
    }
  }

  /** No mocks means passthrough: from an empty table, every run of requests that are neither
      registrations nor resets is passed to `next`, request by request. */
  lemma EmptyTablePassesThrough(reqs: seq<Request>)
    requires forall i :: 0 <= i < |reqs| ==> !IsControl(reqs[i])
    ensures Run(map[], reqs).0 == map[]
    ensures forall i :: 0 <= i < |reqs| ==> Run(map[], reqs).1[i] == Next
  {
    ServesPreserveTable(map[], reqs);
  }

  // ---------------------------------------------------------------------------
  // Scenarios from the repository's tests, replayed on the model

  /** A mock registered with `mock-response: 500` is served with the raw text "500". */
  lemma StatusOverrideScenario(data: string)
    ensures var hs := [("content-type", "application/json"), ("mock-response", "500")];
            var reg := Request("POST", "/mock/api", hs, [data]);
            Run(map[], [reg, Request("GET", "/api", [], [])]).1[1]
              == Respond(HeaderText("500"), map["Content-Type" := Some("application/json")], data)
  {
    var hs := [("content-type", "application/json"), ("mock-response", "500")];
    var reg := Request("POST", "/mock/api", hs, [data]);
    var get := Request("GET", "/api", [], []);
    assert "/mock" <= "/mock/api";
    assert "/api" <= "/api";
    RegisterThenServe(map[], "/api", hs, [data]);
    assert RegisterPrefix + "/api" == "/mock/api";
    assert !(MockHeaderPrefix <= "mock-response") by { assert "mock-response"[5] != MockHeaderPrefix[5]; }
    assert !(MockHeaderPrefix <= "content-type") by { assert "content-type"[0] != MockHeaderPrefix[0]; }
    assert hs[..1] == [("content-type", "application/json")];
    assert hs[..1][..0] == [];
    var base := map["Content-Type" := HeaderValue(hs, "content-type")];
    assert HeaderValue(hs, "content-type") == Some("application/json");
    assert CopyMockHeaders(base, hs[..1]) == base;
    assert CopyMockHeaders(base, hs) == CopyMockHeaders(base, hs[..1]);
    assert [reg, get][1..] == [get];
    assert Concat([data]) == data by { assert [data][..0] == []; }
  }

  /** A mock registered for method COPY answers COPY /api and no other method of /api. */
  lemma CustomMethodScenario(data: string, other: string)
    requires other != "COPY"
    ensures var reg := Request("POST", "/mock/api", [("mock-method", "COPY")], [data]);
            var t := Step(map[], reg).table;
            ServeFrom(t, "COPY", "/api").Respond? && ServeFrom(t, other, "/api") == Next
  {
    var reg := Request("POST", "/mock/api", [("mock-method", "COPY")], [data]);
    assert "/mock" <= "/mock/api";
    assert RegistrationPath("/mock/api") == "/api";
  }
}
