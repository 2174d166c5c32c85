/** Values shared by the mock-request middleware: requests, stored mocks, the mock table
    and the result of handling one request. */
module MockData {

  datatype Option<+T> = None | Some(value: T)

  /** The response code a mock is stored with. The middleware stores the raw text of the
      `mock-response` request header when there is one, and the number 200 otherwise;
      it never parses the text. */
  datatype ResponseCode = HeaderText(text: string) | Number(code: int)

  /** Response headers of a mock. A value is `None` where JavaScript would hold
      `undefined` (the copied `content-type` of a request that had none). */
  type Headers = map<string, Option<string>>

  /** One registered mock: what a matching request is answered with. */
  datatype Entry = Entry(body: string, responseCode: ResponseCode, headers: Headers)

  /** A slot of the mock table is addressed by (HTTP method, path). */
  type Key = (string, string)

  /** The mock table. A key that was never written and a key whose slot was reset
      (set to `null` in the source) both mean "no mock". */
  type Table = map<Key, Option<Entry>>

  /** A request's header object, as the list of (name, value) assignments that built it,
      in order. Names are as the HTTP server delivers them (Node.js lower-cases them). A
      JavaScript object keeps one value per name, the last one assigned. */
  type HeaderList = seq<(string, string)>

  /** An incoming request; `chunks` are the body's data events, in order, up to its end. */
  datatype Request = Request(verb: string, url: string, headers: HeaderList, chunks: seq<string>)

  /** What the middleware does with a request: answer it itself, or call `next`. */
  datatype Outcome = Respond(code: ResponseCode, headers: Headers, body: string) | Next

  /** The entry in a slot, if there is one. */
  function Lookup(t: Table, k: Key): Option<Entry>
  {
    if k in t then t[k] else None
  }

  /** `req.headers[name]`: the value last assigned to `name`, if any. */
  function HeaderValue(hs: HeaderList, name: string): (r: Option<string>)
    ensures r.Some? <==> exists i :: 0 <= i < |hs| && hs[i].0 == name
    ensures r.Some? ==> exists i :: 0 <= i < |hs| && hs[i] == (name, r.value) &&
                                    forall j :: i < j < |hs| ==> hs[j].0 != name
    decreases |hs|
  {
    if hs == [] then None
    else if hs[|hs| - 1].0 == name then Some(hs[|hs| - 1].1)
    else HeaderValue(hs[..|hs| - 1], name)
  }
}
