/** The pure parts of the middleware: which branch a request takes, the slot it names,
    and the entry a registration stores. */
module Routing {
  import opened MockData

  const RegisterPrefix := "/mock"
  const ResetPrefix := "/reset"
  const ApiPrefix := "/api"
  const MockHeaderPrefix := "mock-header-"

  /** Assigning a string to `obj['__proto__']` on an object literal runs the prototype
      setter of `Object.prototype`, which ignores a non-object: no own key is created. */
  const ProtoKey := "__proto__"

  /** The four branches of the middleware, in the order it tests them. */
  datatype Route = Registration | Reset | ServeAttempt | Passthrough

  /** `url.indexOf(p) === 0` is a prefix test; Dafny's `p <= url` on sequences is exactly that. */
  function Classify(verb: string, url: string): Route
  {
    if verb == "POST" && RegisterPrefix <= url then Registration
    else if ResetPrefix <= url then Reset
    else if ApiPrefix <= url then ServeAttempt
    else Passthrough
  }

  /** JavaScript's one-argument `s.substring(start)` for a non-negative start: the
      characters from `start` on, or the empty string when `start` is past the end. */
  function Substring(s: string, start: nat): (r: string)
    ensures start <= |s| ==> s[..start] + r == s
    ensures start > |s| ==> r == ""
  {
    if start <= |s| then s[start..] else ""
  }

  /** The path a registration writes: the URL without its first 5 characters. */
  function RegistrationPath(url: string): string
  {
    Substring(url, 5)
  }

  /** The path a reset clears: the URL without its first 6 characters. */
  function ResetPath(url: string): string
  {
    Substring(url, 6)
  }

  /** JavaScript's `h[name] || fallback` on a header: an absent header and an empty one
      (both falsy) give the fallback. */
  function HeaderOr(hs: HeaderList, name: string, fallback: string): string
  {
    match HeaderValue(hs, name)
    case Some(v) => if v != "" then v else fallback
    case None => fallback
  }

  /** The method of the slot a registration or a reset addresses. */
  function SlotMethod(hs: HeaderList): string
  {
    HeaderOr(hs, "mock-method", "GET")
  }

  /** The response code a registration stores: the raw `mock-response` text, else 200. */
  function StoredCode(hs: HeaderList): ResponseCode
  {
    match HeaderValue(hs, "mock-response")
    case Some(v) => if v != "" then HeaderText(v) else Number(200)
    case None => Number(200)
  }

  /** The `_.each` loop over the request headers: starting from `base`, every
      `mock-header-X` header is written as `X`, in the order of the assignments; the
      assignment `headers['__proto__'] = value` leaves the object's keys as they are. */
  function CopyMockHeaders(base: Headers, hs: HeaderList): Headers
    decreases |hs|
  {
    if hs == [] then base
    else
      var r := CopyMockHeaders(base, hs[..|hs| - 1]);
      var (k, v) := hs[|hs| - 1];
      var x := Substring(k, |MockHeaderPrefix|);
      if MockHeaderPrefix <= k && x != ProtoKey then r[x := Some(v)] else r
  }

  /** The response headers of a registered entry: `Content-Type` copied from the request's
      `content-type` (possibly undefined), then every `mock-header-X` header written over it. */
  function ResponseHeaders(hs: HeaderList): Headers
  {
    CopyMockHeaders(map["Content-Type" := HeaderValue(hs, "content-type")], hs)
  }

  /** The body of a request: its data chunks joined in arrival order. */
  function Concat(chunks: seq<string>): string
  {
    if chunks == [] then "" else Concat(chunks[..|chunks| - 1]) + chunks[|chunks| - 1]
  }

  /** The entry a registration request stores. */
  function NewEntry(req: Request): Entry
  {
    Entry(Concat(req.chunks), StoredCode(req.headers), ResponseHeaders(req.headers))
  }

  // ---------------------------------------------------------------------------
  // Properties of the pure parts

  /** Routing priority. The three URL prefixes exclude one another, so the route is fixed
      by the URL's prefix alone, except that only a POST to "/mock…" registers. */
  lemma RoutingPriority(verb: string, url: string)
    ensures Classify(verb, url) == Registration <==> verb == "POST" && RegisterPrefix <= url
    ensures Classify(verb, url) == Reset <==> ResetPrefix <= url
    ensures Classify(verb, url) == ServeAttempt <==> ApiPrefix <= url
    ensures Classify(verb, url) == Passthrough <==>
              !(ResetPrefix <= url) && !(ApiPrefix <= url) && (RegisterPrefix <= url ==> verb != "POST")
  {
    if ResetPrefix <= url {
      assert url[1] == 'r';
      assert !(RegisterPrefix <= url) by { assert RegisterPrefix[1] == 'm'; }
    }
    if ApiPrefix <= url {
      assert url[1] == 'a';
      assert !(RegisterPrefix <= url) by { assert RegisterPrefix[1] == 'm'; }
      assert !(ResetPrefix <= url) by { assert ResetPrefix[1] == 'r'; }
    }
  }

  /** Registration target: a registration URL is "/mock" followed by the path it writes. */
  lemma RegistrationTarget(url: string)
    ensures RegisterPrefix <= url ==> RegisterPrefix + RegistrationPath(url) == url
    ensures RegistrationPath(RegisterPrefix + url) == url
  {
    assert (RegisterPrefix + url)[..5] == RegisterPrefix;
  }

  /** Reset target: a reset URL is "/reset" followed by the path it clears. */
  lemma ResetTarget(url: string)
    ensures ResetPrefix <= url ==> ResetPrefix + ResetPath(url) == url
    ensures ResetPath(ResetPrefix + url) == url
  {
    assert (ResetPrefix + url)[..6] == ResetPrefix;
  }

  /** Method default: without any `mock-method` header, or when the last one is empty,
      the slot method is "GET"; a non-empty last `mock-method` is the slot method; other
      headers have no say; and the slot method is never empty. */
  lemma SlotDefaults(hs: HeaderList, m: string, other: (string, string))
    ensures (forall i | 0 <= i < |hs| :: hs[i].0 != "mock-method") ==> SlotMethod(hs) == "GET"
    ensures m != "" ==> SlotMethod(hs + [("mock-method", m)]) == m
    ensures SlotMethod(hs + [("mock-method", "")]) == "GET"
    ensures other.0 != "mock-method" ==> SlotMethod(hs + [other]) == SlotMethod(hs)
    ensures SlotMethod(hs) != ""
  {
    assert (hs + [other])[..|hs|] == hs;
  }

  /** Status default: without any `mock-response` header, or when the last one is empty,
      the stored code is the number 200; a non-empty last `mock-response` is stored as its
      raw text; other headers have no say; and a stored number is always 200, because the
      text is never parsed. */
  lemma StatusDefaults(hs: HeaderList, c: string, other: (string, string))
    ensures (forall i | 0 <= i < |hs| :: hs[i].0 != "mock-response") ==> StoredCode(hs) == Number(200)
    ensures c != "" ==> StoredCode(hs + [("mock-response", c)]) == HeaderText(c)
    ensures StoredCode(hs + [("mock-response", "")]) == Number(200)
    ensures other.0 != "mock-response" ==> StoredCode(hs + [other]) == StoredCode(hs)
    ensures StoredCode(hs).Number? ==> StoredCode(hs).code == 200
  {
    assert (hs + [other])[..|hs|] == hs;
  }

  /** Two different names give different `mock-header-` names. */
  lemma PrefixedNamesDiffer(x: string, y: string)
    requires x != y
    ensures MockHeaderPrefix + x != MockHeaderPrefix + y
  {
    assert (MockHeaderPrefix + x)[|MockHeaderPrefix|..] == x;
    assert (MockHeaderPrefix + y)[|MockHeaderPrefix|..] == y;
  }

  /** What the header loop produces from any starting map: a name other than `__proto__`
      is present when it was in `base` or some `mock-header-` header forwards it, and a
      forwarded name carries the value last assigned to the forwarding header; every other
      name, `__proto__` included, keeps its presence and value from `base`. */
  lemma {:induction false} CopyMockHeadersContents(base: Headers, hs: HeaderList, name: string)
    ensures var r := CopyMockHeaders(base, hs);
            var forwarded := name != ProtoKey && HeaderValue(hs, MockHeaderPrefix + name).Some?;
            && (name in r <==> name in base || forwarded)
            && (forwarded ==> r[name] == HeaderValue(hs, MockHeaderPrefix + name))
            && (!forwarded && name in base ==> r[name] == base[name])
    decreases |hs|
  {
    if hs != [] {
      var init := hs[..|hs| - 1];
      CopyMockHeadersContents(base, init, name);
      var (k, v) := hs[|hs| - 1];
      if MockHeaderPrefix <= k {
        var x := Substring(k, |MockHeaderPrefix|);
        assert MockHeaderPrefix + x == k;
        if x != name {
          PrefixedNamesDiffer(x, name);
        }
      } else {
        assert MockHeaderPrefix + name != k by {
          assert (MockHeaderPrefix + name)[..|MockHeaderPrefix|] == MockHeaderPrefix;
        }
      }
    }
  }

  /** Header map: the keys are exactly `Content-Type` and `X` for each `mock-header-X`
      request header other than `mock-header-__proto__`; a forwarded header carries the
      request header's value, and `Content-Type`, unless forwarded, carries the request's
      `content-type`. */
  lemma ResponseHeadersContents(hs: HeaderList, name: string)
    ensures name in ResponseHeaders(hs) <==>
              name == "Content-Type" || (name != ProtoKey && HeaderValue(hs, MockHeaderPrefix + name).Some?)
    ensures name != ProtoKey && HeaderValue(hs, MockHeaderPrefix + name).Some? ==>
              ResponseHeaders(hs)[name] == HeaderValue(hs, MockHeaderPrefix + name)
    ensures name == "Content-Type" && HeaderValue(hs, MockHeaderPrefix + name).None? ==>
              ResponseHeaders(hs)[name] == HeaderValue(hs, "content-type")
  {
    CopyMockHeadersContents(map["Content-Type" := HeaderValue(hs, "content-type")], hs, name);
  }

  /** Joining chunks distributes over concatenation of the chunk lists. */
  lemma {:induction false} ConcatAppend(a: seq<string>, b: seq<string>)
    ensures Concat(a + b) == Concat(a) + Concat(b)
    decreases |b|
  {
    if b == [] {
      assert a + b == a;
    } else {
      var b' := b[..|b| - 1];
      assert (a + b)[..|a + b| - 1] == a + b';
      ConcatAppend(a, b');
    }
  }
}
