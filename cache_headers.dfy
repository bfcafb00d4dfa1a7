// The Cache-Control middleware (backend/app/middleware/cache_headers.py): successful GET
// responses get a caching policy chosen by path prefix, unless they already carry one.

module CacheHeaders {
  import opened Common
  import opened Text

  const CacheControl := "Cache-Control"

  const CacheablePrefixes := ["/api/v1/analyze/stats", "/api/v1/analyze/dashboard", "/api/v1/analyze/evaluation"]
  const LongCachePrefixes := ["/openapi.json"]

  const ShortPolicy := "public, max-age=30, stale-while-revalidate=60"
  const LongPolicy := "public, max-age=3600, stale-while-revalidate=86400"
  const NoStore := "no-store"

  /** `path.startswith(prefixes)` for a tuple of prefixes. */
  predicate UnderAny(path: string, prefixes: seq<string>)
  {
    exists k :: 0 <= k < |prefixes| && StartsWith(path, prefixes[k])
  }

  function AnyPrefix(path: string, prefixes: seq<string>): (b: bool)
    ensures b <==> UnderAny(path, prefixes)
  {
    if prefixes == [] then false
    else if StartsWith(path, prefixes[0]) then true
    else
      var b := AnyPrefix(path, prefixes[1..]);
      assert UnderAny(path, prefixes[1..]) ==> UnderAny(path, prefixes) by {
        if UnderAny(path, prefixes[1..]) {
          var k :| 0 <= k < |prefixes[1..]| && StartsWith(path, prefixes[1..][k]);
          assert StartsWith(path, prefixes[k + 1]);
        }
      }
      b
  }

  /**
   * The policy the middleware would set, tried in a fixed order: the short-lived analytics
   * prefixes, then the OpenAPI document, then any other API path; None leaves the response
   * alone.
   */
  function Policy(verb: string, status: int, path: string): (p: Option<string>)
    ensures verb != "GET" || status >= 400 ==> p.None?
    ensures verb == "GET" && status < 400 && UnderAny(path, CacheablePrefixes) ==> p == Some(ShortPolicy)
    ensures verb == "GET" && status < 400 && !UnderAny(path, CacheablePrefixes) && UnderAny(path, LongCachePrefixes)
      ==> p == Some(LongPolicy)
    ensures verb == "GET" && status < 400 && !UnderAny(path, CacheablePrefixes) && !UnderAny(path, LongCachePrefixes)
      ==> p == (if StartsWith(path, "/api/") then Some(NoStore) else None)
  {
    if verb != "GET" || status >= 400 then None
    else if AnyPrefix(path, CacheablePrefixes) then Some(ShortPolicy)
    else if AnyPrefix(path, LongCachePrefixes) then Some(LongPolicy)
    else if StartsWith(path, "/api/") then Some(NoStore)
    else None
  }

  /**
   * A response's header map as Starlette keeps it: names are stored lower-cased, so every
   * lookup is case-insensitive. Raw `(name, value)` pairs are read in order and the first
   * value given under a name (in any spelling) is the one a lookup finds.
   */
  predicate LowerKeys(headers: map<string, string>)
  {
    forall k :: k in headers ==> Lower(k) == k
  }

  function HeaderMap(raw: seq<(string, string)>): (h: map<string, string>)
    ensures LowerKeys(h)
    ensures forall i :: 0 <= i < |raw| ==> Lower(raw[i].0) in h
  {
    if raw == [] then map[]
    else
      var rest := HeaderMap(raw[..|raw| - 1]);
      var key := Lower(raw[|raw| - 1].0);
      LowerIdempotent(raw[|raw| - 1].0);
      if key in rest then rest else rest[key := raw[|raw| - 1].1]
  }

  /** `headers.setdefault(name, value)`: the name is looked up and stored lower-cased. */
  function SetDefault(headers: map<string, string>, name: string, value: string): (h: map<string, string>)
    ensures Lower(name) in h
    ensures Lower(name) in headers ==> h == headers
    ensures Lower(name) !in headers ==> h == headers[Lower(name) := value]
    ensures LowerKeys(headers) ==> LowerKeys(h)
  {
    var key := Lower(name);
    LowerIdempotent(name);
    if key in headers then headers else headers[key := value]
  }

  /** The header name the middleware stores, lower-cased as Starlette keeps it. */
  const CacheControlKey := Lower(CacheControl)

  /** Two spellings of one header name set the same entry. */
  lemma SetDefaultIgnoresCase(headers: map<string, string>, a: string, b: string, value: string)
    requires Lower(a) == Lower(b)
    ensures SetDefault(headers, a, value) == SetDefault(headers, b, value)
  {
  }

  /** The headers after the middleware, for the header name it sets. */
  function PolicyHeaders(headers: map<string, string>, name: string, verb: string, status: int, path: string): map<string, string>
  {
    match Policy(verb, status, path)
    case Some(p) => SetDefault(headers, name, p)
    case None => headers
  }

  function WithPolicy(headers: map<string, string>, verb: string, status: int, path: string): map<string, string>
  {
    PolicyHeaders(headers, CacheControl, verb, status, path)
  }

  lemma KeepsExistingNamed(headers: map<string, string>, name: string, verb: string, status: int, path: string)
    ensures Lower(name) in headers ==> PolicyHeaders(headers, name, verb, status, path) == headers
    ensures forall k :: k != Lower(name) && k in headers ==>
      k in PolicyHeaders(headers, name, verb, status, path) && PolicyHeaders(headers, name, verb, status, path)[k] == headers[k]
  {
  }

  /**
   * An existing Cache-Control header, in whatever spelling the handler used, is never
   * overwritten, and no other header changes.
   */
  lemma KeepsExistingHeader(headers: map<string, string>, verb: string, status: int, path: string)
    ensures CacheControlKey in headers ==> WithPolicy(headers, verb, status, path) == headers
    ensures forall name :: name != CacheControlKey && name in headers ==>
      name in WithPolicy(headers, verb, status, path) && WithPolicy(headers, verb, status, path)[name] == headers[name]
  {
    KeepsExistingNamed(headers, CacheControl, verb, status, path);
  }

  /** A raw header named Cache-Control in any letter case keeps its value through the middleware. */
  lemma {:induction false} KeepsHandlerHeader(raw: seq<(string, string)>, i: nat, verb: string, status: int, path: string)
    requires i < |raw| && Lower(raw[i].0) == CacheControlKey
    ensures WithPolicy(HeaderMap(raw), verb, status, path) == HeaderMap(raw)
  {
    assert CacheControlKey in HeaderMap(raw);
    KeepsExistingHeader(HeaderMap(raw), verb, status, path);
  }

  /** Running the middleware twice is running it once. */
  lemma PolicyIdempotent(headers: map<string, string>, verb: string, status: int, path: string)
    ensures WithPolicy(WithPolicy(headers, verb, status, path), verb, status, path) == WithPolicy(headers, verb, status, path)
  {
  }

  /** Every successful GET under /api/ leaves with some Cache-Control header. */
  lemma {:induction false} ApiResponsesCarryPolicy(headers: map<string, string>, path: string, status: int)
    requires StartsWith(path, "/api/") && status < 400
    ensures CacheControlKey in WithPolicy(headers, "GET", status, path)
  {
    var p := Policy("GET", status, path);
    assert p.Some?;
  }

  /** The analytics prefixes lie under /api/, and the short policy wins over no-store there. */
  lemma AnalyticsPrefixWins(path: string)
    requires UnderAny(path, CacheablePrefixes)
    ensures StartsWith(path, "/api/") && Policy("GET", 200, path) == Some(ShortPolicy)
  {
    var k :| 0 <= k < |CacheablePrefixes| && StartsWith(path, CacheablePrefixes[k]);
    assert path[..5] == CacheablePrefixes[k][..5];
  }

  /** A response as the middleware sees it: its status and its mutable, lower-cased header map. */
  class Response {
    const status: int
    var headers: map<string, string>

    /** The handler's raw header pairs, stored under lower-cased names. */
    constructor (status: int, raw: seq<(string, string)>)
      ensures this.status == status && this.headers == HeaderMap(raw)
      ensures LowerKeys(headers)
    {
      this.status := status;
      this.headers := HeaderMap(raw);
    }

    /** `cache_control_middleware`, given the request's method and the URL's path. */
    method ApplyCacheControl(verb: string, path: string)
      modifies this
      ensures headers == WithPolicy(old(headers), verb, status, path)
      ensures LowerKeys(old(headers)) ==> LowerKeys(headers)
    {
      if verb != "GET" || status >= 400 {
        return;
      }
      if AnyPrefix(path, CacheablePrefixes) {
        headers := SetDefault(headers, CacheControl, ShortPolicy);
      } else if AnyPrefix(path, LongCachePrefixes) {
        headers := SetDefault(headers, CacheControl, LongPolicy);
      } else if StartsWith(path, "/api/") {
        headers := SetDefault(headers, CacheControl, NoStore);
      }
    }
  }
}
