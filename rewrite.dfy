/**
 * The string work of the proxy: singleJoiningSlash, the URL rewrite done by
 * director, and the cache key.
 */
module Rewrite {
  import opened Http

  predicate HasSlashSuffix(s: string)
  {
    |s| > 0 && s[|s| - 1] == '/'
  }

  predicate HasSlashPrefix(s: string)
  {
    |s| > 0 && s[0] == '/'
  }

  /** `s` without its one trailing '/', if it has one. */
  function TrimSlashSuffix(s: string): string
  {
    if HasSlashSuffix(s) then s[..|s| - 1] else s
  }

  /** `s` without its one leading '/', if it has one. */
  function TrimSlashPrefix(s: string): string
  {
    if HasSlashPrefix(s) then s[1..] else s
  }

  /**
   * singleJoiningSlash: the backend path `a` followed by the request path
   * `b` with exactly one '/' at the join, whichever of them brought it.
   */
  function SingleJoiningSlash(a: string, b: string): (r: string)
    ensures a <= r
    ensures r == TrimSlashSuffix(a) + "/" + TrimSlashPrefix(b)
    ensures HasSlashSuffix(a) && HasSlashPrefix(b) ==> |r| == |a| + |b| - 1
    ensures !HasSlashSuffix(a) && !HasSlashPrefix(b) ==> |r| == |a| + |b| + 1
    ensures HasSlashSuffix(a) != HasSlashPrefix(b) ==> |r| == |a| + |b|
  {
    var aslash, bslash := HasSlashSuffix(a), HasSlashPrefix(b);
    if aslash && bslash then
      a + b[1..]
    else if !aslash && !bslash then
      a + "/" + b
    else
      a + b
  }

  /** The pieces of a raw query between '&' separators; the empty query has one empty piece. */
  function Pieces(s: string): (ps: seq<string>)
    ensures |ps| >= 1
  {
    if s == [] then [""]
    else
      var rest := Pieces(s[1..]);
      if s[0] == '&' then [""] + rest
      else [[s[0]] + rest[0]] + rest[1..]
  }

  /** The '&'-separated parameters of a raw query: none for the empty query. */
  function Params(s: string): seq<string>
  {
    if s == "" then [] else Pieces(s)
  }

  lemma {:induction false} PiecesAroundSeparator(t: string, q: string)
    ensures Pieces(t + "&" + q) == Pieces(t) + Pieces(q)
  {
    if t == [] {
      assert t + "&" + q == "&" + q;
      assert ("&" + q)[1..] == q;
    } else {
      assert (t + "&" + q)[1..] == t[1..] + "&" + q;
      PiecesAroundSeparator(t[1..], q);
    }
  }

  /**
   * The query director sends: the backend's raw query and the request's,
   * separated by '&' only when both are non-empty.
   */
  function JoinQuery(target: string, query: string): (r: string)
    ensures target <= r && |query| <= |r| && r[|r| - |query|..] == query
    ensures |r| == |target| + |query| + (if target != "" && query != "" then 1 else 0)
    ensures target != "" && query != "" ==> r[|target|] == '&'
    ensures Params(r) == Params(target) + Params(query)
  {
    if target == "" then
      assert target + query == query;
      target + query
    else if query == "" then
      assert target + query == target;
      target + query
    else
      PiecesAroundSeparator(target, query);
      target + "&" + query
  }

  /**
   * director: the outbound URL gets the backend's scheme and host, the
   * backend path joined to the request path, and both queries.
   */
  function Director(u: Url, backend: Url): (r: Url)
    ensures r.scheme == backend.scheme && r.host == backend.host
    ensures backend.path <= r.path
    ensures r.path == TrimSlashSuffix(backend.path) + "/" + TrimSlashPrefix(u.path)
    ensures Params(r.rawQuery) == Params(backend.rawQuery) + Params(u.rawQuery)
  {
    u.(scheme := backend.scheme,
       host := backend.host,
       path := SingleJoiningSlash(backend.path, u.path),
       rawQuery := JoinQuery(backend.rawQuery, u.rawQuery))
  }

  /** strings.Join. */
  function Join(parts: seq<string>, sep: string): (r: string)
    ensures |parts| == 0 ==> r == ""
    ensures |parts| == 1 ==> r == parts[0]
    ensures |parts| > 0 ==> parts[0] <= r
  {
    if |parts| == 0 then ""
    else if |parts| == 1 then parts[0]
    else parts[0] + sep + Join(parts[1..], sep)
  }

  /** cacheKey, given the method, the Host and URL.String() of the request. */
  function CacheKeyOf(httpMethod: string, host: string, url: string): (key: string)
    ensures key == "caching:" + httpMethod + ":" + host + ":" + url
  {
    var last := [host, url];
    assert last[1..] == [url];
    var tail := [httpMethod] + last;
    assert tail[1..] == last;
    var parts := ["caching"] + tail;
    assert parts[1..] == tail;
    assert Join(last, ":") == host + ":" + url;
    assert Join(tail, ":") == httpMethod + ":" + (host + ":" + url);
    assert Join(parts, ":") == "caching" + ":" + (httpMethod + ":" + (host + ":" + url));
    Join(parts, ":")
  }

  /** cacheKey(req): "caching:<method>:<host>:<url>". */
  function CacheKey(req: Request): (key: string)
    ensures key == "caching:" + req.httpMethod + ":" + req.host + ":" + UrlString(req.url)
  {
    CacheKeyOf(req.httpMethod, req.host, UrlString(req.url))
  }

  /** The position of the first `c` in `s`. */
  function IndexOf(s: string, c: char): (i: nat)
    requires c in s
    ensures i < |s| && s[i] == c && c !in s[..i]
  {
    if s[0] == c then 0 else 1 + IndexOf(s[1..], c)
  }

  lemma {:induction false} IndexOfAfter(x: string, y: string, c: char)
    requires c !in x
    ensures IndexOf(x + [c] + y, c) == |x|
  {
    if x != [] {
      assert (x + [c] + y)[1..] == x[1..] + [c] + y;
      IndexOfAfter(x[1..], y, c);
    }
  }

  /** Cutting at the first `c` recovers both sides. */
  lemma CutAtFirst(x: string, y: string, x': string, y': string, c: char)
    requires x + [c] + y == x' + [c] + y'
    requires c !in x && c !in x'
    ensures x == x' && y == y'
  {
    var s := x + [c] + y;
    IndexOfAfter(x, y, c);
    IndexOfAfter(x', y', c);
    assert x == s[..|x|] == x';
    assert y == s[|x| + 1..] == y';
  }

  /**
   * A request as a server receives it: a method token (never a ':'), a
   * Host with no '/', and a URL in origin form, starting with '/'.
   */
  predicate OriginForm(httpMethod: string, host: string, url: string)
  {
    ':' !in httpMethod && '/' !in host && |url| > 0 && url[0] == '/'
  }

  lemma KeyAfterPrefix(m: string, h: string, u: string)
    ensures CacheKeyOf(m, h, u)[8..] == m + [':'] + (h + [':'] + u)
  {
    var key := CacheKeyOf(m, h, u);
    assert key == "caching:" + (m + [':'] + (h + [':'] + u));
  }

  lemma HostThenUrl(h: string, u: string)
    requires |u| > 0 && u[0] == '/'
    ensures h + [':'] + u == (h + [':']) + ['/'] + u[1..]
  {
    assert u == ['/'] + u[1..];
  }

  /** Distinct requests of that form never share a cache key. */
  lemma CacheKeyInjective(m1: string, h1: string, u1: string, m2: string, h2: string, u2: string)
    requires OriginForm(m1, h1, u1) && OriginForm(m2, h2, u2)
    requires CacheKeyOf(m1, h1, u1) == CacheKeyOf(m2, h2, u2)
    ensures m1 == m2 && h1 == h2 && u1 == u2
  {
    KeyAfterPrefix(m1, h1, u1);
    KeyAfterPrefix(m2, h2, u2);
    CutAtFirst(m1, h1 + [':'] + u1, m2, h2 + [':'] + u2, ':');
    HostThenUrl(h1, u1);
    HostThenUrl(h2, u2);
    assert '/' !in h1 + [':'] && '/' !in h2 + [':'];
    CutAtFirst(h1 + [':'], u1[1..], h2 + [':'], u2[1..], '/');
    assert h1 == (h1 + [':'])[..|h1|];
    assert h2 == (h2 + [':'])[..|h2|];
    assert u1 == [u1[0]] + u1[1..];
    assert u2 == [u2[0]] + u2[1..];
  }
}
