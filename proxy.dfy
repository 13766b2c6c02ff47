/**
 * The caching proxy: ServeHTTP classifies the request, looks it up in the
 * store, and either serves the stored response, forwards the request and
 * caches a successful answer, or forwards it without touching the store.
 *
 * Each method of the Proxy class is proved against a function of its
 * inputs and the old state (PassThroughEffects, MissEffects, HitWriter,
 * RequestEffects); ProxyProperties proves what those functions promise.
 */
module Proxy {
  import opened Http
  import opened Headers
  import opened Rewrite
  import opened Store

  /** What the proxy stores: the backend's status line, length, headers and whole body. */
  datatype CachedResponse = CachedResponse(status: string, contentLength: int, headers: Header, body: seq<byte>)

  /**
   * serializeResponse and deserializeResponse. `decode` yields None when the
   * decoder leaves the *CachedResponse nil.
   */
  datatype Codec = Codec(encode: CachedResponse -> seq<byte>, decode: seq<byte> -> Option<CachedResponse>)

  /** What is expected of encoding/json: decoding an encoding gives the value back. */
  ghost predicate RoundTrips(c: Codec)
  {
    forall x :: c.decode(c.encode(x)) == Some(x)
  }

  /** The backend's answer to an outbound request: a transport error or a response. */
  datatype Reply =
    | TransportError
    | Replied(statusCode: int, status: string, contentLength: int, header: Header, body: seq<byte>)

  /** The *http.Response RoundTrip returns; its body is read as a stream. */
  datatype Response = Response(statusCode: int, status: string, contentLength: int, header: Header, body: BodyReader)

  datatype RoundTripResult = Failed | Received(response: Response)

  /** `r` is what the backend's `reply` looks like to the proxy, with the whole body still unread. */
  predicate Delivers(r: RoundTripResult, reply: Reply)
    reads if r.Received? then {r.response.body} else {}
  {
    match r
    case Failed => reply.TransportError?
    case Received(resp) =>
      && reply.Replied?
      && resp.statusCode == reply.statusCode && resp.status == reply.status
      && resp.contentLength == reply.contentLength && resp.header == reply.header
      && resp.body.unread == reply.body
  }

  /** The http.RoundTripper: the backend answers through `backend`; every request sent is logged. */
  class Transport {
    const backend: OutRequest -> Reply
    var sent: seq<OutRequest>

    constructor (backend: OutRequest -> Reply)
      ensures this.backend == backend && sent == []
    {
      this.backend := backend;
      sent := [];
    }

    method RoundTrip(out: OutRequest) returns (r: RoundTripResult)
      modifies this
      ensures sent == old(sent) + [out]
      ensures Delivers(r, backend(out))
      ensures r.Received? ==> fresh(r.response.body)
    {
      sent := sent + [out];
      var reply := backend(out);
      if reply.TransportError? {
        r := Failed;
      } else {
        var body := new BodyReader(reply.body);
        r := Received(Response(reply.statusCode, reply.status, reply.contentLength, reply.header, body));
      }
    }
  }

  /** GET, HEAD and OPTIONS go through the cache; every other method is passed through. */
  predicate Cacheable(httpMethod: string)
  {
    httpMethod == "GET" || httpMethod == "HEAD" || httpMethod == "OPTIONS"
  }

  predicate BodylessMethod(httpMethod: string)
  {
    httpMethod == "HEAD" || httpMethod == "OPTIONS"
  }

  predicate Success(code: int)
  {
    200 <= code < 300
  }

  /** The client sent both conditional headers, which the proxy takes to mean it holds a copy. */
  predicate ClientHasCopy(req: Request)
  {
    HeaderGet(req.header, IfModifiedSince) != "" && HeaderGet(req.header, IfNoneMatch) != ""
  }

  /**
   * The header proxy() sends: the inbound header itself unless it has a
   * Connection header, in which case a filtered copy without Connection;
   * then X-Forwarded-For set to the client's address when it is known.
   */
  function OutboundHeader(req: Request): Header
  {
    var h :=
      if HeaderGet(req.header, "Connection") != "" then
        HeaderDel(AddAll(map[], req.header, true), "Connection")
      else
        req.header;
    match req.clientIp
    case Some(ip) => HeaderSet(h, "X-Forwarded-For", ip)
    case None => h
  }

  /** The request proxy() sends to `backend` for `req`. */
  function Outbound(req: Request, backend: Url): OutRequest
  {
    OutRequest(req.httpMethod, req.host, Director(req.url, backend), "HTTP/1.1", 1, 1, false, OutboundHeader(req))
  }

  /** NewCachedResponse applied to a response that has not been read yet. */
  function Captured(reply: Reply): CachedResponse
    requires reply.Replied?
  {
    CachedResponse(reply.status, reply.contentLength, reply.header, reply.body)
  }

  /** What one request does: the client's response, the store calls in order, the requests sent to the backend. */
  datatype Effects = Effects(writer: WriterState, calls: seq<StoreCall>, sent: seq<OutRequest>)

  /** ServeHTTP's branch for methods that are not cached. */
  function PassThroughEffects(backend: Url, reply: OutRequest -> Reply, req: Request, w: WriterState): Effects
  {
    var out := Outbound(req, backend);
    match reply(out)
    case TransportError => Effects(w.WriteHeader(500), [], [out])
    case Replied(_, _, _, header, body) => Effects(w.(header := AddAll(w.header, header, false)).CopyFrom(body), [], [out])
  }

  /** serveFromCache: the stored headers, the X-Cache marker, then the stored body. */
  function HitWriter(codec: Codec, blob: seq<byte>, w: WriterState): WriterState
  {
    match codec.decode(blob)
    case None => w.(aborted := true)
    case Some(c) => w.(header := HeaderAdd(AddAll(w.header, c.headers, false), "X-Cache", "GoProxy")).Write(c.body)
  }

  /** What proxyAndCache writes to the client once the backend has replied. */
  function MissWriter(req: Request, reply: Reply, w: WriterState): WriterState
    requires reply.Replied?
  {
    var w1 := w.(header := AddAll(w.header, reply.header, false));
    if Success(reply.statusCode) then
      if BodylessMethod(req.httpMethod) then
        w1.Write([]).Write(reply.body)
      else if ClientHasCopy(req) then
        w1.WriteHeader(304).Write([])
      else
        w1.WriteHeader(reply.statusCode).Write(reply.body)
    else
      // the body was drained by NewCachedResponse: io.Copy finds nothing left
      w1.WriteHeader(reply.statusCode).CopyFrom([])
  }

  /** proxyAndCache: forward, answer the client, and cache a 2xx response under `key`. */
  function MissEffects(backend: Url, reply: OutRequest -> Reply, codec: Codec, key: string, req: Request, w: WriterState): Effects
  {
    var out := Outbound(req, backend);
    var r := reply(out);
    if r.TransportError? then
      Effects(w.WriteHeader(500), [], [out])
    else
      Effects(MissWriter(req, r, w), if Success(r.statusCode) then [SetCall(key, codec.encode(Captured(r)))] else [], [out])
  }

  /** ServeHTTP. */
  function RequestEffects(backend: Url, reply: OutRequest -> Reply, codec: Codec,
                          data: map<string, seq<byte>>, req: Request, w: WriterState): Effects
  {
    if Cacheable(req.httpMethod) then
      var key := CacheKey(req);
      if key in data then
        Effects(HitWriter(codec, data[key], w), [GetCall(key)], [])
      else
        var e := MissEffects(backend, reply, codec, key, req, w);
        e.(calls := [GetCall(key)] + e.calls)
    else
      PassThroughEffects(backend, reply, req, w)
  }

  class Proxy {
    const backends: seq<Url>
    const store: MapStore
    const transport: Transport
    const codec: Codec

    constructor (backends: seq<Url>, store: MapStore, transport: Transport, codec: Codec)
      requires |backends| > 0
      ensures this.backends == backends && this.store == store && this.transport == transport && this.codec == codec
    {
      this.backends, this.store, this.transport, this.codec := backends, store, transport, codec;
    }

    /**
     * The first half of proxy(): copy the request, let director rewrite its
     * URL, force HTTP/1.1 with a persistent connection, drop the Connection
     * header (through a filtered copy) and set X-Forwarded-For.
     */
    static method OutboundRequest(req: Request, backend: Url) returns (out: OutRequest)
      ensures out == Outbound(req, backend)
    {
      var header := req.header;
      if HeaderGet(req.header, "Connection") != "" {
        header := CopyHeaderForBackend(map[], req.header);
        header := HeaderDel(header, "Connection");
      }
      if req.clientIp.Some? {
        header := HeaderSet(header, "X-Forwarded-For", req.clientIp.value);
      }
      out := OutRequest(req.httpMethod, req.host, Director(req.url, backend), "HTTP/1.1", 1, 1, false, header);
    }

    /** proxy(): send the rewritten request to the first backend. */
    method Forward(req: Request) returns (r: RoundTripResult)
      requires |backends| > 0
      modifies transport
      ensures transport.sent == old(transport.sent) + [Outbound(req, backends[0])]
      ensures Delivers(r, transport.backend(Outbound(req, backends[0])))
      ensures r.Received? ==> fresh(r.response.body)
    {
      var out := OutboundRequest(req, backends[0]);
      r := transport.RoundTrip(out);
    }

    /** NewCachedResponse: read the whole body, leaving nothing behind for a later copy. */
    static method NewCachedResponse(resp: Response) returns (c: CachedResponse)
      modifies resp.body
      ensures c == CachedResponse(resp.status, resp.contentLength, resp.header, old(resp.body.unread))
      ensures resp.body.unread == []
    {
      var body := resp.body.ReadAll();
      c := CachedResponse(resp.status, resp.contentLength, resp.header, body);
    }

    /** cache: encode the captured response and Set it under `key`. */
    method Cache(key: string, c: CachedResponse)
      modifies store
      ensures store.data == old(store.data)[key := codec.encode(c)]
      ensures store.log == old(store.log) + [SetCall(key, codec.encode(c))]
    {
      var encoded := codec.encode(c);
      store.Set(key, encoded);
    }

    method ServeFromCache(data: seq<byte>, rw: ResponseWriter)
      modifies rw
      ensures rw.State() == HitWriter(codec, data, old(rw.State()))
    {
      var decoded := codec.decode(data);
      if decoded.None? {
        // reading Headers through the nil *CachedResponse panics
        rw.Abort();
        return;
      }
      var c := decoded.value;
      var header := CopyHeaderForFrontend(rw.header, c.headers);
      rw.SetHeader(HeaderAdd(header, "X-Cache", "GoProxy"));
      rw.Write(c.body);
    }

    method ProxyAndCache(key: string, rw: ResponseWriter, req: Request)
      requires |backends| > 0
      modifies rw, store, transport
      ensures var e := MissEffects(backends[0], transport.backend, codec, key, req, old(rw.State()));
              && rw.State() == e.writer
              && store.log == old(store.log) + e.calls
              && store.data == Replay(old(store.data), e.calls)
              && transport.sent == old(transport.sent) + e.sent
    {
      ghost var reply := transport.backend(Outbound(req, backends[0]));
      ghost var w0, data0 := rw.State(), store.data;
      ghost var goal := MissEffects(backends[0], transport.backend, codec, key, req, w0);
      var r := Forward(req);
      if r.Failed? {
        assert goal.writer == w0.WriteHeader(500) && goal.calls == [];
        rw.WriteHeader(500);
        return;
      }
      var resp := r.response;
      var cached := NewCachedResponse(resp);
      var header := CopyHeaderForFrontend(rw.header, resp.header);
      rw.SetHeader(header);
      assert rw.State() == w0.(header := AddAll(w0.header, reply.header, false));
      assert goal.writer == MissWriter(req, reply, w0);
      var body := cached.body;
      if Success(resp.statusCode) {
        if req.httpMethod == "HEAD" || req.httpMethod == "OPTIONS" {
          rw.Write([]);
        } else if HeaderGet(req.header, IfModifiedSince) != "" && HeaderGet(req.header, IfNoneMatch) != "" {
          rw.WriteHeader(304);
          body := [];
        } else {
          rw.WriteHeader(resp.statusCode);
        }
        rw.Write(body);
        assert rw.State() == goal.writer;
        assert cached == Captured(reply);
        assert goal.calls == [SetCall(key, codec.encode(cached))];
        Cache(key, cached);
        ReplayOneSet(data0, key, codec.encode(cached));
      } else {
        assert goal.calls == [];
        rw.WriteHeader(resp.statusCode);
        resp.body.CopyTo(rw);
      }
    }

    method ServeHTTP(rw: ResponseWriter, req: Request)
      requires |backends| > 0
      modifies rw, store, transport
      ensures var e := RequestEffects(backends[0], transport.backend, codec, old(store.data), req, old(rw.State()));
              && rw.State() == e.writer
              && store.log == old(store.log) + e.calls
              && store.data == Replay(old(store.data), e.calls)
              && transport.sent == old(transport.sent) + e.sent
    {
      ghost var data0, log0, w0 := store.data, store.log, rw.State();
      ghost var goal := RequestEffects(backends[0], transport.backend, codec, data0, req, w0);
      if req.httpMethod == "GET" || req.httpMethod == "HEAD" || req.httpMethod == "OPTIONS" {
        var key := CacheKey(req);
        var found := store.Get(key);
        if found.Some? {
          assert goal == Effects(HitWriter(codec, data0[key], w0), [GetCall(key)], []);
          ServeFromCache(found.value, rw);
          ReplayLookup(data0, key);
        } else {
          ghost var e := MissEffects(backends[0], transport.backend, codec, key, req, w0);
          assert goal == e.(calls := [GetCall(key)] + e.calls);
          ProxyAndCache(key, rw, req);
          ReplayAfterLookup(data0, key, e.calls);
          LogAfterLookup(log0, key, e.calls);
        }
      } else {
        assert goal == PassThroughEffects(backends[0], transport.backend, req, w0);
        var r := Forward(req);
        if r.Failed? {
          rw.WriteHeader(500);
          return;
        }
        var header := CopyHeaderForFrontend(rw.header, r.response.header);
        rw.SetHeader(header);
        r.response.body.CopyTo(rw);
      }
    }
  }
}
