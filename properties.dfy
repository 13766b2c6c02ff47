/**
 * What one request through the proxy does, stated over RequestEffects (the
 * function ServeHTTP is proved to follow) for a writer nothing has been done
 * to yet.
 */
module ProxyProperties {
  import opened Http
  import opened Headers
  import opened Rewrite
  import opened Store
  import opened Proxy

  /** A request whose key is found in the store. */
  predicate IsHit(data: map<string, seq<byte>>, req: Request)
  {
    Cacheable(req.httpMethod) && CacheKey(req) in data
  }

  /** A cacheable request whose key is not in the store. */
  predicate IsMiss(data: map<string, seq<byte>>, req: Request)
  {
    Cacheable(req.httpMethod) && CacheKey(req) !in data
  }

  /** A method other than GET, HEAD and OPTIONS never reaches the store; only the backend is called. */
  lemma PassThroughSkipsStore(backend: Url, reply: OutRequest -> Reply, codec: Codec,
                              data: map<string, seq<byte>>, req: Request, w: WriterState)
    requires !Cacheable(req.httpMethod)
    ensures RequestEffects(backend, reply, codec, data, req, w).calls == []
    ensures RequestEffects(backend, reply, codec, data, req, w).sent == [Outbound(req, backend)]
  {
  }

  /**
   * The pass-through path copies headers and body but never calls
   * WriteHeader, so the client sees the writer's default 200 whatever the
   * backend answered.
   */
  lemma PassThroughLosesStatus(backend: Url, reply: OutRequest -> Reply, codec: Codec,
                               data: map<string, seq<byte>>, req: Request)
    requires !Cacheable(req.httpMethod) && reply(Outbound(req, backend)).Replied?
    ensures var e := RequestEffects(backend, reply, codec, data, req, FreshWriter);
            var r := reply(Outbound(req, backend));
            && e.writer.status == 200
            && e.writer.body == r.body
            && e.writer.header == AddAll(map[], r.header, false)
  {
  }

  /**
   * The store is written at most once, exactly when a cacheable request
   * misses and the backend answers 2xx, and then under the request's key
   * with the encoding of the whole captured response.
   */
  lemma StoreWrittenOnlyOnSuccessfulMiss(backend: Url, reply: OutRequest -> Reply, codec: Codec,
                                         data: map<string, seq<byte>>, req: Request, w: WriterState)
    ensures var e := RequestEffects(backend, reply, codec, data, req, w);
            var r := reply(Outbound(req, backend));
            && |Writes(e.calls)| <= 1
            && (Writes(e.calls) != [] <==> IsMiss(data, req) && r.Replied? && Success(r.statusCode))
            && (Writes(e.calls) != [] ==>
                  Writes(e.calls) == [SetCall(CacheKey(req), codec.encode(Captured(r)))]
                  && Replay(data, e.calls) == data[CacheKey(req) := codec.encode(Captured(r))])
            && (Writes(e.calls) == [] ==> Replay(data, e.calls) == data)
  {
    var e := RequestEffects(backend, reply, codec, data, req, w);
    var r := reply(Outbound(req, backend));
    var key := CacheKey(req);
    if IsMiss(data, req) {
      if r.Replied? && Success(r.statusCode) {
        var write := SetCall(key, codec.encode(Captured(r)));
        assert e.calls == [GetCall(key), write];
        ReplayLookupThenSet(data, key, key, codec.encode(Captured(r)));
      } else {
        assert e.calls == [GetCall(key)];
        ReplayLookup(data, key);
      }
    } else if IsHit(data, req) {
      assert e.calls == [GetCall(key)];
      ReplayLookup(data, key);
    }
  }

  /** A transport error on any path that reaches the backend gives the client 500 and an empty body, and caches nothing. */
  lemma TransportErrorGives500(backend: Url, reply: OutRequest -> Reply, codec: Codec,
                               data: map<string, seq<byte>>, req: Request)
    requires !IsHit(data, req) && reply(Outbound(req, backend)).TransportError?
    ensures var e := RequestEffects(backend, reply, codec, data, req, FreshWriter);
            && e.writer.status == 500 && e.writer.body == [] && !e.writer.aborted
            && e.sent == [Outbound(req, backend)]
            && Writes(e.calls) == []
  {
    var e := RequestEffects(backend, reply, codec, data, req, FreshWriter);
    if IsMiss(data, req) {
      assert e.calls == [GetCall(CacheKey(req))];
    }
  }

  /**
   * A 2xx miss of a GET (or any cacheable method but HEAD and OPTIONS)
   * carrying both conditional headers answers 304 with no body, while the
   * store still receives the backend's whole body.
   */
  lemma BothConditionalsGive304(backend: Url, reply: OutRequest -> Reply, codec: Codec,
                                data: map<string, seq<byte>>, req: Request)
    requires IsMiss(data, req) && !BodylessMethod(req.httpMethod) && ClientHasCopy(req)
    requires reply(Outbound(req, backend)).Replied? && Success(reply(Outbound(req, backend)).statusCode)
    ensures var e := RequestEffects(backend, reply, codec, data, req, FreshWriter);
            var r := reply(Outbound(req, backend));
            && e.writer.status == 304 && e.writer.body == []
            && Writes(e.calls) == [SetCall(CacheKey(req), codec.encode(Captured(r)))]
            && Captured(r).body == r.body
  {
    StoreWrittenOnlyOnSuccessfulMiss(backend, reply, codec, data, req, FreshWriter);
  }

  /** Without both conditional headers, a 2xx miss of such a method relays the backend's status and body. */
  lemma SuccessfulMissRelays(backend: Url, reply: OutRequest -> Reply, codec: Codec,
                             data: map<string, seq<byte>>, req: Request)
    requires IsMiss(data, req) && !BodylessMethod(req.httpMethod) && !ClientHasCopy(req)
    requires reply(Outbound(req, backend)).Replied? && Success(reply(Outbound(req, backend)).statusCode)
    ensures var e := RequestEffects(backend, reply, codec, data, req, FreshWriter);
            var r := reply(Outbound(req, backend));
            && e.writer.status == r.statusCode && e.writer.body == r.body
            && e.writer.header == AddAll(map[], r.header, false)
  {
  }

  /** A single conditional header is not enough to get 304. */
  lemma OneConditionalIsNotEnough(backend: Url, reply: OutRequest -> Reply, codec: Codec,
                                  data: map<string, seq<byte>>, req: Request)
    requires IsMiss(data, req) && !BodylessMethod(req.httpMethod)
    requires HeaderGet(req.header, IfModifiedSince) == "" || HeaderGet(req.header, IfNoneMatch) == ""
    requires reply(Outbound(req, backend)).Replied? && Success(reply(Outbound(req, backend)).statusCode)
    ensures RequestEffects(backend, reply, codec, data, req, FreshWriter).writer.status
         == reply(Outbound(req, backend)).statusCode
  {
    SuccessfulMissRelays(backend, reply, codec, data, req);
  }

  /**
   * A 2xx miss of HEAD or OPTIONS never writes the backend's status (the
   * client sees 200), and after the empty write the captured body is
   * written as well.
   */
  lemma BodylessMissKeepsDefaultStatus(backend: Url, reply: OutRequest -> Reply, codec: Codec,
                                       data: map<string, seq<byte>>, req: Request)
    requires IsMiss(data, req) && BodylessMethod(req.httpMethod)
    requires reply(Outbound(req, backend)).Replied? && Success(reply(Outbound(req, backend)).statusCode)
    ensures var e := RequestEffects(backend, reply, codec, data, req, FreshWriter);
            && e.writer.status == 200
            && e.writer.body == reply(Outbound(req, backend)).body
  {
  }

  /**
   * A non-2xx miss relays the backend's status but no body, since the body
   * was already drained into the captured response; nothing is cached.
   */
  lemma FailedMissLosesBody(backend: Url, reply: OutRequest -> Reply, codec: Codec,
                            data: map<string, seq<byte>>, req: Request)
    requires IsMiss(data, req)
    requires reply(Outbound(req, backend)).Replied? && !Success(reply(Outbound(req, backend)).statusCode)
    ensures var e := RequestEffects(backend, reply, codec, data, req, FreshWriter);
            && e.writer.status == reply(Outbound(req, backend)).statusCode
            && e.writer.body == []
            && e.calls == [GetCall(CacheKey(req))]
  {
  }

  /**
   * A hit never calls the backend: the client gets the decoded headers,
   * the X-Cache marker after them, the decoded body and the default 200.
   */
  lemma HitServesStoredResponse(backend: Url, reply: OutRequest -> Reply, codec: Codec,
                                data: map<string, seq<byte>>, req: Request)
    requires IsHit(data, req) && codec.decode(data[CacheKey(req)]).Some?
    ensures var e := RequestEffects(backend, reply, codec, data, req, FreshWriter);
            var c := codec.decode(data[CacheKey(req)]).value;
            && e.sent == [] && e.calls == [GetCall(CacheKey(req))]
            && e.writer.status == 200 && e.writer.body == c.body
            && Values(e.writer.header, "X-Cache") == Values(c.headers, "X-Cache") + ["GoProxy"]
            && (forall k :: k != "X-Cache" ==> Values(e.writer.header, k) == Values(c.headers, k))
  {
    var c := codec.decode(data[CacheKey(req)]).value;
    forall k ensures Values(AddAll(map[], c.headers, false), k) == Values(c.headers, k) {
      FrontendCopyAppends(map[], c.headers, k);
    }
  }

  /** A stored entry that does not decode makes the handler panic: the client gets no response at all. */
  lemma UndecodableHitAborts(backend: Url, reply: OutRequest -> Reply, codec: Codec,
                             data: map<string, seq<byte>>, req: Request)
    requires IsHit(data, req) && codec.decode(data[CacheKey(req)]).None?
    ensures var e := RequestEffects(backend, reply, codec, data, req, FreshWriter);
            && e.writer.aborted && e.writer.body == [] && e.sent == []
  {
  }

  /**
   * Cache then hit: when encoding round-trips, a GET that missed and got a
   * 2xx answer is, the second time, served from the store with no backend
   * call and the same body the backend gave the first time, even when the
   * first answer was a bodyless 304.
   */
  lemma SecondRequestHits(backend: Url, reply: OutRequest -> Reply, codec: Codec,
                          data: map<string, seq<byte>>, req: Request)
    requires RoundTrips(codec)
    requires IsMiss(data, req)
    requires reply(Outbound(req, backend)).Replied? && Success(reply(Outbound(req, backend)).statusCode)
    ensures var first := RequestEffects(backend, reply, codec, data, req, FreshWriter);
            var second := RequestEffects(backend, reply, codec, Replay(data, first.calls), req, FreshWriter);
            && second.sent == []
            && second.writer.body == reply(Outbound(req, backend)).body
            && second.writer.status == 200
  {
    var first := RequestEffects(backend, reply, codec, data, req, FreshWriter);
    var r := reply(Outbound(req, backend));
    StoreWrittenOnlyOnSuccessfulMiss(backend, reply, codec, data, req, FreshWriter);
    var data2 := Replay(data, first.calls);
    assert data2[CacheKey(req)] == codec.encode(Captured(r));
    assert codec.decode(codec.encode(Captured(r))) == Some(Captured(r));
  }

  /**
   * With a Connection header, the backend gets a filtered copy: no
   * Connection, no conditional headers, every other value kept.
   */
  lemma ConnectionHeaderFiltersOutbound(req: Request, k: string)
    requires HeaderGet(req.header, "Connection") != ""
    ensures "Connection" !in OutboundHeader(req)
    ensures IfModifiedSince !in OutboundHeader(req) && IfNoneMatch !in OutboundHeader(req)
    ensures k != "Connection" && Kept(k, true) && k != "X-Forwarded-For" ==>
              Values(OutboundHeader(req), k) == Values(req.header, k)
  {
    BackendCopyHasNoConditionals(req.header);
    BackendCopyFilters(map[], req.header, k);
  }

  /**
   * Without a Connection header the inbound header goes out as it is,
   * conditional headers included: only X-Forwarded-For may change.
   */
  lemma NoConnectionHeaderForwardsConditionals(req: Request, k: string)
    requires HeaderGet(req.header, "Connection") == ""
    requires k != "X-Forwarded-For"
    ensures Values(OutboundHeader(req), k) == Values(req.header, k)
  {
  }

  /** X-Forwarded-For is replaced by the client's address when it is known, and left alone otherwise. */
  lemma ForwardedForIsClientAddress(req: Request)
    ensures req.clientIp.Some? ==> Values(OutboundHeader(req), "X-Forwarded-For") == [req.clientIp.value]
    ensures req.clientIp.None? && HeaderGet(req.header, "Connection") == "" ==>
              OutboundHeader(req) == req.header
  {
  }

  /** The outbound request keeps method and Host, goes to the backend, and always asks for HTTP/1.1 keep-alive. */
  lemma OutboundRequestShape(req: Request, backend: Url)
    ensures var out := Outbound(req, backend);
            && out.httpMethod == req.httpMethod && out.host == req.host
            && out.url.scheme == backend.scheme && out.url.host == backend.host
            && backend.path <= out.url.path
            && Params(out.url.rawQuery) == Params(backend.rawQuery) + Params(req.url.rawQuery)
            && out.proto == "HTTP/1.1" && out.protoMajor == 1 && out.protoMinor == 1 && !out.close
  {
  }
}
