/**
 * The pieces of net/http that the proxy touches: header multimaps, URLs,
 * inbound and outbound requests, the response writer and a response body
 * that can be read once.
 */
module Http {

  newtype byte = b: int | 0 <= b < 256

  datatype Option<T> = None | Some(value: T)

  /** An http.Header: each (canonical) name maps to its values, in order. */
  type Header = map<string, seq<string>>

  /** All values stored under `k`; a missing name has none. */
  function Values(h: Header, k: string): (vs: seq<string>)
    ensures k !in h ==> vs == []
  {
    if k in h then h[k] else []
  }

  /** Header.Get: the first value under `k`, or "" when there is none. */
  function HeaderGet(h: Header, k: string): (v: string)
    ensures |Values(h, k)| > 0 ==> v == Values(h, k)[0]
    ensures Values(h, k) == [] ==> v == ""
  {
    if k in h && |h[k]| > 0 then h[k][0] else ""
  }

  /** Header.Add: append `v` to the values of `k`, creating `k` when absent. */
  function HeaderAdd(h: Header, k: string, v: string): (r: Header)
    ensures r.Keys == h.Keys + {k}
    ensures Values(r, k) == Values(h, k) + [v]
    ensures forall j :: j != k ==> Values(r, j) == Values(h, j)
  {
    h[k := Values(h, k) + [v]]
  }

  /** Header.Set: replace every value of `k` by the single value `v`. */
  function HeaderSet(h: Header, k: string, v: string): (r: Header)
    ensures r.Keys == h.Keys + {k}
    ensures Values(r, k) == [v]
    ensures forall j :: j != k ==> Values(r, j) == Values(h, j)
  {
    h[k := [v]]
  }

  /** Header.Del: remove `k` and all its values. */
  function HeaderDel(h: Header, k: string): (r: Header)
    ensures r.Keys == h.Keys - {k}
    ensures Values(r, k) == []
    ensures forall j :: j != k ==> Values(r, j) == Values(h, j)
  {
    h - {k}
  }

  /** The fields of a url.URL that the proxy reads or rewrites. */
  datatype Url = Url(scheme: string, host: string, path: string, rawQuery: string)

  /**
   * URL.String() restricted to the fields above: "scheme:" when there is a
   * scheme, "//host" when there is an authority, a '/' in front of a relative
   * path under a host, the path, and "?query" when the query is non-empty.
   */
  function UrlString(u: Url): (s: string)
    ensures u.scheme == "" && u.host == "" && |u.path| > 0 && u.path[0] == '/' ==> |s| > 0 && s[0] == '/'
    ensures u.scheme != "" ==> u.scheme + ":" <= s
    ensures var tail := u.path + (if u.rawQuery != "" then "?" + u.rawQuery else "");
            |tail| <= |s| && s[|s| - |tail|..] == tail
    ensures u.scheme == "" && u.host == "" ==>
              s == u.path + (if u.rawQuery != "" then "?" + u.rawQuery else "")
  {
    (if u.scheme != "" then u.scheme + ":" else "")
    + (if (u.scheme != "" || u.host != "") && (u.host != "" || u.path != "") then "//" + u.host else "")
    + (if u.path != "" && u.path[0] != '/' && u.host != "" then "/" else "")
    + u.path
    + (if u.rawQuery != "" then "?" + u.rawQuery else "")
  }

  /**
   * An inbound request. `clientIp` is the host part of RemoteAddr when
   * net.SplitHostPort accepts it, and None when it does not.
   */
  datatype Request = Request(httpMethod: string, host: string, url: Url, header: Header, clientIp: Option<string>)

  /** The request the proxy sends to the backend. */
  datatype OutRequest = OutRequest(
    httpMethod: string, host: string, url: Url,
    proto: string, protoMajor: int, protoMinor: int, close: bool,
    header: Header)

  /**
   * What the client will receive: the header map, the status line (200
   * until WriteHeader is first called), the body written so far, and
   * whether the handler panicked, in which case net/http drops the
   * connection without a response.
   */
  datatype WriterState = WriterState(header: Header, status: int, wroteHeader: bool, body: seq<byte>, aborted: bool)
  {
    /** http.ResponseWriter.WriteHeader: only the first call takes effect. */
    function WriteHeader(code: int): (w: WriterState)
      ensures w.wroteHeader && w.header == header && w.body == body && w.aborted == aborted
      ensures w.status == (if wroteHeader then status else code)
    {
      if wroteHeader then this else this.(status := code, wroteHeader := true)
    }

    /** http.ResponseWriter.Write: sends status 200 first if no status was sent. */
    function Write(data: seq<byte>): (w: WriterState)
      ensures w.wroteHeader && w.header == header && w.aborted == aborted
      ensures w.status == (if wroteHeader then status else 200)
      ensures w.body == body + data
    {
      WriteHeader(200).(body := body + data)
    }

    /** io.Copy into the writer: a source with nothing left never calls Write. */
    function CopyFrom(data: seq<byte>): (w: WriterState)
      ensures w.header == header && w.aborted == aborted && w.body == body + data
      ensures data == [] ==> w == this
      ensures data != [] ==> w.wroteHeader && w.status == (if wroteHeader then status else 200)
    {
      if data == [] then this else Write(data)
    }
  }

  /** The state of a writer nothing has been done to yet. */
  const FreshWriter := WriterState(map[], 200, false, [], false)

  /** The http.ResponseWriter handed to the proxy for one request. */
  class ResponseWriter {
    var header: Header
    var status: int
    var wroteHeader: bool
    var body: seq<byte>
    var aborted: bool

    function State(): WriterState
      reads this
    {
      WriterState(header, status, wroteHeader, body, aborted)
    }

    constructor ()
      ensures State() == FreshWriter
    {
      header, status, wroteHeader, body, aborted := map[], 200, false, [], false;
    }

    method SetHeader(h: Header)
      modifies this
      ensures State() == old(State()).(header := h)
    {
      header := h;
    }

    method WriteHeader(code: int)
      modifies this
      ensures State() == old(State()).WriteHeader(code)
    {
      if !wroteHeader {
        status, wroteHeader := code, true;
      }
    }

    method Write(data: seq<byte>)
      modifies this
      ensures State() == old(State()).Write(data)
    {
      WriteHeader(200);
      body := body + data;
    }

    /** The handler panicked before anything was sent. */
    method Abort()
      modifies this
      ensures State() == old(State()).(aborted := true)
    {
      aborted := true;
    }
  }

  /** A response body: a stream of bytes that reading consumes. */
  class BodyReader {
    var unread: seq<byte>

    constructor (data: seq<byte>)
      ensures unread == data
    {
      unread := data;
    }

    /** ioutil.ReadAll: everything left, after which nothing is left. */
    method ReadAll() returns (data: seq<byte>)
      modifies this
      ensures data == old(unread) && unread == []
    {
      data := unread;
      unread := [];
    }

    /** io.Copy(rw, body): whatever is left goes to the writer. */
    method CopyTo(rw: ResponseWriter)
      modifies this, rw
      ensures rw.State() == old(rw.State()).CopyFrom(old(unread)) && unread == []
    {
      var data := ReadAll();
      if data != [] {
        rw.Write(data);
      }
    }
  }
}
