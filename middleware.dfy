/** The request-logging middleware (broadcast/logger.go:103-160, 186-209):
    optional request-body capture, a response writer that tees every write
    into a capture buffer, one call of the next handler, and one record
    handed to the backend per request. */
module Middleware {
  import opened Common
  import opened Levels
  import opened Backend
  import opened RequestFields

  /** A request body as the handler chain sees it: Go's nil `io.ReadCloser`,
      or a stream whose unread bytes are `unread`. */
  datatype Body = NilBody | Stream(unread: seq<byte>)

  /** What `ioutil.ReadAll` yields on a body; a nil body is not read. */
  function Contents(b: Body): (r: seq<byte>)
    ensures b.Stream? ==> r == b.unread
    ensures b.NilBody? ==> r == []
  {
    if b.Stream? then b.unread else []
  }

  /** All bytes of a sequence of writes, in order. */
  function Concat(chunks: seq<seq<byte>>): seq<byte>
  {
    if chunks == [] then [] else chunks[0] + Concat(chunks[1..])
  }

  /** One more write adds its bytes at the end. */
  lemma {:induction false} ConcatSnoc(chunks: seq<seq<byte>>, x: seq<byte>)
    ensures Concat(chunks + [x]) == Concat(chunks) + x
    decreases |chunks|
  {
    if chunks != [] {
      assert (chunks + [x])[1..] == chunks[1..] + [x];
      ConcatSnoc(chunks[1..], x);
    }
  }

  /** The length of all bytes written is the sum of the write lengths. */
  function TotalLength(chunks: seq<seq<byte>>): nat
  {
    if chunks == [] then 0 else |chunks[0]| + TotalLength(chunks[1..])
  }

  lemma {:induction false} ConcatLength(chunks: seq<seq<byte>>)
    ensures |Concat(chunks)| == TotalLength(chunks)
    decreases |chunks|
  {
    if chunks != [] {
      ConcatLength(chunks[1..]);
    }
  }

  /** `*http.Request`, with the parts the middleware reads. The middleware
      may replace `body`; the next handler may add to `header`. */
  class Request {
    var body: Body
    const host: string
    const requestURI: string
    const verb: string      // the request method
    const urlPath: string   // `URL.Path`
    var header: Header

    constructor (body: Body, host: string, requestURI: string, verb: string, urlPath: string, header: Header)
      ensures this.body == body && this.host == host && this.requestURI == requestURI
      ensures this.verb == verb && this.urlPath == urlPath && this.header == header
    {
      this.body := body;
      this.host := host;
      this.requestURI := requestURI;
      this.verb := verb;
      this.urlPath := urlPath;
      this.header := header;
    }
  }

  /** The connection's own `http.ResponseWriter`: what the client has
      received, and the status codes written to it. Writes are taken to
      succeed in full. */
  class ClientWriter {
    var delivered: seq<byte>
    var codes: seq<int>

    constructor ()
      ensures delivered == [] && codes == []
    {
      delivered := [];
      codes := [];
    }

    method Write(b: seq<byte>) returns (n: int)
      modifies this
      ensures delivered == old(delivered) + b && codes == old(codes) && n == |b|
    {
      delivered := delivered + b;
      n := |b|;
    }

    method WriteHeader(code: int)
      modifies this
      ensures codes == old(codes) + [code] && delivered == old(delivered)
    {
      codes := codes + [code];
    }
  }

  /** The in-memory capture buffer (`resBody`, a `bytes.Buffer`). */
  class Capture {
    var bytes: seq<byte>

    constructor ()
      ensures bytes == []
    {
      bytes := [];
    }

    method Write(b: seq<byte>) returns (n: int)
      modifies this
      ensures bytes == old(bytes) + b && n == |b|
    {
      bytes := bytes + b;
      n := |b|;
    }
  }

  /** `bodyDumpResponseWriter` (broadcast/logger.go:198-209): status codes
      go to the wrapped writer; bytes go through `io.MultiWriter` to the
      wrapped writer first and then to the capture buffer. */
  class BodyDumpResponseWriter {
    const out: ClientWriter
    const capture: Capture

    constructor (out: ClientWriter, capture: Capture)
      ensures this.out == out && this.capture == capture
    {
      this.out := out;
      this.capture := capture;
    }

    /** `WriteHeader`: forwarded unchanged; nothing is captured. */
    method WriteHeader(code: int)
      modifies out
      ensures out.codes == old(out.codes) + [code] && out.delivered == old(out.delivered)
    {
      out.WriteHeader(code);
    }

    /** `Write`: the same bytes reach the client and the capture buffer. */
    method Write(b: seq<byte>) returns (n: int, err: Option<Error>)
      modifies out, capture
      ensures out.delivered == old(out.delivered) + b && out.codes == old(out.codes)
      ensures capture.bytes == old(capture.bytes) + b
      ensures n == |b| && err == None
    {
      n := out.Write(b);
      var m := capture.Write(b);
      err := None;
    }
  }

  /** What `res.Writer` currently is: the connection's writer, or a body
      dumper installed in front of it. */
  datatype Sink = Direct | Dump(w: BodyDumpResponseWriter)

  /** `*echo.Response`, reduced to what the middleware touches: its
      headers, the writer it may replace, the status and the running byte
      count. */
  class Response {
    const conn: ClientWriter
    var header: Header
    var writer: Sink
    var status: int
    var size: int

    constructor (conn: ClientWriter, header: Header)
      ensures this.conn == conn && this.header == header
      ensures writer == Direct && status == 0 && size == 0
    {
      this.conn := conn;
      this.header := header;
      writer := Direct;
      status := 0;
      size := 0;
    }

    /** A body dumper always sits directly in front of this response's
        connection writer. */
    ghost predicate Valid()
      reads this
    {
      writer.Dump? ==> writer.w.out == conn
    }

    /** The capture buffer writes may reach. */
    function Captures(): set<object>
      reads this
    {
      if writer.Dump? then {writer.w.capture} else {}
    }

    method WriteHeader(code: int)
      requires Valid()
      modifies this, conn
      ensures Valid() && writer == old(writer) && size == old(size) && header == old(header)
      ensures status == code
      ensures conn.codes == old(conn.codes) + [code] && conn.delivered == old(conn.delivered)
    {
      status := code;
      match writer
      case Direct => conn.WriteHeader(code);
      case Dump(w) => w.WriteHeader(code);
    }

    method Write(b: seq<byte>) returns (n: int)
      requires Valid()
      modifies this, conn, Captures()
      ensures Valid() && writer == old(writer) && status == old(status) && header == old(header)
      ensures conn.delivered == old(conn.delivered) + b && conn.codes == old(conn.codes)
      ensures writer.Dump? ==> writer.w.capture.bytes == old(writer.w.capture.bytes) + b
      ensures n == |b| && size == old(size) + n
    {
      match writer {
        case Direct =>
          n := conn.Write(b);
        case Dump(w) =>
          var err;
          n, err := w.Write(b);
      }
      size := size + n;
    }
  }

  /** `echo.Context` for one request: the request and response, the client
      address `RealIP` reports, the errors passed to `c.Error` and the
      request body the next handler was given at each of its calls. */
  class Context {
    const req: Request
    const res: Response
    const realIP: string
    var errors: seq<Error>
    var nextSaw: seq<Body>

    constructor (req: Request, res: Response, realIP: string)
      ensures this.req == req && this.res == res && this.realIP == realIP
      ensures errors == [] && nextSaw == []
    {
      this.req := req;
      this.res := res;
      this.realIP := realIP;
      errors := [];
      nextSaw := [];
    }

    /** `c.Error(err)`: hands the error to the framework's error handler,
        recorded here as a call. */
    method HandleError(err: Error)
      modifies this
      ensures errors == old(errors) + [err] && nextSaw == old(nextSaw)
    {
      errors := errors + [err];
    }
  }

  /** The next handler, as what it does: the request headers and the
      response headers it sets (before anything is written), the status
      code it writes (if any), the body writes it makes, in order, and the
      error it returns. */
  datatype Handler = Handler(reqHeaders: Header, resHeaders: Header, code: Option<int>,
                             writes: seq<seq<byte>>, result: Option<Error>)

  /** One call `next(c)`. */
  method CallNext(next: Handler, c: Context) returns (err: Option<Error>)
    requires c.res.Valid()
    modifies c, c.req, c.res, c.res.conn, c.res.Captures()
    ensures err == next.result
    ensures c.req.body == old(c.req.body) && c.req.header == old(c.req.header) + next.reqHeaders
    ensures c.nextSaw == old(c.nextSaw) + [c.req.body] && c.errors == old(c.errors)
    ensures c.res.Valid() && c.res.writer == old(c.res.writer)
    ensures c.res.header == old(c.res.header) + next.resHeaders
    ensures c.res.status == if next.code.Some? then next.code.value else old(c.res.status)
    ensures c.res.conn.codes == old(c.res.conn.codes) + (if next.code.Some? then [next.code.value] else [])
    ensures c.res.conn.delivered == old(c.res.conn.delivered) + Concat(next.writes)
    ensures c.res.writer.Dump? ==>
      c.res.writer.w.capture.bytes == old(c.res.writer.w.capture.bytes) + Concat(next.writes)
    ensures c.res.size == old(c.res.size) + TotalLength(next.writes)
  {
    c.nextSaw := c.nextSaw + [c.req.body];
    c.req.header := c.req.header + next.reqHeaders;
    var res := c.res;
    res.header := res.header + next.resHeaders;
    if next.code.Some? {
      res.WriteHeader(next.code.value);
    }
    var i := 0;
    while i < |next.writes|
      invariant 0 <= i <= |next.writes|
      invariant res.Valid() && res.writer == old(res.writer)
      invariant res.header == old(res.header) + next.resHeaders
      invariant c.req.body == old(c.req.body) && c.req.header == old(c.req.header) + next.reqHeaders
      invariant c.nextSaw == old(c.nextSaw) + [c.req.body] && c.errors == old(c.errors)
      invariant res.status == if next.code.Some? then next.code.value else old(res.status)
      invariant res.conn.codes == old(res.conn.codes) + (if next.code.Some? then [next.code.value] else [])
      invariant res.conn.delivered == old(res.conn.delivered) + Concat(next.writes[..i])
      invariant res.writer.Dump? ==>
        res.writer.w.capture.bytes == old(res.writer.w.capture.bytes) + Concat(next.writes[..i])
      invariant res.size == old(res.size) + |Concat(next.writes[..i])|
    {
      var n := res.Write(next.writes[i]);
      assert next.writes[..i + 1] == next.writes[..i] + [next.writes[i]];
      ConcatSnoc(next.writes[..i], next.writes[i]);
      i := i + 1;
    }
    assert next.writes[..i] == next.writes;
    ConcatLength(next.writes);
    err := next.result;
  }

  /** The clock readings the record uses, taken as inputs: the RFC 3339
      timestamp text, the elapsed time in nanoseconds, and that duration's
      human-readable text. */
  datatype Clock = Clock(timestamp: string, elapsedNs: int, elapsedText: string)

  const HandledRequest: string := "handled request"

  /** Everything the record is built from, read off the context once the
      handler has returned. */
  function Observe(c: Context, clock: Clock, err: Option<Error>, reqBody: seq<byte>, resBody: seq<byte>): Observation
    reads c.req, c.res
  {
    Observation(clock.timestamp, c.realIP, c.req.host, c.req.requestURI, c.req.verb, c.req.urlPath,
                c.req.header, c.res.status, clock.elapsedNs, clock.elapsedText, c.res.size,
                c.res.header, err, reqBody, resBody)
  }

  /** Lines 108-114: with request capture on, read the whole body (a nil
      body reads as nothing) and put back a fresh stream over the same
      bytes; otherwise leave the body alone and read nothing. */
  method ResetRequestBody(req: Request, config: LoggerConfig) returns (reqBody: seq<byte>)
    modifies req
    ensures req.header == old(req.header)
    ensures config.IncludeRequestBodies ==> reqBody == Contents(old(req.body)) && req.body == Stream(reqBody)
    ensures !config.IncludeRequestBodies ==> reqBody == [] && req.body == old(req.body)
  {
    reqBody := [];
    if config.IncludeRequestBodies {
      if req.body != NilBody {
        reqBody := req.body.unread;
      }
      req.body := Stream(reqBody);
    }
  }

  /** Lines 117-123: allocate the capture buffer and, with response
      capture on, put a body dumper over the connection writer and the
      buffer in front of the response. */
  method InstallBodyDump(res: Response, config: LoggerConfig) returns (resBody: Capture)
    requires res.Valid() && res.writer == Direct
    modifies res
    ensures fresh(resBody) && resBody.bytes == []
    ensures res.Valid() && res.status == old(res.status) && res.size == old(res.size)
    ensures res.header == old(res.header)
    ensures config.IncludeResponseBodies ==>
      res.writer.Dump? && res.writer.w.out == res.conn && res.writer.w.capture == resBody
    ensures !config.IncludeResponseBodies ==> res.writer == Direct
  {
    resBody := new Capture();
    if config.IncludeResponseBodies {
      var writer := new BodyDumpResponseWriter(res.conn, resBody);
      res.writer := Dump(writer);
    }
  }

  /** `logrusMiddlewareHandler` (broadcast/logger.go:103-160). `global` is
      logrus's standard logger, which the record is handed to. `resBody` is
      the capture buffer the call allocates. */
  method LogrusMiddlewareHandler(c: Context, next: Handler, config: LoggerConfig, global: Logger, clock: Clock)
    returns (r: Option<Error>, resBody: Capture)
    requires c.res.Valid() && c.res.writer == Direct
    modifies c, c.req, c.res, c.res.conn, global
    // the middleware itself always succeeds
    ensures r == None
    // request body: read and replaced by an equivalent fresh stream, or left alone
    ensures config.IncludeRequestBodies ==> c.req.body == Stream(Contents(old(c.req.body)))
    ensures !config.IncludeRequestBodies ==> c.req.body == old(c.req.body)
    // next is called exactly once, and sees the request body as it now is
    ensures c.nextSaw == old(c.nextSaw) + [c.req.body]
    // an error from next goes to c.Error, and only then
    ensures c.errors == old(c.errors) + (if next.result.Some? then [next.result.value] else [])
    // the client receives what next wrote; the capture holds the same bytes or nothing
    ensures c.res.conn.delivered == old(c.res.conn.delivered) + Concat(next.writes)
    ensures fresh(resBody)
    ensures resBody.bytes == (if config.IncludeResponseBodies then Concat(next.writes) else [])
    ensures config.IncludeResponseBodies ==>
      c.res.writer.Dump? && c.res.writer.w.out == c.res.conn && c.res.writer.w.capture == resBody
    ensures !config.IncludeResponseBodies ==> c.res.writer == Direct
    ensures c.res.Valid() && c.res.size == old(c.res.size) + TotalLength(next.writes)
    // the headers next set on the request, and the status and headers it set on
    // the response, are there when the record is read
    ensures c.req.header == old(c.req.header) + next.reqHeaders
    ensures c.res.status == if next.code.Some? then next.code.value else old(c.res.status)
    ensures c.res.conn.codes == old(c.res.conn.codes) + (if next.code.Some? then [next.code.value] else [])
    ensures c.res.header == old(c.res.header) + next.resHeaders
    // exactly one record, at Info, with the fields built from what was observed
    ensures global.level == old(global.level)
    ensures global.entries == old(global.entries) + [Entry(InfoLevel, HandledRequest,
      RecordFields(config, Observe(c, clock, next.result,
        if config.IncludeRequestBodies then Contents(old(c.req.body)) else [],
        if config.IncludeResponseBodies then Concat(next.writes) else [])))]
    ensures var fields := global.entries[|global.entries| - 1].fields;
      && (config.IncludeRequestBodies ==> fields[RequestBodyKey] == Bytes(c.req.body.unread))
      && (config.IncludeResponseBodies ==>
            fields[ResponseBodyKey] == Bytes(c.res.conn.delivered[|old(c.res.conn.delivered)|..]))
  {
    var reqBody := ResetRequestBody(c.req, config);
    resBody := InstallBodyDump(c.res, config);
    var err := CallNext(next, c);
    if err.Some? {
      c.HandleError(err.value);
    }
    var o := Observe(c, clock, err, reqBody, resBody.bytes);
    CapturedFields(config, o);
    global.Log(Entry(InfoLevel, HandledRequest, RecordFields(config, o)));
    r := None;
  }

  /** The middleware `loggerHookWithConfig` returns: it runs
      `logrusMiddlewareHandler` with the configuration it was built with. */
  datatype Hook = Hook(config: LoggerConfig)

  /** `loggerHookWithConfig` (broadcast/logger.go:186-192). */
  function LoggerHookWithConfig(config: LoggerConfig): (h: Hook)
    ensures h.config == config
  {
    Hook(config)
  }

  /** `loggerHook` (broadcast/logger.go:194-196): capture nothing. */
  function LoggerHook(): (h: Hook)
    ensures !h.config.IncludeRequestBodies && !h.config.IncludeResponseBodies
  {
    LoggerHookWithConfig(LoggerConfig(false, false))
  }

  /** The default middleware's records carry exactly the fifteen core
      fields and never a body. */
  lemma LoggerHookRecordKeys(o: Observation)
    ensures RecordFields(LoggerHook().config, o).Keys == CoreKeys
    ensures |RecordFields(LoggerHook().config, o)| == 15
  {
    RecordSize(LoggerHook().config, o);
  }

  /** The handler the hook wraps around `next`, applied to one request:
      `logrusMiddlewareHandler` under the hook's own configuration. */
  method Serve(h: Hook, c: Context, next: Handler, global: Logger, clock: Clock)
    returns (r: Option<Error>, resBody: Capture)
    requires c.res.Valid() && c.res.writer == Direct
    modifies c, c.req, c.res, c.res.conn, global
    ensures r == None
    ensures h.config.IncludeRequestBodies ==> c.req.body == Stream(Contents(old(c.req.body)))
    ensures !h.config.IncludeRequestBodies ==> c.req.body == old(c.req.body)
    ensures c.nextSaw == old(c.nextSaw) + [c.req.body]
    ensures c.errors == old(c.errors) + (if next.result.Some? then [next.result.value] else [])
    ensures c.res.conn.delivered == old(c.res.conn.delivered) + Concat(next.writes)
    ensures fresh(resBody)
    ensures resBody.bytes == (if h.config.IncludeResponseBodies then Concat(next.writes) else [])
    ensures h.config.IncludeResponseBodies ==>
      c.res.writer.Dump? && c.res.writer.w.out == c.res.conn && c.res.writer.w.capture == resBody
    ensures !h.config.IncludeResponseBodies ==> c.res.writer == Direct
    ensures c.res.Valid() && c.res.size == old(c.res.size) + TotalLength(next.writes)
    ensures c.res.status == if next.code.Some? then next.code.value else old(c.res.status)
    ensures c.res.conn.codes == old(c.res.conn.codes) + (if next.code.Some? then [next.code.value] else [])
    ensures c.req.header == old(c.req.header) + next.reqHeaders
    ensures c.res.header == old(c.res.header) + next.resHeaders
    ensures global.level == old(global.level)
    ensures global.entries == old(global.entries) + [Entry(InfoLevel, HandledRequest,
      RecordFields(h.config, Observe(c, clock, next.result,
        if h.config.IncludeRequestBodies then Contents(old(c.req.body)) else [],
        if h.config.IncludeResponseBodies then Concat(next.writes) else [])))]
  {
    r, resBody := LogrusMiddlewareHandler(c, next, h.config, global, clock);
  }
}
