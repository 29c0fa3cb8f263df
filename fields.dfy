/** The per-request log record: the three field-derivation helpers
    (broadcast/logger.go:162-184) and the field map the middleware builds
    (broadcast/logger.go:131-155). */
module RequestFields {
  import opened Common
  import opened Decimal
  import opened Backend

  /** Header maps: a header that is absent reads as "" (as Go's
      `Header.Get` does). Keys are the canonical header names, the form
      `Header.Get` looks a name up under. */
  type Header = map<string, string>

  const HeaderContentLength: string := "Content-Length"
  /** Echo's `HeaderXRequestID`, "X-Request-ID", in canonical form. */
  const HeaderXRequestID: string := "X-Request-Id"
  const HeaderReferer: string := "Referer"
  const HeaderUserAgent: string := "User-Agent"

  function HeaderGet(h: Header, key: string): (v: string)
    ensures key !in h ==> v == ""
  {
    if key in h then h[key] else ""
  }

  /** `getBytesIn`: the Content-Length header text verbatim, or "0" when
      it is empty or absent. */
  function GetBytesIn(h: Header): (r: string)
    ensures r != ""
    ensures HeaderGet(h, HeaderContentLength) != "" ==> r == h[HeaderContentLength]
    ensures HeaderGet(h, HeaderContentLength) == "" ==> r == "0"
  {
    var bytesIn := HeaderGet(h, HeaderContentLength);
    if bytesIn == "" then "0" else bytesIn
  }

  /** `getPath`: the URL path, with the empty path read as "/". */
  function GetPath(p: string): (r: string)
    ensures r != ""
    ensures p != "" ==> r == p
    ensures p == "" ==> r == "/"
  {
    if p == "" then "/" else p
  }

  /** Normalising a path twice is normalising it once. */
  lemma GetPathIdempotent(p: string)
    ensures GetPath(GetPath(p)) == GetPath(p)
  {
  }

  /** `getRequestID`: the request's X-Request-ID if non-empty, else the
      response's; "" exactly when both are empty. */
  function GetRequestID(req: Header, res: Header): (r: string)
    ensures HeaderGet(req, HeaderXRequestID) != "" ==> r == req[HeaderXRequestID]
    ensures HeaderGet(req, HeaderXRequestID) == "" ==> r == HeaderGet(res, HeaderXRequestID)
    ensures r == "" <==> HeaderGet(req, HeaderXRequestID) == "" && HeaderGet(res, HeaderXRequestID) == ""
  {
    var id := HeaderGet(req, HeaderXRequestID);
    if id == "" then HeaderGet(res, HeaderXRequestID) else id
  }

  /** `LoggerConfig` (broadcast/logger.go:18-21). */
  datatype LoggerConfig = LoggerConfig(IncludeRequestBodies: bool, IncludeResponseBodies: bool)

  const RequestBodyKey: string := "request_body"
  const ResponseBodyKey: string := "response_body"

  /** The fifteen fields every record carries. */
  const CoreKeys: set<string> := {
    "time_rfc3339", "remote_ip", "host", "uri", "method", "path", "referer",
    "user_agent", "status", "latency", "latency_human", "bytes_in",
    "bytes_out", "request_id", "error"
  }

  /** Neither body key is a core key. */
  lemma BodyKeysNotCore()
    ensures RequestBodyKey !in CoreKeys && ResponseBodyKey !in CoreKeys
  {
  }

  lemma CoreKeyCount()
    ensures |CoreKeys| == 15
  {
  }

  /** The key set of a record built under `config`. */
  function RecordKeys(config: LoggerConfig): (ks: set<string>)
    ensures CoreKeys <= ks
    ensures RequestBodyKey in ks <==> config.IncludeRequestBodies
    ensures ResponseBodyKey in ks <==> config.IncludeResponseBodies
    ensures ks - CoreKeys <= {RequestBodyKey, ResponseBodyKey}
  {
    BodyKeysNotCore();
    CoreKeys
      + (if config.IncludeRequestBodies then {RequestBodyKey} else {})
      + (if config.IncludeResponseBodies then {ResponseBodyKey} else {})
  }

  /** Everything the record is built from, as observed once `next` has
      returned: the clock readings (timestamp text, elapsed nanoseconds and
      its human-readable text), the request, the response (`verb` is the request method) and the bodies
      captured (empty when capture is off). */
  datatype Observation = Observation(
    timestamp: string,
    remoteIP: string,
    host: string,
    uri: string,
    verb: string,
    urlPath: string,
    reqHeader: Header,
    status: int,
    elapsedNs: int,
    elapsedText: string,
    size: int,
    resHeader: Header,
    err: Option<Error>,
    reqBody: seq<byte>,
    resBody: seq<byte>)

  /** The field map of broadcast/logger.go:131-155. */
  function RecordFields(config: LoggerConfig, o: Observation): map<string, Value>
  {
    var core := map[
      "time_rfc3339" := Text(o.timestamp),
      "remote_ip" := Text(o.remoteIP),
      "host" := Text(o.host),
      "uri" := Text(o.uri),
      "method" := Text(o.verb),
      "path" := Text(GetPath(o.urlPath)),
      "referer" := Text(HeaderGet(o.reqHeader, HeaderReferer)),
      "user_agent" := Text(HeaderGet(o.reqHeader, HeaderUserAgent)),
      "status" := Number(o.status),
      "latency" := Text(FormatInt(Micros(o.elapsedNs))),
      "latency_human" := Text(o.elapsedText),
      "bytes_in" := Text(GetBytesIn(o.reqHeader)),
      "bytes_out" := Text(FormatInt(o.size)),
      "request_id" := Text(GetRequestID(o.reqHeader, o.resHeader)),
      "error" := ErrorField(o.err)
    ];
    var withRequest := if config.IncludeRequestBodies then core[RequestBodyKey := Bytes(o.reqBody)] else core;
    if config.IncludeResponseBodies then withRequest[ResponseBodyKey := Bytes(o.resBody)] else withRequest
  }

  /** A record holds the core fields, plus `request_body` exactly when
      request capture is on and `response_body` exactly when response
      capture is on. */
  lemma RecordKeySet(config: LoggerConfig, o: Observation)
    ensures RecordFields(config, o).Keys == RecordKeys(config)
  {
  }

  /** A record has exactly fifteen fields, plus one per body captured. */
  lemma RecordSize(config: LoggerConfig, o: Observation)
    ensures |RecordFields(config, o)| ==
      15 + (if config.IncludeRequestBodies then 1 else 0) + (if config.IncludeResponseBodies then 1 else 0)
  {
    CoreKeyCount();
    BodyKeysNotCore();
    var ks := RecordKeys(config);
    var extra := (if config.IncludeRequestBodies then {RequestBodyKey} else {})
      + (if config.IncludeResponseBodies then {ResponseBodyKey} else {});
    assert ks == CoreKeys + extra;
    assert CoreKeys !! extra;
    assert |extra| == (if config.IncludeRequestBodies then 1 else 0) + (if config.IncludeResponseBodies then 1 else 0);
    RecordKeySet(config, o);
  }

  /** `latency` reads back as the elapsed nanoseconds divided by 1000,
      truncated, and `bytes_out` as the response size. */
  lemma NumericFieldsReadBack(config: LoggerConfig, o: Observation)
    ensures RecordFields(config, o)["latency"].Text?
    ensures ParseInt(RecordFields(config, o)["latency"].s) == Some(Micros(o.elapsedNs))
    ensures RecordFields(config, o)["bytes_out"].Text?
    ensures ParseInt(RecordFields(config, o)["bytes_out"].s) == Some(o.size)
  {
    FormatIntRoundTrip(Micros(o.elapsedNs));
    FormatIntRoundTrip(o.size);
  }

  /** `bytes_in` comes from the Content-Length header alone: whatever body
      was captured, the field is the same. */
  lemma BytesInIgnoresBody(config: LoggerConfig, o: Observation, body: seq<byte>)
    ensures RecordFields(config, o)["bytes_in"] == RecordFields(config, o.(reqBody := body))["bytes_in"]
    ensures RecordFields(config, o)["bytes_in"] == Text(GetBytesIn(o.reqHeader))
  {
  }

  /** The body fields, when present, are exactly the captured bytes; the
      error field is the handler's error. */
  lemma CapturedFields(config: LoggerConfig, o: Observation)
    ensures config.IncludeRequestBodies ==> RecordFields(config, o)[RequestBodyKey] == Bytes(o.reqBody)
    ensures config.IncludeResponseBodies ==> RecordFields(config, o)[ResponseBodyKey] == Bytes(o.resBody)
    ensures RecordFields(config, o)["error"] == ErrorField(o.err)
  {
  }
}
