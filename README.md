# broadcastd request logger, modelled in Dafny

This project models `broadcast/logger.go` of broadcastd. That file is the glue between the Echo
HTTP framework and the logrus logging library. It has two parts:

- **`logrusLogger`**, an adapter that lets a logrus logger serve as Echo's logger. The part with
  real behaviour is the level translation. `Level` reads the logrus level as an Echo `log.Lvl`.
  `SetLevel` writes an Echo level into logrus's global level. Both panic with "Invalid level" on
  any level outside DEBUG, INFO, WARN and ERROR.
- **`logrusMiddlewareHandler`**, a request-logging middleware, and the hooks that build it.
  - With `IncludeRequestBodies`, it reads the request body and puts back an equivalent stream.
  - With `IncludeResponseBodies`, it puts a `bodyDumpResponseWriter` in front of the response
    writer. That writer tees every write into a capture buffer.
  - It calls the next handler once and routes that handler's error to `c.Error`.
  - It hands one "handled request" record to logrus at Info level, and always returns nil.

Files, one module each:

| file | module | contents |
|---|---|---|
| `common.dfy` | `Common` | bytes, `Option`, `Outcome` (returns normally or panics), `Error` |
| `levels.dfy` | `Levels` | the two level enums and the two partial translations between them |
| `decimal.dfy` | `Decimal` | `strconv.FormatInt(n, 10)`, a parser for its output, and Go's truncating `/ 1000` |
| `backend.dfy` | `Backend` | a logrus `Logger`: its level and the entries handed to it |
| `adapter.dfy` | `Adapter` | `logrusLogger` with `Level` and `SetLevel` |
| `fields.dfy` | `RequestFields` | `getBytesIn`, `getPath`, `getRequestID`, and the record's field map |
| `middleware.dfy` | `Middleware` | request, response, writers, the handler call, the middleware and its hooks |

Modelling choices:

- **Panics.** A panic is the `Abort("Invalid level")` outcome. The call `l.Panic` makes on the
  embedded logger is recorded as a panic-level entry.
- **Two loggers.** `Level` reads the embedded `l.Logger`. `SetLevel` writes the package-global
  standard logger. The adapter therefore holds two `Logger` references, `logger` and `global`.
  The round trip "set, then read back" is proved under `Shared()`, which means
  `logger == global`.
- **Entries are calls.** A `Logger`'s `entries` are the entries handed to logrus. Whether logrus
  then writes an entry depends on its level, and that filtering is not modelled. So "exactly one
  record per request" here means exactly one `Info` call. The record is actually written only
  when the global level enables Info.
- **The next handler.** `next` is a value: the request headers and response headers it sets,
  an optional status code it writes, the byte chunks it writes in order, and the error it
  returns. The headers are set before anything is written. The record reads both header maps
  after `next` returns, so its `request_id` can be an X-Request-ID that `next` put on the request
  or on the response. The context records the body stream it was given at
  each call (`nextSaw`), and each error passed to `c.Error` (`errors`).
- **Clock.** The clock reads are inputs: the RFC 3339 timestamp text, the elapsed nanoseconds,
  and `Duration.String()` of the elapsed time.
- **Headers.** Headers are maps from canonical header name to value, so Echo's "X-Request-ID"
  appears as "X-Request-Id", the key `Header.Get` looks it up under. An absent header reads as
  "", as `Header.Get` returns.

## Model

| member | source | states |
|---|---|---|
| `Levels.ToEcho` | broadcast/logger.go:27-42 | Debug, Info, Warn and Error map to DEBUG, INFO, WARN and ERROR. Every other backend level, including Panic, Fatal, Trace and unnamed values, aborts with "Invalid level". OFF is never returned normally. |
| `Levels.ToBackend` | broadcast/logger.go:52-65 | DEBUG, INFO, WARN and ERROR map to the four logrus levels. OFF and every other value abort with "Invalid level". |
| `Levels.SetThenGet` | broadcast/logger.go:52-61 | For each of the four accepted levels, translating to the backend and reading back gives the same level. |
| `Levels.GetThenSet` | broadcast/logger.go:27-36 | For each of the four readable backend levels, reading it and setting the result writes back the same backend level. |
| `Levels.ToBackendInjective` | broadcast/logger.go:52-61 | Two accepted levels that translate to the same backend level are equal. |
| `Adapter.LogrusLogger.Level` | broadcast/logger.go:27-42 | Returns the translation of the embedded logger's level. On any other level it hands a panic-level "Invalid level" entry to that logger and aborts. |
| `Adapter.LogrusLogger.SetLevel` | broadcast/logger.go:52-65 | Sets the global logger's level to the translation. On an invalid level it logs "Invalid level" on the embedded logger and aborts, changing no level. With a shared logger, a following `Level` reads back the level that was set. |
| `Decimal.FormatInt` | broadcast/logger.go:144 | Nonempty decimal text: a minus sign exactly for negative numbers, then digits without a leading zero. A non-negative number renders as "0" exactly when its text starts with "0". |
| `Decimal.FormatIntRoundTrip` | broadcast/logger.go:141-144 | Parsing the rendering of any integer gives back that integer, so `latency` and `bytes_out` lose nothing. |
| `Decimal.FormatIntInjective` | broadcast/logger.go:141-144 | Distinct integers render as distinct text. |
| `Decimal.Micros` | broadcast/logger.go:141 | Nanoseconds divided by 1000, truncated toward zero as Go's `/` does, for both signs. |
| `RequestFields.GetBytesIn` | broadcast/logger.go:162-168 | The Content-Length header verbatim when it is non-empty, otherwise "0". Never empty. |
| `RequestFields.GetPath` | broadcast/logger.go:170-176 | "/" for the empty path. Any other path is returned unchanged. |
| `RequestFields.GetPathIdempotent` | broadcast/logger.go:170-176 | Normalising an already normalised path changes nothing. |
| `RequestFields.GetRequestID` | broadcast/logger.go:178-184 | The request's X-Request-ID when non-empty, otherwise the response's. "" exactly when both are empty. |
| `RequestFields.CoreKeyCount` | broadcast/logger.go:131-147 | The 15 core field names are distinct, so every record has exactly 15 core fields. |
| `RequestFields.RecordKeys` | broadcast/logger.go:131-155 | The core keys, plus `request_body` exactly when request capture is on and `response_body` exactly when response capture is on. |
| `RequestFields.RecordKeySet` | broadcast/logger.go:131-155 | A built record has exactly the key set `RecordKeys` gives for its configuration. |
| `RequestFields.RecordSize` | broadcast/logger.go:131-155 | A record has 15 fields, plus one for each kind of body captured. |
| `RequestFields.NumericFieldsReadBack` | broadcast/logger.go:141-144 | `latency` parses back to the elapsed nanoseconds divided by 1000 with truncation. `bytes_out` parses back to the response size. |
| `RequestFields.BytesInIgnoresBody` | broadcast/logger.go:143 | `bytes_in` is `getBytesIn` of the request header. It is the same whatever request body was captured. |
| `RequestFields.CapturedFields` | broadcast/logger.go:146-155 | When present, `request_body` and `response_body` are exactly the captured bytes. `error` is the handler's error. |
| `Middleware.Contents` | broadcast/logger.go:109-112 | Reading a stream yields its unread bytes. A nil body yields nothing. |
| `Middleware.ResetRequestBody` | broadcast/logger.go:108-114 | With request capture on, the body becomes a fresh stream over exactly the bytes read. A nil body becomes an empty stream. With capture off, the body is untouched and nothing is read. |
| `Middleware.InstallBodyDump` | broadcast/logger.go:116-123 | The capture buffer starts empty. With response capture on, the response's writer becomes a body dumper over the connection writer and that buffer. With capture off, the writer is left as it was. |
| `Middleware.BodyDumpResponseWriter.Write` | broadcast/logger.go:207-209 | The client and the capture buffer each receive exactly the written bytes. The full length is reported and there is no error. |
| `Middleware.BodyDumpResponseWriter.WriteHeader` | broadcast/logger.go:203-205 | The status code is forwarded to the wrapped writer. No body bytes are delivered or captured. |
| `Middleware.Context.HandleError` | broadcast/logger.go:127 | `c.Error` receives exactly the handler's error. |
| `Middleware.CallNext` | broadcast/logger.go:125-126 | One call of `next`, which sees the current request body. The request headers it sets land on the request, the response headers on the response. The status it writes reaches the response and the client. Its writes reach the client in order, and reach the capture buffer too when one is installed. It returns `next`'s error. |
| `Middleware.LogrusMiddlewareHandler` | broadcast/logger.go:103-160 | Returns nil. `next` is called once and sees the reset body. `c.Error` is called iff `next` failed. The client receives all of `next`'s bytes. The capture holds those same bytes, or nothing when capture is off. The response's status, the codes sent to the client, and the request and response headers are those `next` left. The global level is unchanged. Exactly one Info "handled request" entry is handed to the global logger, carrying the record built from that final state. |
| `Middleware.LoggerHookWithConfig` | broadcast/logger.go:186-192 | The middleware carries the configuration it was built with. |
| `Middleware.LoggerHook` | broadcast/logger.go:194-196 | The default middleware captures neither body. |
| `Middleware.LoggerHookRecordKeys` | broadcast/logger.go:194-196 | The default middleware's records carry exactly the 15 core fields. |
| `Middleware.Serve` | broadcast/logger.go:187-190 | The hook's handler behaves as `logrusMiddlewareHandler` under the hook's configuration. The request body is reset, or left alone, as that configuration says. `c.Error` gets `next`'s error. The client gets `next`'s bytes and status. The capture buffer is returned and holds the body bytes or nothing. Status, request and response headers, size and the global level end as the handler states. One Info record is emitted under the hook's configuration. |

## Left out

- `Printj`, `Debugj`, `Infoj`, `Warnj`, `Errorj`, `Fatalj` and `Panicj` (lines 75-101) only forward a field map into logrus. The termination behaviour of Fatal and Panic belongs to logrus, which is not part of this model.
- `Output` and `SetOutput` (lines 67-73) are sink plumbing over an `io.Writer`.
- `SetHeader`, `SetPrefix` and `Prefix` (lines 44-50) are stubs with no effect.
- `Flush`, `Hijack` and `CloseNotify` (lines 211-221) are runtime type assertions on net/http capabilities, connections and channels.
- `time.Now`, RFC 3339 formatting and `Duration.String` are clock and formatting code. Their results are inputs (`Clock`).
- Echo internals are not modelled: `RealIP` (an input), `Referer`/`UserAgent` (plain header reads), the response's committed flag and default 200 status, and what `c.Error`'s error handler writes. The response keeps only the status last written and a running byte count.
- logrus's level filtering and output formatting are not modelled. An entry is a call into logrus.
- Middleware.LogrusMiddlewareHandler: requires that the response's writer is the connection's own writer. Stacking a second body dumper over an earlier one is not modelled.
- Middleware.Serve: has the same requirement on the response's writer, for the same reason.
- Middleware.BodyDumpResponseWriter.Write: assumes every underlying write succeeds in full. The short-write and error results of `io.MultiWriter` are not modelled.
- Middleware.ResetRequestBody: the error `ioutil.ReadAll` returns is discarded in the source. A read that fails part-way is not modelled; the body reads in full.
- How the next handler consumes the request stream is not modelled. The model records which stream it was given.
- The next handler cannot change the request's host, URI, method or URL path. The record reads them as they arrived, whereas Go reads them after `next` returns. Changes `next` makes to the request headers are modelled.
- `res.Size` and the elapsed nanoseconds are 64-bit in Go. Overflow is not modelled.
- Headers with several values are not modelled. Header names are taken as already canonical; canonicalising other spellings is not modelled.
- Concurrency across requests, and concurrent changes to logrus's global state, are not modelled.
- "One record per request" holds for the Info call only. The code hands the record to the global logger at Info level, and logrus drops it when the global level is below Info (Panic, Fatal, Error or Warn).
