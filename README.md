# Verified model of the `monitor` service toolkit core

This project models the shared Go toolkit that the Proper services build on, in Dafny:

- **`client`**: the HTTP client wrapper.
  - It builds outbound requests carrying the standard correlation headers: a bearer token, `X-Flow-Id` taken from the `FLOW` environment variable, and `proper-referer` and `traceparent`, both taken from the `traceparent` variable.
  - It sends them through the caller's transport.
  - It maps the response status to a body or an error.
  - It also builds multipart/form-data requests and query-string URLs.
- **`context_util`**: typed accessors for the request-scoped string values carried in a `context.Context`, and the `IsProd`, `IsDebugOn` and `SetDebugOn` helpers.
- **`properrors`**: the coded error type.
  - Each error has an ID, a fixed message and a documentation link derived from the ID.
  - Four package-level errors are shared by every caller.
  - `Wrap` attaches an underlying error *in place* to the shared object and returns that same object.
- **`logging/gpc.go`**: the Cloud Logging adapter over `log/slog`.
  - `replacer` renames slog's built-in keys.
  - The `spanContextLogHandler` appends trace and correlation attributes to every record before delegating.

Files and modules:

| file | module | contents |
|---|---|---|
| `go_base.dfy` | `GoBase` | Go values shared by the other modules: `Option`, the `(T, error)` pair as `Result`, `error` as `GoError(message)`, and `[]byte` as `ByteSlice`, in which nil differs from empty. It also has `fmt`'s `%d` rendering, with a parse-back round trip, and `string(b)`. |
| `context_util.dfy` | `ContextUtil` | The context as an immutable chain of `WithValue` links, and lookup from the innermost link out. Every accessor is specified against that lookup. |
| `properrors.dfy` | `ProperErrors` | `Error` as a class whose `wError` field `Wrap` updates in place. `Registry` holds the four shared errors. |
| `client.dfy` | `HttpClient` | `Request` as a class whose header map the setters update in place, with the header specification functions. `execute`'s classification is a function. `BuildUrl` is a loop over the parameter map. `MultipartWriter` and `BuildMultipartFormRequest` are modelled with failure injection at every step. |
| `logging.dfy` | `Logging` | slog attributes and records, the replacer, and the handler, modelled as a class that hands the enriched record to a delegate handler class. |

Effects are parameters:

- The process environment is an `Environment` value, and an unset variable reads as "".
- The transport (`HTTPClient.Do`) is a function from the outbound request to its outcome: a transport error, or a status with the outcome of reading the body.
- Each failure the standard library may report is an `Option<GoError>` argument. This covers `http.NewRequest`, each multipart writer step and `io.Copy`.
- `url.Parse` and `Values.Encode` are function arguments.
- The OpenTelemetry span context of a logging call is a `SpanContext` argument.

Two behaviours of the code shape the model:

- **`BuildUrl` with an unparseable base URL.** `BuildUrl` discards the error of `url.Parse` (client/client.go:111). It then assigns the query through the nil `*url.URL` (client/client.go:118), which panics. The model therefore requires a base URL that parses.
- **The status error's body.** `execute` tests `bodyBytes != nil` (client/client.go:98), not emptiness. A successful `io.ReadAll` never returns a nil slice, so the bare `"status N"` branch (client/client.go:101) is dead code. An empty body yields `"status N, message "`. `StatusError` keeps both branches as written, and `BareStatusUnreachable` proves the bare one is never taken.

## Model

| member | source | states |
|---|---|---|
| GoBase.BytesToString | client/client.go:99 | `string(b)` keeps the length and maps every byte to the character with the same code |
| GoBase.BytesStringRoundTrip | client/client.go:99 | converting bytes to a string and back yields the same bytes, so an error message carries the body losslessly |
| GoBase.Digits | client/client.go:99-101 | the `%d` digits of a natural number are non-empty, all decimal digits, and have no leading zero |
| GoBase.FormatInt | client/client.go:99-101 | `%d` writes well-formed decimal text, starting with '-' exactly for a negative number |
| GoBase.FormatIntRoundTrip | client/client.go:99-101 | the `%d` rendering of any status code is well-formed decimal text that parses back to the same integer |
| ContextUtil.Lookup | context_util/context.go:51-54 | `ctx.Value`: the innermost link's value when its key matches, and any non-nil answer is a value actually bound under that key |
| ContextUtil.LookupIsLastBinding | context_util/context.go:51-54 | `ctx.Value` yields the most recently added binding of the key, or nil when there is none |
| ContextUtil.StringFromCtx | context_util/context.go:51-64 | the string stored under the key, and "" when the key is absent, holds nil, or holds a non-string value |
| ContextUtil.GetRequestID | context_util/context.go:7-9 | the string under "RequestId", and otherwise "" |
| ContextUtil.GetFlowID | context_util/context.go:11-13 | the string under "FlowID", and otherwise "" |
| ContextUtil.GetRootTaskID | context_util/context.go:15-17 | the string under "RootTaskID", and otherwise "" |
| ContextUtil.GetDebug | context_util/context.go:19-21 | the string under "debug", and otherwise "" |
| ContextUtil.GetEnv | context_util/context.go:23-25 | the string under "env", and otherwise "" |
| ContextUtil.GetServiceName | context_util/context.go:27-29 | the string under "ServiceName", and otherwise "" |
| ContextUtil.GetAwsTaskID | context_util/context.go:31-33 | the string under "awsTaskId", and otherwise "" |
| ContextUtil.GetBotName | context_util/context.go:35-37 | the string under "botname", and otherwise "" |
| ContextUtil.IsProd | context_util/context.go:39-41 | true exactly when the context holds the string "prod" under "env" |
| ContextUtil.IsDebugOn | context_util/context.go:43-45 | true exactly when "debug" holds "true" or "env" holds "local" |
| ContextUtil.SetDebugOn | context_util/context.go:47-49 | the child context reads "true" under "debug", and every other key reads as in the parent |
| ContextUtil.ChildShadowsParent | context_util/context.go:51-64 | a value set on a child hides the parent's, even when it is nil or not a string; the accessor then yields "" |
| ContextUtil.OtherKeysUnaffected | context_util/context.go:51-64 | adding a value under one key changes no other key's accessor |
| ContextUtil.AccessorKeys | context_util/context.go:7-37 | each accessor reads back a string stored under its own fixed key, and all are "" on an empty context |
| ContextUtil.PredicateExamples | context_util/context_test.go:45-81 | IsProd and IsDebugOn give the answers the package's tests expect on the contexts those tests build |
| ContextUtil.SetDebugOnEffect | context_util/context.go:43-49 | after SetDebugOn, debugging is on, and every other accessor and IsProd answer as before |
| ProperErrors.Format | properrors/errors.go:29-36 | the message starts with the ID followed by ": " |
| ProperErrors.WrappedExtendsPlain | properrors/errors.go:29-36 | a wrapped message is the unwrapped message followed by " w:" and the wrapped error's text |
| ProperErrors.IdRoundTrip | properrors/errors.go:29-36 | an ID without ':' can be read back from the front of any message, wrapped or not |
| ProperErrors.LaunchingBotMessage | properrors/errors_test.go:8-13 | the launching-bot error wrapping "foo" renders exactly the text the package's test expects |
| ProperErrors.Error.New | properrors/errors.go:21-27 | a new error has the given ID and message, a documentation link of the base URL followed by the ID, and nothing wrapped |
| ProperErrors.Error.Message | properrors/errors.go:29-36 | renders "ID: Err desc:Desc", followed by " w:" and the wrapped text when an error is wrapped |
| ProperErrors.Error.Wrap | properrors/errors.go:39-42 | sets the wrapped error, possibly nil, on the receiver itself, replacing any earlier one, and returns the receiver; the message then renders the new cause, or the plain text for nil |
| ProperErrors.Registry.constructor | properrors/errors.go:5-10 | the four shared errors are distinct fresh objects with IDs 0001 to 0004, their fixed messages and links, and nothing wrapped |
| ProperErrors.WrapTwice | properrors/errors.go:39-42 | wrapping through the returned alias acts on the original, and only the last wrapped error remains |
| ProperErrors.WrapThenClear | properrors/errors.go:29-42 | wrapping nil after wrapping an error clears the cause, and the shared object renders the plain "ID: Err desc:Desc" again |
| ProperErrors.WrapLaunchingBot | properrors/errors_test.go:8-13 | wrapping the shared launching-bot error changes the message every holder sees, and leaves the other three shared errors untouched |
| HttpClient.NewClient | client/client.go:27-29 | a client built without a token carries the empty token |
| HttpClient.NewClientWithTokent | client/client.go:31-33 | a client built with a token carries exactly that token |
| HttpClient.Getenv | client/client.go:169-175 | the variable's value, and "" for an unset variable |
| HttpClient.GetTraceparent | client/client.go:169-171 | the `traceparent` variable, and "" when it is unset |
| HttpClient.GetFlowID | client/client.go:173-175 | the `FLOW` variable, and "" when it is unset |
| HttpClient.Request.constructor | client/client.go:70 | a new request has the given method, URL and body, and no headers |
| HttpClient.Request.Snapshot | client/client.go:84 | what the transport sees is the request's method, URL, body and current headers |
| HttpClient.NewRequest | client/client.go:65-81 | a construction failure is returned as an error; otherwise the result is a fresh request with no headers |
| HttpClient.SetHeader | client/client.go:156-158 | sets one header, replacing its earlier value and leaving the other headers alone |
| HttpClient.SetAuthorizationHeader | client/client.go:61-63 | sets Authorization to "Bearer " followed by the token |
| HttpClient.SetFlowID | client/client.go:165-175 | sets X-Flow-Id to the FLOW environment variable |
| HttpClient.SetTraceparentHeader | client/client.go:160-171 | sets proper-referer and traceparent, both to the traceparent environment variable |
| HttpClient.StandardHeaders | client/client.go:136-141 | Authorization is present exactly when a token is configured, and then carries "Bearer " followed by the token; X-Flow-Id is FLOW; both trace headers are the traceparent variable; no other header is set |
| HttpClient.GenericHeaders | client/client.go:135-154 | the headers are the standard ones plus the extras; an extra wins every clash, and every other standard header is kept |
| HttpClient.BearerTokenRoundTrip | client/client.go:137-138 | the token read back from the Authorization header is exactly the configured one, and there is none without a token |
| HttpClient.ExtrasWin | client/client.go:143-147 | a caller's extra header overrides a standard one, and with no extras the headers are exactly the standard ones |
| HttpClient.SetStandardHeaders | client/client.go:137-141 | the standard headers are written over whatever the request already had |
| HttpClient.SetGenericHeaders | client/client.go:135-154 | a construction failure is returned as it is; otherwise a fresh request carries exactly GenericHeaders, whatever the order the extras are set in |
| HttpClient.StatusError | client/client.go:95-104 | the message begins "status " followed by the code, and text follows the code exactly when the body is non-nil |
| HttpClient.StatusErrorRecoverable | client/client.go:95-104 | a status error begins "status " with the code, readable back as the same integer; a non-nil body follows ", message " and can be read back as the same bytes |
| HttpClient.Execute | client/client.go:83-108 | a transport or body-read error is returned unchanged; the body is returned exactly for a 2xx status; any other status yields the status error |
| HttpClient.BareStatusUnreachable | client/client.go:98-102 | a response whose body was read never yields the bare "status N" error; its status error always carries text after the code |
| HttpClient.ServerErrorExample | client/client.go:95-104 | a 500 response with the body "server exploded" yields "status 500, message server exploded" |
| HttpClient.ExecuteRequest | client/client.go:83-108 | one transport call on the request as built, then the Execute classification |
| HttpClient.DoRequest | client/client.go:35-46 | a construction failure, or the outcome of sending the request with exactly the standard headers |
| HttpClient.DoRequestWithExtraHeaders | client/client.go:48-59 | a construction failure, or the outcome of sending the request with the standard headers overridden by the extras |
| HttpClient.ContentTypeHeaders | client/client.go:122-130 | a non-empty content type is added over the standard headers, and an empty one changes nothing |
| HttpClient.DoRequestWithContentType | client/client.go:122-133 | a construction failure, or the outcome of sending the request with the standard headers plus any non-empty content type |
| HttpClient.DoRequestRaw | client/client.go:236-243 | the transport's answer for the request, returned with no status interpretation |
| HttpClient.MockTransport | client/client_test.go:124-137 | the test double times out exactly when a check it was asked for fails, and otherwise answers the configured status with its fixed body |
| HttpClient.ClientTestScenarios | client/client_test.go:15-60 | a token client authenticates; a plain client sends no Authorization header and still succeeds; a 500 is an error; the content type reaches the transport |
| HttpClient.Add | client/client.go:115 | `Values.Add` appends the value to the key's list and leaves the other keys alone |
| HttpClient.QueryValues | client/client.go:113-116 | one single-element value list per parameter, and no other key |
| HttpClient.QueryValuesRoundTrip | client/client.go:113-118 | reading the first value of each key back from the query values yields exactly the parameters |
| HttpClient.BuildUrl | client/client.go:110-120 | the parsed base URL with its query replaced by the encoding of the parameters, whatever the map iteration order |
| HttpClient.NoParamsDropsQuery | client/client.go:110-120 | with no parameters, the base URL's own query is dropped and the rest is kept |
| HttpClient.FormDataContentType | client/client.go:224 | the multipart content type is "multipart/form-data; boundary=" followed by the writer's boundary |
| HttpClient.MultipartWriter.constructor | client/client.go:191-192 | a new writer has the boundary and has written nothing |
| HttpClient.MultipartWriter.WriteField | client/client.go:196 | a failed write reports its error and adds nothing; otherwise it appends the field |
| HttpClient.MultipartWriter.CreateFormFile | client/client.go:202 | a failure is reported; otherwise an empty file part is opened with the given field and file names |
| HttpClient.MultipartWriter.Copy | client/client.go:208 | a failure is reported; otherwise the reader's content is appended to the file part |
| HttpClient.MultipartWriter.Close | client/client.go:213 | a failure is reported; otherwise the writer is closed |
| HttpClient.MultipartHeaders | client/client.go:224-231 | Content-Type is the form-data type for the boundary, and the standard headers follow unchanged |
| HttpClient.BuildMultipartFormRequest | client/client.go:184-234 | fails exactly when some step fails, with the first failing step's error; otherwise the body was finalized by closing the writer and holds every form field once, the file's names and full content, and the boundary, and the headers are exactly MultipartHeaders |
| HttpClient.MultipartTestScenario | client/client_test.go:71-109 | a token client's multipart POST carries the form-data content type with the boundary, the bearer token, both fields and the file, in a finalized body |
| Logging.Record.AddAttrs | logging/gpc.go:58-80 | appends the attributes to the record's copy, and leaves time, level and message unchanged |
| Logging.Replacer | logging/gpc.go:85-102 | level becomes severity, and a WARN level becomes "WARNING"; time becomes timestamp; msg becomes message; every other attribute passes through unchanged |
| Logging.ReplacerAsWritten | logging/gpc.go:85-102 | the replacer as written panics exactly on a non-level value under "level", and otherwise renames level to severity |
| Logging.ReplacerAsWrittenPanics | logging/gpc.go:92 | the written type assertion fails on a caller's attribute "level" = "high", which the corrected replacer renames |
| Logging.ReplacerAgrees | logging/gpc.go:85-102 | wherever the written replacer does not panic, it agrees with the corrected one |
| Logging.ReplacerIdempotent | logging/gpc.go:85-102 | rewriting twice equals rewriting once, and the attribute's groups play no part |
| Logging.TraceAttrs | logging/gpc.go:58-66 | the three trace attributes in order: the trace path under the proper-base project, the span id, and the sampled flag |
| Logging.CorrelationAttrs | logging/gpc.go:69-80 | app, rid, flow-id and root-task-id in order, each from its context accessor |
| Logging.Enrichment | logging/gpc.go:53-80 | the trace attributes come first only for a valid span, and the four correlation attributes always come last |
| Logging.TraceOnlyWhenValid | logging/gpc.go:55 | a trace attribute is added exactly when the span context is valid |
| Logging.TraceIdRecoverable | logging/gpc.go:59 | the trace id can be read back from the trace attribute after its project prefix |
| Logging.BackgroundCorrelation | logging/gpc.go:69-80 | on a context without request values, all four correlation attributes are "" |
| Logging.Delegate.Handle | logging/gpc.go:82 | the wrapped handler receives the context and record once, and returns its answer for that pair |
| Logging.SpanContextLogHandler.constructor | logging/gpc.go:41-43 | the handler wraps the given delegate |
| Logging.SpanContextLogHandler.Handle | logging/gpc.go:53-83 | the delegate receives exactly one record, the original followed by the enrichment, and Handle returns the delegate's answer for that enriched record |

## Left out

- Header names are compared exactly. Go's canonicalisation of MIME header keys (`Header.Set` on "x-flow-id" addresses "X-Flow-Id") and multi-valued headers are not modelled. Of the fixed names the client sets, `proper-referer` and `traceparent` become `Proper-Referer` and `Traceparent` on the wire.
- HttpClient.SetGenericHeaders: the claims that an extra wins every clash and that the order extras are set in does not matter hold only for extra names that are already canonical and distinct after canonicalisation. In Go, an extra "authorization" replaces the bearer header, an extra "Traceparent" replaces the standard trace header, and two extras differing only in case collide, with the survivor depending on map order. The same limit applies to HttpClient.GenericHeaders, HttpClient.ExtrasWin and HttpClient.DoRequestWithExtraHeaders.
- The multipart body is modelled by its structure: boundary, fields in write order, and file part. Its byte encoding, the boundary's random generation and any quoting of the boundary are the standard library's. The boundary is an argument.
- `url.Parse`, `URL.String` before the query, and `Values.Encode` with its percent-encoding and key sorting are the standard library's. They are function arguments, and `Url.String` covers only the query and fragment.
- HttpClient.BuildUrl: requires the base URL to parse, because the code dereferences the nil URL `url.Parse` returns on failure, which panics.
- `http.NewRequest`'s own behaviour, such as an empty method meaning GET and the validation of the method and URL, is reduced to an optional failure argument.
- The `ctx` argument of `DoRequest`, `DoRequestWithExtraHeaders`, `DoRequestWithContentType`, `DoRequestRaw` and `BuildMultipartFormRequest` is unused by the code, and is omitted.
- Strings: a Dafny `string` stands for a Go string read one character per code point, except where bytes become text through `string(b)` (the status error's body). There each byte is read as one character, so a UTF-8 body such as "é" (bytes 0xC3 0xA9) appears as two characters. No property depends on the reading.
- Closing the response body is not modelled: the model has no resources. `io.ReadAll` is given: its result is the `ReadResult` inside the transport outcome, which is either a non-nil byte sequence or an error.
- HttpClient.DoRequestRaw: the response's status, headers and body stream are the transport's opaque answer. Nothing of them is interpreted.
- HttpClient.BuildMultipartFormRequest: takes the `MultipartFile` by value, so the nil `file` pointer that panics in the code cannot be passed. The reader's content is given whole, not streamed. The partial state of the buffer after a failing step is not observed, because the request is then discarded.
- ProperErrors.Error.Message: renders a wrapped error with the text it had when it was wrapped. Go formats the wrapped error with `%s` each time, so a wrapped error whose text later changes would render differently.
- ProperErrors: the data race from wrapping the shared package-level errors concurrently is not modelled (no concurrency). The struct's JSON tags are not modelled either.
- Logging: `SpanContextFromContext`, span validity and the hex rendering of trace and span IDs belong to the OpenTelemetry SDK, so the span context is an argument. The JSON handler's output format, `NewLogger`, `SetDefault` and the `Infof`/`Errorf` wrappers in the same file are outside the core.
- The tracing package and the log interfaces elsewhere in the repository are not part of this model.

## Findings

| source | as written | input that shows it | evidently intended | confidence | as-written member | corrected member |
|---|---|---|---|---|---|---|
| logging/gpc.go:92 | the value of any attribute keyed "level" is asserted to be an `slog.Level` with a one-result type assertion. The replacer is also applied to callers' own attributes, so it panics on any other value. | `slog.Info("x", "level", "high")`, which reaches the replacer as `Attr("level", StringValue("high"))` | the two-result form (`level, ok := …`), which leaves a non-level value unchanged | medium, not executed | Logging.ReplacerAsWritten (with Logging.ReplacerAsWrittenPanics) | Logging.Replacer (with Logging.ReplacerAgrees and Logging.ReplacerIdempotent) |
