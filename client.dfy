/** The HTTP client wrapper: builds outbound requests with the standard
    correlation headers, sends them through a caller-supplied transport, and
    maps the response status to a result or an error; also a multipart/form-data
    request builder and a query-string URL builder.

    Effects are parameters: process environment variables are an `Environment`,
    the transport (`HTTPClient.Do`) is a function from the outbound request to
    its outcome, and the failures the standard library may report while building
    a request are given as `Option<GoError>` values. */
module HttpClient {
  import opened GoBase

  // ---- Client and environment -------------------------------------------

  /** A `Client`: its transport is passed to each call; the token is fixed at
      construction. */
  datatype Client = Client(authorizationToken: string)

  /** A client with no token: its requests carry no Authorization header. */
  function NewClient(): (c: Client)
    ensures c.authorizationToken == ""
  {
    Client("")
  }

  function NewClientWithTokent(token: string): (c: Client)
    ensures c.authorizationToken == token
  {
    Client(token)
  }

  /** The process environment as seen by `os.Getenv`. */
  datatype Environment = Environment(vars: map<string, string>)

  /** `os.Getenv`: "" for an unset variable. */
  function Getenv(env: Environment, name: string): (value: string)
    ensures name in env.vars ==> value == env.vars[name]
    ensures name !in env.vars ==> value == ""
  {
    if name in env.vars then env.vars[name] else ""
  }

  /** The `traceparent` variable, "" when unset. */
  function GetTraceparent(env: Environment): (value: string)
    ensures "traceparent" in env.vars ==> value == env.vars["traceparent"]
    ensures "traceparent" !in env.vars ==> value == ""
  {
    Getenv(env, "traceparent")
  }

  /** The `FLOW` variable, "" when unset. */
  function GetFlowID(env: Environment): (value: string)
    ensures "FLOW" in env.vars ==> value == env.vars["FLOW"]
    ensures "FLOW" !in env.vars ==> value == ""
  {
    Getenv(env, "FLOW")
  }

  // ---- Requests -----------------------------------------------------------

  /** One part carrying a file in a multipart body. */
  datatype FilePart = FilePart(fieldName: string, fileName: string, content: seq<byte>)

  /** A multipart/form-data body, by structure: its boundary, the form fields
      in the order they were written, the file part, and whether the writer
      was closed (which writes the closing boundary and finalizes the body).
      The byte-level encoding is the standard library's and is not modelled. */
  datatype Payload = Payload(boundary: string, fields: seq<(string, string)>, file: FilePart, finished: bool)

  /** The body handed to `http.NewRequest`. */
  datatype Body = NoBody | Stream(data: seq<byte>) | Multipart(payload: Payload)

  /** What the transport sees of a request. */
  datatype Outbound = Outbound(verb: string, url: string, body: Body, header: map<string, string>)

  /** An `*http.Request`: its header map is changed in place by `Header.Set`. */
  class Request {
    const verb: string
    const url: string
    const body: Body
    var header: map<string, string>

    constructor (verb: string, url: string, body: Body)
      ensures this.verb == verb && this.url == url && this.body == body
      ensures header == map[]
    {
      this.verb := verb;
      this.url := url;
      this.body := body;
      header := map[];
    }

    function Snapshot(): (o: Outbound)
      reads this
      ensures o.verb == verb && o.url == url && o.body == body && o.header == header
    {
      Outbound(verb, url, body, header)
    }
  }

  /** `http.NewRequest`: `failure` is what the standard library reports for a
      method or URL it rejects; otherwise a fresh request with no headers. */
  method NewRequest(verb: string, url: string, body: Body, failure: Option<GoError>) returns (r: Result<Request>)
    ensures failure.Some? ==> r == Err(failure.value)
    ensures failure.None? ==> r.Ok? && fresh(r.value)
    ensures failure.None? ==> r.value.verb == verb && r.value.url == url && r.value.body == body
    ensures failure.None? ==> r.value.header == map[]
  {
    if failure.Some? {
      return Err(failure.value);
    }
    var req := new Request(verb, url, body);
    return Ok(req);
  }

  // ---- Header setters ----------------------------------------------------

  const AuthorizationHeader := "Authorization"
  const FlowIdHeader := "X-Flow-Id"
  const RefererHeader := "proper-referer"
  const TraceparentHeader := "traceparent"
  const ContentTypeHeader := "Content-Type"
  const BearerPrefix := "Bearer "

  method SetHeader(request: Request, headerName: string, headerValue: string)
    modifies request`header
    ensures request.header == old(request.header)[headerName := headerValue]
  {
    request.header := request.header[headerName := headerValue];
  }

  method SetAuthorizationHeader(request: Request, token: string)
    modifies request`header
    ensures request.header == old(request.header)["Authorization" := "Bearer " + token]
  {
    SetHeader(request, AuthorizationHeader, BearerPrefix + token);
  }

  method SetFlowID(request: Request, env: Environment)
    modifies request`header
    ensures request.header == old(request.header)["X-Flow-Id" := GetFlowID(env)]
  {
    SetHeader(request, FlowIdHeader, GetFlowID(env));
  }

  /** Both trace headers carry the same environment value. */
  method SetTraceparentHeader(request: Request, env: Environment)
    modifies request`header
    ensures request.header == old(request.header)["proper-referer" := GetTraceparent(env)]["traceparent" := GetTraceparent(env)]
  {
    SetHeader(request, RefererHeader, GetTraceparent(env));
    SetHeader(request, TraceparentHeader, GetTraceparent(env));
  }

  /** The headers every request from a client with `token` starts with: a
      bearer token only when one is configured, the flow id, and the two trace
      headers. */
  function StandardHeaders(token: string, env: Environment): (h: map<string, string>)
    ensures "Authorization" in h <==> token != ""
    ensures token != "" ==> h["Authorization"] == "Bearer " + token
    ensures "X-Flow-Id" in h && h["X-Flow-Id"] == Getenv(env, "FLOW")
    ensures "proper-referer" in h && "traceparent" in h
    ensures h["proper-referer"] == h["traceparent"] == Getenv(env, "traceparent")
    ensures h.Keys <= {"Authorization", "X-Flow-Id", "proper-referer", "traceparent"}
  {
    var auth := if token != "" then map[AuthorizationHeader := BearerPrefix + token] else map[];
    auth[FlowIdHeader := GetFlowID(env)][RefererHeader := GetTraceparent(env)][TraceparentHeader := GetTraceparent(env)]
  }

  /** The headers `setGenericHeaders` leaves on a request: the standard ones,
      then every caller extra written over them. */
  function GenericHeaders(token: string, env: Environment, extraHeaders: map<string, string>): (h: map<string, string>)
    ensures h.Keys == StandardHeaders(token, env).Keys + extraHeaders.Keys
    ensures forall name :: name in extraHeaders ==> h[name] == extraHeaders[name]
    ensures forall name :: name in StandardHeaders(token, env) && name !in extraHeaders ==>
              h[name] == StandardHeaders(token, env)[name]
  {
    StandardHeaders(token, env) + extraHeaders
  }

  /** The token a header map authenticates with, read back from its bearer
      Authorization header. */
  function BearerToken(h: map<string, string>): Option<string> {
    if "Authorization" in h && |h["Authorization"]| >= 7 && h["Authorization"][..7] == "Bearer "
    then Some(h["Authorization"][7..])
    else None
  }

  /** A configured token is exactly what the request authenticates with; with
      no token and no extras, nothing authenticates. */
  lemma BearerTokenRoundTrip(token: string, env: Environment)
    ensures BearerToken(StandardHeaders(token, env)) == if token != "" then Some(token) else None
    ensures BearerToken(GenericHeaders(token, env, map[])) == BearerToken(StandardHeaders(token, env))
  {
    var h := StandardHeaders(token, env);
    if token != "" {
      assert h["Authorization"][..7] == "Bearer ";
      assert h["Authorization"][7..] == token;
    }
    assert GenericHeaders(token, env, map[]) == h;
  }

  /** Caller extras win every clash, and with no extras the header set is
      exactly the standard one. */
  lemma ExtrasWin(token: string, env: Environment, extraHeaders: map<string, string>, name: string)
    requires name in extraHeaders
    ensures GenericHeaders(token, env, extraHeaders)[name] == extraHeaders[name]
    ensures GenericHeaders(token, env, map[]) == StandardHeaders(token, env)
  {
  }

  /** The header lines both request builders run: the bearer token when one
      is configured, then the flow id and the trace headers. */
  method SetStandardHeaders(request: Request, token: string, env: Environment)
    modifies request`header
    ensures request.header == old(request.header) + StandardHeaders(token, env)
  {
    if token != "" {
      SetAuthorizationHeader(request, token);
    }
    SetFlowID(request, env);
    SetTraceparentHeader(request, env);
  }

  /** Writing one more pending extra over the merged map. */
  lemma OverwriteStep(base: map<string, string>, extras: map<string, string>, pending: set<string>, name: string)
    requires name in pending && pending <= extras.Keys
    ensures (base + (extras - pending))[name := extras[name]] == base + (extras - (pending - {name}))
  {
  }

  /** `setGenericHeaders`: builds the request, then sets the standard headers
      and finally each extra header (in the map's iteration order, which does
      not affect the result since the names are distinct). */
  method SetGenericHeaders(
    c: Client, verb: string, url: string, body: Body,
    extraHeaders: map<string, string>, env: Environment, failure: Option<GoError>
  ) returns (r: Result<Request>)
    ensures failure.Some? ==> r == Err(failure.value)
    ensures failure.None? ==> r.Ok? && fresh(r.value)
    ensures failure.None? ==> r.value.verb == verb && r.value.url == url && r.value.body == body
    ensures failure.None? ==> r.value.header == GenericHeaders(c.authorizationToken, env, extraHeaders)
  {
    var built := NewRequest(verb, url, body, failure);
    if built.Err? {
      return Err(built.error);
    }
    var request := built.value;
    SetStandardHeaders(request, c.authorizationToken, env);
    ghost var standard := StandardHeaders(c.authorizationToken, env);
    assert request.header == standard;

    if |extraHeaders| != 0 {
      var pending := extraHeaders.Keys;
      while pending != {}
        invariant pending <= extraHeaders.Keys
        invariant request.header == standard + (extraHeaders - pending)
        decreases pending
      {
        var name :| name in pending;
        OverwriteStep(standard, extraHeaders, pending, name);
        SetHeader(request, name, extraHeaders[name]);
        pending := pending - {name};
      }
      assert extraHeaders - {} == extraHeaders;
    } else {
      assert extraHeaders == map[];
    }
    return Ok(request);
  }

  // ---- Executing ---------------------------------------------------------

  /** Reading the whole response body: the bytes `io.ReadAll` returned, or its
      error. A successful `io.ReadAll` always returns a non-nil slice (it starts
      from an allocated buffer), so the bytes are never nil. */
  datatype ReadResult = ReadOk(body: seq<byte>) | ReadErr(error: GoError)

  /** What `HTTPClient.Do` produced: a transport error, or a status code and
      the outcome of reading the body. */
  datatype TransportResult = TransportErr(error: GoError) | Resp(statusCode: int, read: ReadResult)

  const StatusOK := 200
  const StatusMultipleChoices := 300

  /** The error `execute` makes from a non-2xx status, as written: the body's
      text follows only a non-nil body. */
  function StatusError(status: int, body: ByteSlice): (e: GoError)
    ensures |e.message| >= 7 + |FormatInt(status)|
    ensures e.message[..7 + |FormatInt(status)|] == "status " + FormatInt(status)
    ensures body.Slice? <==> |e.message| > 7 + |FormatInt(status)|
  {
    if body.Slice?
    then GoError("status " + FormatInt(status) + ", message " + BytesToString(body.data))
    else GoError("status " + FormatInt(status))
  }

  /** A status error names its status, readable back as a number, and ends
      with the complete body, readable back as the same bytes. */
  lemma StatusErrorRecoverable(status: int, body: ByteSlice)
    ensures var m := StatusError(status, body).message;
      var n := |FormatInt(status)|;
      && |m| >= 7 + n && m[..7] == "status " && IsDecimal(m[7..7 + n]) && ParseInt(m[7..7 + n]) == status
      && (body.NilSlice? ==> |m| == 7 + n)
      && (body.Slice? ==> |m| == 7 + n + 10 + |body.data| && m[7 + n..7 + n + 10] == ", message "
                          && IsByteString(m[|m| - |body.data|..])
                          && StringToBytes(m[|m| - |body.data|..]) == body.data)
  {
    var m := StatusError(status, body).message;
    var digits := FormatInt(status);
    FormatIntRoundTrip(status);
    assert m[7..7 + |digits|] == digits;
    if body.Slice? {
      assert m[|m| - |body.data|..] == BytesToString(body.data);
      BytesStringRoundTrip(body.data);
    }
  }

  /** `execute` after the transport call: a transport error or a body-read
      error is returned as it is; otherwise a 2xx status yields the body and
      any other status a status error. */
  function Execute(t: TransportResult): (r: Result<seq<byte>>)
    ensures t.TransportErr? ==> r == Err(t.error)
    ensures t.Resp? && t.read.ReadErr? ==> r == Err(t.read.error)
    ensures r.Ok? <==> t.Resp? && t.read.ReadOk? && 200 <= t.statusCode < 300
    ensures r.Ok? ==> r.value == t.read.body
    ensures t.Resp? && t.read.ReadOk? && !(200 <= t.statusCode < 300) ==>
              r == Err(StatusError(t.statusCode, Slice(t.read.body)))
  {
    match t
    case TransportErr(e) => Err(e)
    case Resp(status, read) =>
      match read
      case ReadErr(e) => Err(e)
      case ReadOk(bodyBytes) =>
        if status < StatusOK || status >= StatusMultipleChoices then Err(StatusError(status, Slice(bodyBytes)))
        else Ok(bodyBytes)
  }

  /** The bare "status N" branch is dead code: a successfully read body is
      never nil, so a status error always carries the body's text. */
  lemma BareStatusUnreachable(t: TransportResult)
    requires t.Resp? && t.read.ReadOk?
    ensures Execute(t) != Err(StatusError(t.statusCode, NilSlice))
    ensures Execute(t).Err? ==> |Execute(t).error.message| > 7 + |FormatInt(t.statusCode)|
  {
  }

  lemma FormatInt500()
    ensures FormatInt(500) == "500"
  {
    assert Digits(5) == "5";
    assert Digits(50) == "50";
  }

  lemma ServerErrorText()
    ensures "status " + "500" + ", message " + "server exploded" == "status 500, message server exploded"
  {
  }

  /** A 500 whose body is "server exploded" is reported with both. */
  lemma ServerErrorExample(body: seq<byte>)
    requires body == StringToBytes("server exploded")
    ensures Execute(Resp(500, ReadOk(body))) == Err(GoError("status 500, message server exploded"))
  {
    FormatInt500();
    StringBytesRoundTrip("server exploded");
    ServerErrorText();
  }

  /** `execute`: one transport call, then the classification above. */
  method ExecuteRequest(request: Request, transport: Outbound -> TransportResult) returns (r: Result<seq<byte>>)
    ensures r == Execute(transport(request.Snapshot()))
  {
    var res := transport(request.Snapshot());
    r := Execute(res);
  }

  /** The outcome of building a request carrying exactly `header` and
      executing it. */
  function Dispatch(
    verb: string, url: string, body: Body, header: map<string, string>,
    failure: Option<GoError>, transport: Outbound -> TransportResult
  ): Result<seq<byte>> {
    if failure.Some? then Err(failure.value) else Execute(transport(Outbound(verb, url, body, header)))
  }

  method DoRequest(
    c: Client, verb: string, url: string, body: Body, env: Environment,
    failure: Option<GoError>, transport: Outbound -> TransportResult
  ) returns (r: Result<seq<byte>>)
    ensures r == Dispatch(verb, url, body, StandardHeaders(c.authorizationToken, env), failure, transport)
  {
    var request := SetGenericHeaders(c, verb, url, body, map[], env, failure);
    if request.Err? {
      return Err(request.error);
    }
    assert GenericHeaders(c.authorizationToken, env, map[]) == StandardHeaders(c.authorizationToken, env);
    r := ExecuteRequest(request.value, transport);
  }

  method DoRequestWithExtraHeaders(
    c: Client, verb: string, url: string, body: Body, extraHeaders: map<string, string>,
    env: Environment, failure: Option<GoError>, transport: Outbound -> TransportResult
  ) returns (r: Result<seq<byte>>)
    ensures r == Dispatch(verb, url, body, GenericHeaders(c.authorizationToken, env, extraHeaders), failure, transport)
  {
    var request := SetGenericHeaders(c, verb, url, body, extraHeaders, env, failure);
    if request.Err? {
      return Err(request.error);
    }
    r := ExecuteRequest(request.value, transport);
  }

  /** The headers `DoRequestWithContentType` sends: a non-empty content type
      is written last, over the generic headers; an empty one changes nothing. */
  function ContentTypeHeaders(token: string, env: Environment, contentType: string): (h: map<string, string>)
    ensures contentType == "" ==> h == StandardHeaders(token, env)
    ensures contentType != "" ==> "Content-Type" in h && h["Content-Type"] == contentType
    ensures forall name :: name in StandardHeaders(token, env) && name != "Content-Type" ==>
              name in h && h[name] == StandardHeaders(token, env)[name]
    ensures h.Keys == StandardHeaders(token, env).Keys + (if contentType != "" then {"Content-Type"} else {})
  {
    var h := GenericHeaders(token, env, map[]);
    if contentType != "" then h[ContentTypeHeader := contentType] else h
  }

  method DoRequestWithContentType(
    c: Client, verb: string, url: string, body: Body, contentType: string,
    env: Environment, failure: Option<GoError>, transport: Outbound -> TransportResult
  ) returns (r: Result<seq<byte>>)
    ensures r == Dispatch(verb, url, body, ContentTypeHeaders(c.authorizationToken, env, contentType), failure, transport)
  {
    var built := SetGenericHeaders(c, verb, url, body, map[], env, failure);
    if built.Err? {
      return Err(built.error);
    }
    var request := built.value;
    if contentType != "" {
      SetHeader(request, ContentTypeHeader, contentType);
    }
    r := ExecuteRequest(request, transport);
  }

  /** `DoRequestRaw`: the transport's answer, untouched: no body is read and
      no status is interpreted. */
  method DoRequestRaw(request: Request, transport: Outbound -> TransportResult) returns (r: TransportResult)
    ensures r == transport(request.Snapshot())
  {
    r := transport(request.Snapshot());
  }

  // ---- The package tests' transport ---------------------------------------

  /** The test double: it times out when asked to check a header that is not
      as expected, and otherwise answers `status` with "Hello, client". */
  function MockTransport(checkToken: bool, checkContentType: bool, status: int, hello: seq<byte>): (t: Outbound -> TransportResult)
    ensures forall o :: t(o).Resp? ==> t(o) == Resp(status, ReadOk(hello))
    ensures forall o :: t(o).TransportErr? <==>
              (checkToken && !("Authorization" in o.header && o.header["Authorization"] == "Bearer myToken")) ||
              (checkContentType && !("Content-Type" in o.header && o.header["Content-Type"] != ""))
  {
    (o: Outbound) =>
      if checkToken && (("Authorization" !in o.header) || o.header["Authorization"] != "Bearer myToken") then
        TransportErr(GoError("http: Handler timeout"))
      else if checkContentType && (("Content-Type" !in o.header) || o.header["Content-Type"] == "") then
        TransportErr(GoError("http: Handler timeout"))
      else Resp(status, ReadOk(hello))
  }

  /** The client tests: the token is sent by a token client, a plain client
      still succeeds, a 500 is an error with no body returned, and a content
      type reaches the transport. */
  lemma ClientTestScenarios(env: Environment, url: string, hello: seq<byte>)
    ensures Dispatch("GET", url, NoBody, StandardHeaders(NewClientWithTokent("myToken").authorizationToken, env),
                     None, MockTransport(true, false, 200, hello)) == Ok(hello)
    ensures "Authorization" !in StandardHeaders(NewClient().authorizationToken, env)
    ensures Dispatch("GET", url, NoBody, StandardHeaders(NewClient().authorizationToken, env),
                     None, MockTransport(false, false, 200, hello)) == Ok(hello)
    ensures Dispatch("GET", url, NoBody, StandardHeaders(NewClient().authorizationToken, env),
                     None, MockTransport(false, false, 500, hello)).Err?
    ensures Dispatch("GET", url, NoBody, ContentTypeHeaders(NewClient().authorizationToken, env, "application/json"),
                     None, MockTransport(false, true, 200, hello)) == Ok(hello)
  {
    assert "Bearer " + "myToken" == "Bearer myToken";
  }

  // ---- BuildUrl ------------------------------------------------------------

  /** `url.Values`: each key with its list of values. */
  type Values = map<string, seq<string>>

  /** A parsed `*url.URL`, split at the query: `head` renders everything before
      it (scheme, authority, path), `forceQuery` is set for a bare trailing '?'. */
  datatype Url = Url(head: string, forceQuery: bool, rawQuery: string, fragment: string) {
    /** `URL.String()` for the part this model tracks. */
    function String(): string {
      head + (if forceQuery || rawQuery != "" then "?" + rawQuery else "")
           + (if fragment != "" then "#" + fragment else "")
    }
  }

  /** `Values.Add`. */
  function Add(v: Values, key: string, value: string): (r: Values)
    ensures r.Keys == v.Keys + {key}
    ensures r[key] == (if key in v then v[key] else []) + [value]
    ensures forall k :: k in v && k != key ==> r[k] == v[k]
  {
    v[key := (if key in v then v[key] else []) + [value]]
  }

  /** The query values `BuildUrl` encodes: one value per parameter. */
  function QueryValues(params: map<string, string>): (v: Values)
    ensures v.Keys == params.Keys
    ensures forall k :: k in v ==> v[k] == [params[k]]
  {
    map k | k in params :: [params[k]]
  }

  /** `Values.Get` for every key: the first value of each. */
  function FirstValues(v: Values): (m: map<string, string>)
    ensures m.Keys == set k | k in v && v[k] != []
  {
    map k | k in v && v[k] != [] :: v[k][0]
  }

  /** Reading the query back yields exactly the parameters. */
  lemma QueryValuesRoundTrip(params: map<string, string>)
    ensures FirstValues(QueryValues(params)) == params
  {
    var back := FirstValues(QueryValues(params));
    assert back.Keys == params.Keys;
  }

  /** Adding one more pending parameter to the values built so far. */
  lemma AddStep(params: map<string, string>, pending: set<string>, param: string)
    requires param in pending && pending <= params.Keys
    ensures Add(QueryValues(params - pending), param, params[param]) == QueryValues(params - (pending - {param}))
  {
    var before := QueryValues(params - pending);
    var after := QueryValues(params - (pending - {param}));
    var added := Add(before, param, params[param]);
    assert param !in before;
    assert added.Keys == after.Keys;
    forall k | k in after
      ensures added[k] == after[k]
    {
      if k != param {
        assert k in before;
      }
    }
  }

  /** `BuildUrl`: `parse` is `url.Parse` (the base must parse) and `encode`
      is `Values.Encode`. The base's own query is discarded and replaced by
      the encoded parameters; the rest of the URL is kept. */
  method BuildUrl(
    c: Client, baseURL: string, params: map<string, string>,
    parse: string -> Option<Url>, encode: Values -> string
  ) returns (s: string)
    requires parse(baseURL).Some?
    ensures s == parse(baseURL).value.(rawQuery := encode(QueryValues(params))).String()
  {
    var u := parse(baseURL).value;
    var queryParams: Values := map[];
    var pending := params.Keys;
    while pending != {}
      invariant pending <= params.Keys
      invariant queryParams == QueryValues(params - pending)
      decreases pending
    {
      var param :| param in pending;
      AddStep(params, pending, param);
      queryParams := Add(queryParams, param, params[param]);
      pending := pending - {param};
    }
    assert params - {} == params;
    u := u.(rawQuery := encode(queryParams));
    s := u.String();
  }

  /** With no parameters (which `Values.Encode` renders as ""), the result is
      the base without its query. */
  lemma NoParamsDropsQuery(u: Url, encode: Values -> string)
    requires !u.forceQuery && encode(map[]) == ""
    ensures u.(rawQuery := encode(QueryValues(map[]))).String() == u.(rawQuery := "").String()
    ensures u.(rawQuery := "").String() == u.head + (if u.fragment != "" then "#" + u.fragment else "")
  {
    assert QueryValues(map[]) == map[];
  }

  // ---- Multipart ---------------------------------------------------------

  /** `MultipartFile`; `content` is everything its reader yields. */
  datatype MultipartFile = MultipartFile(fieldName: string, fileName: string, content: seq<byte>)

  /** The failures the writer, the file's reader and `http.NewRequest` may
      report, one per step; `writeField` maps a field name to the error writing
      that field reports. */
  datatype Faults = Faults(
    writeField: map<string, GoError>,
    createFormFile: Option<GoError>,
    copy: Option<GoError>,
    close: Option<GoError>,
    newRequest: Option<GoError>)

  const FormDataPrefix := "multipart/form-data; boundary="

  /** `Writer.FormDataContentType()`. */
  function FormDataContentType(boundary: string): (ct: string)
    ensures |ct| == 30 + |boundary| && ct[..30] == "multipart/form-data; boundary=" && ct[30..] == boundary
  {
    FormDataPrefix + boundary
  }

  /** The fields of a payload read back as a map. */
  function FieldMap(fields: seq<(string, string)>): map<string, string> {
    if fields == [] then map[]
    else FieldMap(fields[..|fields| - 1])[fields[|fields| - 1].0 := fields[|fields| - 1].1]
  }

  /** No field name is written twice. */
  predicate DistinctNames(fields: seq<(string, string)>) {
    fields == [] ||
    (DistinctNames(fields[..|fields| - 1]) && fields[|fields| - 1].0 !in FieldMap(fields[..|fields| - 1]))
  }

  lemma AppendField(fields: seq<(string, string)>, name: string, value: string)
    ensures FieldMap(fields + [(name, value)]) == FieldMap(fields)[name := value]
    ensures DistinctNames(fields + [(name, value)]) <==> DistinctNames(fields) && name !in FieldMap(fields)
  {
    assert (fields + [(name, value)])[..|fields|] == fields;
  }

  /** Recording one more pending field in the written map. */
  lemma FieldStep(formData: map<string, string>, pending: set<string>, name: string)
    requires name in pending && pending <= formData.Keys
    ensures (formData - pending)[name := formData[name]] == formData - (pending - {name})
  {
  }

  /** `multipart.Writer` writing into a buffer: what it has written so far, by structure. */
  class MultipartWriter {
    const boundary: string
    var fields: seq<(string, string)>
    var file: Option<FilePart>
    var closed: bool

    constructor (boundary: string)
      ensures this.boundary == boundary && fields == [] && file == None && !closed
    {
      this.boundary := boundary;
      fields := [];
      file := None;
      closed := false;
    }

    method WriteField(name: string, value: string, failure: Option<GoError>) returns (err: Option<GoError>)
      modifies this`fields
      ensures err == failure
      ensures fields == if failure.None? then old(fields) + [(name, value)] else old(fields)
    {
      if failure.Some? {
        return failure;
      }
      fields := fields + [(name, value)];
      return None;
    }

    method CreateFormFile(fieldName: string, fileName: string, failure: Option<GoError>) returns (err: Option<GoError>)
      modifies this`file
      ensures err == failure
      ensures file == if failure.None? then Some(FilePart(fieldName, fileName, [])) else old(file)
    {
      if failure.Some? {
        return failure;
      }
      file := Some(FilePart(fieldName, fileName, []));
      return None;
    }

    /** `io.Copy` from the file's reader into the file part. */
    method Copy(content: seq<byte>, failure: Option<GoError>) returns (err: Option<GoError>)
      requires file.Some?
      modifies this`file
      ensures err == failure
      ensures file == if failure.None? then Some(old(file).value.(content := old(file).value.content + content)) else old(file)
    {
      if failure.Some? {
        return failure;
      }
      file := Some(file.value.(content := file.value.content + content));
      return None;
    }

    method Close(failure: Option<GoError>) returns (err: Option<GoError>)
      modifies this`closed
      ensures err == failure
      ensures closed == (failure.None? || old(closed))
    {
      if failure.Some? {
        return failure;
      }
      closed := true;
      return None;
    }
  }

  /** Some form field's write fails. */
  predicate FieldWriteFails(formData: map<string, string>, faults: Faults) {
    exists name :: name in formData && name in faults.writeField
  }

  predicate MultipartFails(formData: map<string, string>, faults: Faults) {
    FieldWriteFails(formData, faults) || faults.createFormFile.Some? || faults.copy.Some?
    || faults.close.Some? || faults.newRequest.Some?
  }

  /** `e` is the error of the first failing step: a failing field write (any of
      them, as fields are written in map order), else file-part creation, copy,
      close, request creation, in that order. */
  predicate FirstFailure(formData: map<string, string>, faults: Faults, e: GoError) {
    if FieldWriteFails(formData, faults) then
      exists name :: name in formData && name in faults.writeField && faults.writeField[name] == e
    else if faults.createFormFile.Some? then e == faults.createFormFile.value
    else if faults.copy.Some? then e == faults.copy.value
    else if faults.close.Some? then e == faults.close.value
    else faults.newRequest == Some(e)
  }

  /** The headers of a built multipart request: its content type, then the
      standard headers; no caller extras. */
  function MultipartHeaders(token: string, env: Environment, boundary: string): (h: map<string, string>)
    ensures h.Keys == StandardHeaders(token, env).Keys + {"Content-Type"}
    ensures h["Content-Type"] == FormDataContentType(boundary)
    ensures forall name :: name in StandardHeaders(token, env) ==> h[name] == StandardHeaders(token, env)[name]
  {
    map[ContentTypeHeader := FormDataContentType(boundary)] + StandardHeaders(token, env)
  }

  /** `BuildMultipartFormRequest`: writes every form field, the file part and
      its content, closes the writer, then builds the request and sets its
      headers. The first failing step aborts with that step's error and no
      request. `boundary` is the writer's randomly generated boundary. */
  method BuildMultipartFormRequest(
    c: Client, verb: string, url: string, formData: map<string, string>,
    file: MultipartFile, boundary: string, env: Environment, faults: Faults
  ) returns (r: Result<Request>)
    ensures r.Err? <==> MultipartFails(formData, faults)
    ensures r.Err? ==> FirstFailure(formData, faults, r.error)
    ensures r.Ok? ==> r.value.verb == verb && r.value.url == url
    ensures r.Ok? ==> (r.value.body.Multipart?
      && r.value.body.payload.boundary == boundary
      && r.value.body.payload.finished
      && DistinctNames(r.value.body.payload.fields)
      && FieldMap(r.value.body.payload.fields) == formData
      && r.value.body.payload.file == FilePart(file.fieldName, file.fileName, file.content))
    ensures r.Ok? ==> r.value.header == MultipartHeaders(c.authorizationToken, env, boundary)
  {
    var writer := new MultipartWriter(boundary);

    var pending := formData.Keys;
    while pending != {}
      invariant pending <= formData.Keys
      invariant forall name :: name in formData && name !in pending ==> name !in faults.writeField
      invariant DistinctNames(writer.fields) && FieldMap(writer.fields) == formData - pending
      invariant writer.file == None && !writer.closed
      decreases pending
    {
      var name :| name in pending;
      var failure := if name in faults.writeField then Some(faults.writeField[name]) else None;
      AppendField(writer.fields, name, formData[name]);
      FieldStep(formData, pending, name);
      var err := writer.WriteField(name, formData[name], failure);
      if err.Some? {
        return Err(err.value);
      }
      pending := pending - {name};
    }
    assert formData - {} == formData;
    assert !FieldWriteFails(formData, faults);

    var err := writer.CreateFormFile(file.fieldName, file.fileName, faults.createFormFile);
    if err.Some? {
      return Err(err.value);
    }
    err := writer.Copy(file.content, faults.copy);
    if err.Some? {
      return Err(err.value);
    }
    err := writer.Close(faults.close);
    if err.Some? {
      return Err(err.value);
    }

    var payload := Payload(boundary, writer.fields, writer.file.value, writer.closed);
    var built := NewRequest(verb, url, Multipart(payload), faults.newRequest);
    if built.Err? {
      return Err(built.error);
    }
    var request := built.value;
    SetHeader(request, ContentTypeHeader, FormDataContentType(writer.boundary));
    SetStandardHeaders(request, c.authorizationToken, env);
    assert request.header == MultipartHeaders(c.authorizationToken, env, boundary);
    return Ok(request);
  }

  /** The multipart test: two fields and "test.txt" under "file", built by a
      token client with no failing step. */
  method MultipartTestScenario(env: Environment, boundary: string, content: seq<byte>) returns (r: Result<Request>)
    ensures r.Ok? && r.value.verb == "POST"
    ensures r.value.header == MultipartHeaders("myToken", env, boundary)
    ensures r.value.header["Content-Type"][..30] == "multipart/form-data; boundary="
    ensures r.value.header["Content-Type"][30..] == boundary
    ensures r.value.header["Authorization"] == "Bearer myToken"
    ensures r.value.body.Multipart? && r.value.body.payload.file == FilePart("file", "test.txt", content)
    ensures r.value.body.payload.finished
    ensures FieldMap(r.value.body.payload.fields) == map["field1" := "value1", "field2" := "value2"]
  {
    var client := Client("myToken");
    var formData := map["field1" := "value1", "field2" := "value2"];
    var noFaults := Faults(map[], None, None, None, None);
    r := BuildMultipartFormRequest(client, "POST", "http://example.com", formData,
                                   MultipartFile("file", "test.txt", content), boundary, env, noFaults);
  }
}
