/** The test client for Loki's HTTP API: construction with options, pushing one log
    line, flushing, reading metrics, instant and range queries, and the label
    endpoints. Every exchange with the server is a parameter `reply` (what sending the
    request and reading its body gives back); the JSON parser that turns a body into
    a value is a parameter `parse`. */
module LokiClient {
  import opened Wrappers
  import opened Decimal
  import opened Json
  import opened Http
  import opened Errors
  import opened Transport
  import opened Results

  // ---------------------------------------------------------------- options and New

  /** A `CortexClientOption`: either an `InjectHeadersOption`, or some other
      implementation of the interface, known here only by what its `Type()` returns. */
  datatype ClientOption =
    | InjectHeadersOption(headers: Header)
    | ForeignOption(typeName: string)
  {
    function Type(): (t: string)
      ensures InjectHeadersOption? ==> t == "headerinject"
      ensures ForeignOption? ==> t == typeName
    {
      match this
      case InjectHeadersOption(_) => "headerinject"
      case ForeignOption(t) => t
    }
  }

  /** An option that claims to be a header injection but is not an
      `InjectHeadersOption`: the type assertion in `New` panics on it. */
  predicate Impostor(o: ClientOption)
  {
    o.Type() == "headerinject" && !o.InjectHeadersOption?
  }

  predicate Panics(opts: seq<ClientOption>)
  {
    exists i :: 0 <= i < |opts| && Impostor(opts[i])
  }

  /** The headers the transport ends up injecting: those of the last
      `InjectHeadersOption`, or none. */
  function SelectedInjectHeaders(opts: seq<ClientOption>): (r: Header)
    ensures r == map[] || exists i :: 0 <= i < |opts| && opts[i].InjectHeadersOption? && r == opts[i].headers
  {
    if opts == [] then map[]
    else if opts[|opts| - 1].InjectHeadersOption? then opts[|opts| - 1].headers
    else SelectedInjectHeaders(opts[..|opts| - 1])
  }

  /** Without header-injection options nothing is injected. */
  lemma {:induction false} NoInjectOption(opts: seq<ClientOption>)
    requires forall i :: 0 <= i < |opts| ==> !opts[i].InjectHeadersOption?
    ensures SelectedInjectHeaders(opts) == map[]
  {
    if opts != [] {
      assert !opts[|opts| - 1].InjectHeadersOption?;
      NoInjectOption(opts[..|opts| - 1]);
    }
  }

  /** The last header-injection option wins over every earlier one. */
  lemma {:induction false} LastInjectOptionWins(opts: seq<ClientOption>, i: nat)
    requires i < |opts| && opts[i].InjectHeadersOption?
    requires forall j :: i < j < |opts| ==> !opts[j].InjectHeadersOption?
    ensures SelectedInjectHeaders(opts) == opts[i].headers
  {
    if i < |opts| - 1 {
      assert !opts[|opts| - 1].InjectHeadersOption?;
      LastInjectOptionWins(opts[..|opts| - 1], i);
    }
  }

  lemma SelectedStep(opts: seq<ClientOption>, i: nat)
    requires i < |opts|
    ensures SelectedInjectHeaders(opts[..i + 1]) ==
      if opts[i].InjectHeadersOption? then opts[i].headers else SelectedInjectHeaders(opts[..i])
  {
    assert opts[..i + 1][..i] == opts[..i];
  }

  /** `New`: a client for tenant `instanceID`, talking to `baseURL`, whose clock
      reads `now`. `null` stands for the panic of an impostor option. */
  method New(instanceID: string, token: string, baseURL: string, opts: seq<ClientOption>, now: int)
    returns (c: Client?)
    ensures c == null <==> Panics(opts)
    ensures c != null ==> fresh(c) && fresh(c.transport)
    ensures c != null ==> c.Now == now && c.baseURL == baseURL && c.instanceID == instanceID
    ensures c != null ==> c.transport.instanceID == instanceID && c.transport.token == token
    ensures c != null ==> c.transport.injectHeaders == SelectedInjectHeaders(opts)
  {
    var rt := new RoundTripper(instanceID, token);
    var panicked := ApplyOptions(rt, opts);
    if panicked {
      return null;
    }
    c := new Client(now, rt, baseURL, instanceID);
  }

  /** The option loop of `New`: each header-injection option replaces the headers
      chosen so far. */
  method ApplyOptions(rt: RoundTripper, opts: seq<ClientOption>) returns (panicked: bool)
    modifies rt
    ensures panicked <==> Panics(opts)
    ensures !panicked ==> rt.injectHeaders == SelectedInjectHeaders(opts)
  {
    rt.injectHeaders := map[];
    for i := 0 to |opts|
      invariant rt.injectHeaders == SelectedInjectHeaders(opts[..i])
      invariant forall j :: 0 <= j < i ==> !Impostor(opts[j])
    {
      SelectedStep(opts, i);
      var opt := opts[i];
      if opt.Type() == "headerinject" {
        if !opt.InjectHeadersOption? {
          assert Impostor(opts[i]);
          return true;
        }
        rt.injectHeaders := opt.headers;
      }
      assert !Impostor(opts[i]);
    }
    assert opts[..|opts|] == opts;
    return false;
  }

  // ---------------------------------------------------------------- time stamps

  const Hour := 3600 * NanosPerSecond

  /** `formatTS`: a time in nanoseconds since the Unix epoch, as a decimal string. */
  function FormatTS(ts: int): (s: string)
    ensures ParseInt(s) == Some(ts)
  {
    ParseFormatInt(ts);
    FormatInt(ts)
  }

  /** The parameters of an instant query at `now`: the query, and a time one second ahead. */
  function InstantQueryParams(now: int, query: string): (p: map<string, string>)
    ensures p.Keys == {"query", "time"} && p["query"] == query
    ensures ParseInt(p["time"]) == Some(now + NanosPerSecond)
  {
    map["query" := query, "time" := FormatTS(now + NanosPerSecond)]
  }

  /** The parameters of a range query at `now`: from two hours back to one second ahead. */
  function RangeQueryParams(now: int, query: string): (p: map<string, string>)
    ensures p.Keys == {"query", "start", "end"} && p["query"] == query
    ensures ParseInt(p["start"]) == Some(now - 2 * Hour)
    ensures ParseInt(p["end"]) == Some(now + NanosPerSecond)
  {
    map["query" := query, "start" := FormatTS(now - 2 * Hour), "end" := FormatTS(now + NanosPerSecond)]
  }

  /** The range ends where the instant query looks, spans two hours and one second
      around `now`, and does not depend on the query text. */
  lemma RangeWindow(now: int, query: string, other: string)
    ensures RangeQueryParams(now, query)["end"] == InstantQueryParams(now, query)["time"]
    ensures RangeQueryParams(now, query)["start"] == RangeQueryParams(now, other)["start"]
    ensures RangeQueryParams(now, query)["end"] == RangeQueryParams(now, other)["end"]
    ensures InstantQueryParams(now, query)["time"] == InstantQueryParams(now, other)["time"]
    ensures var p := RangeQueryParams(now, query);
      ParseInt(p["end"]).value - ParseInt(p["start"]).value == 2 * Hour + NanosPerSecond
    ensures var p := RangeQueryParams(now, query);
      ParseInt(p["start"]).value < now < ParseInt(p["end"]).value
  {
  }

  // ---------------------------------------------------------------- the push body

  const JobLabels: map<string, string> := map["job" := "varlog"]

  /** `base` with each map of `ms` written over it in turn. */
  function Overlay(base: map<string, string>, ms: seq<map<string, string>>): (r: map<string, string>)
    ensures forall k :: k in r <==> k in base || exists i :: 0 <= i < |ms| && k in ms[i]
  {
    if ms == [] then base else Overlay(base, ms[..|ms| - 1]) + ms[|ms| - 1]
  }

  /** A label takes its value from the last extra map that has it. */
  lemma {:induction false} OverlayLastWins(base: map<string, string>, ms: seq<map<string, string>>, i: nat, k: string)
    requires i < |ms| && k in ms[i]
    requires forall j :: i < j < |ms| ==> k !in ms[j]
    ensures k in Overlay(base, ms) && Overlay(base, ms)[k] == ms[i][k]
  {
    if i < |ms| - 1 {
      assert k !in ms[|ms| - 1];
      OverlayLastWins(base, ms[..|ms| - 1], i, k);
    }
  }

  /** A label no extra map has keeps its base value. */
  lemma {:induction false} OverlayKeepsBase(base: map<string, string>, ms: seq<map<string, string>>, k: string)
    requires k in base
    requires forall j :: 0 <= j < |ms| ==> k !in ms[j]
    ensures k in Overlay(base, ms) && Overlay(base, ms)[k] == base[k]
  {
    if ms != [] {
      assert k !in ms[|ms| - 1];
      OverlayKeepsBase(base, ms[..|ms| - 1], k);
    }
  }

  /** The stream `pushLogLine` builds: the job label overlaid with the extra
      labels, and the one `[timestamp, line]` pair. The labels are copied key by
      key in whatever order the maps yield them. */
  method BuildStream(line: string, timestamp: int, extraLabelList: seq<map<string, string>>)
    returns (s: StreamValues)
    ensures s == StreamValues(Overlay(JobLabels, extraLabelList), [[FormatTS(timestamp), line]])
  {
    var labels := JobLabels;
    for i := 0 to |extraLabelList|
      invariant labels == Overlay(JobLabels, extraLabelList[..i])
    {
      assert extraLabelList[..i + 1][..i] == extraLabelList[..i];
      var labelList := extraLabelList[i];
      ghost var before := labels;
      var pending := labelList.Keys;
      while pending != {}
        invariant pending <= labelList.Keys
        invariant labels == before + (labelList - pending)
        decreases pending
      {
        var k :| k in pending;
        CopyOneMore(before, labelList, pending, k);
        labels := labels[k := labelList[k]];
        pending := pending - {k};
      }
      assert labelList - {} == labelList;
    }
    assert extraLabelList[..|extraLabelList|] == extraLabelList;
    s := StreamValues(labels, [[FormatTS(timestamp), line]]);
  }

  lemma CopyOneMore(before: map<string, string>, labelList: map<string, string>, pending: set<string>, k: string)
    requires k in pending && pending <= labelList.Keys
    ensures (before + (labelList - pending))[k := labelList[k]] == before + (labelList - (pending - {k}))
  {
  }

  /** The body of a push: `{"streams": [s]}`. */
  function PushBody(s: StreamValues): (b: Json)
    ensures b.JObject? && b.fields.Keys == {"streams"}
    ensures b.fields["streams"].JArray? && |b.fields["streams"].elems| == 1
    ensures b.fields["streams"].elems[0] == EncodeStream(s)
  {
    JObject(map["streams" := JArray([EncodeStream(s)])])
  }

  /** The server reads the push body back as exactly the one stream. */
  lemma PushBodyRoundTrip(s: StreamValues)
    ensures DecodeStreamList(PushBody(s).fields["streams"]) == Ok([s])
  {
    StreamRoundTrip(s);
    DecodeListAll([EncodeStream(s)], DecodeStreamValues, [s]);
  }

  /** What the server reads from a pushed line: the line itself, its timestamp, and
      the job label unless an extra map overrides it. */
  lemma PushedLine(line: string, timestamp: int, extraLabelList: seq<map<string, string>>)
    ensures var s := StreamValues(Overlay(JobLabels, extraLabelList), [[FormatTS(timestamp), line]]);
      DecodeStreamList(PushBody(s).fields["streams"]) == Ok([s]) &&
      ParseInt(s.Values[0][0]) == Some(timestamp) && s.Values[0][1] == line &&
      "job" in s.Stream &&
      (extraLabelList == [] ==> s.Stream == JobLabels) &&
      ((forall j :: 0 <= j < |extraLabelList| ==> "job" !in extraLabelList[j]) ==> s.Stream["job"] == "varlog")
  {
    var s := StreamValues(Overlay(JobLabels, extraLabelList), [[FormatTS(timestamp), line]]);
    PushBodyRoundTrip(s);
    if forall j :: 0 <= j < |extraLabelList| ==> "job" !in extraLabelList[j] {
      OverlayKeepsBase(JobLabels, extraLabelList, "job");
    }
  }

  // ---------------------------------------------------------------- outcomes

  /** The result of a push: success exactly on a 2xx status; otherwise the body
      as the error, or the failure to read it. */
  function PushOutcome(reply: Exchange): (r: Option<Error>)
    ensures r.None? <==> reply.Responded? && 200 <= reply.StatusCode < 300
    ensures reply.DoFailed? ==> r == Some(TransportError(reply.cause))
    ensures reply.Responded? && !(200 <= reply.StatusCode < 300) && reply.body.BodyBytes? ==>
      r == Some(StatusWithBody(reply.StatusCode, reply.body.bytes))
    ensures reply.Responded? && !(200 <= reply.StatusCode < 300) && reply.body.ReadFailure? ==>
      r == Some(ReadingFailedWithStatus(reply.StatusCode, reply.body.cause))
  {
    match reply
    case DoFailed(cause) => Some(TransportError(cause))
    case Responded(code, body) =>
      if Is2xx(code) then None
      else
        match body
        case BodyBytes(b) => Some(StatusWithBody(code, b))
        case ReadFailure(cause) => Some(ReadingFailedWithStatus(code, cause))
  }

  /** A rejected push reports the status code and the server's explanation. */
  lemma PushRejection(code: int, body: seq<byte>)
    requires !(200 <= code < 300)
    ensures var e := PushOutcome(Responded(code, BodyBytes(body)));
      e.Some? && Contains(Message(e.value), FormatInt(code)) &&
      |Message(e.value)| >= |body| && Message(e.value)[|Message(e.value)| - |body|..] == BytesText(body)
  {
    StatusWithBodyMessage(code, body);
  }

  /** The result of a flush: success exactly on a 2xx status; the body is never read. */
  function FlushOutcome(reply: Exchange): (r: Option<Error>)
    ensures r.None? <==> reply.Responded? && 200 <= reply.StatusCode < 300
    ensures reply.DoFailed? ==> r == Some(TransportError(reply.cause))
    ensures reply.Responded? && !(200 <= reply.StatusCode < 300) ==> r == Some(StatusFailed(reply.StatusCode))
  {
    match reply
    case DoFailed(cause) => Some(TransportError(cause))
    case Responded(code, _) => if Is2xx(code) then None else Some(StatusFailed(code))
  }

  /** A flush does not depend on what the body would have held. */
  lemma FlushIgnoresBody(code: int, b1: BodyRead, b2: BodyRead)
    ensures FlushOutcome(Responded(code, b1)) == FlushOutcome(Responded(code, b2))
  {
  }

  /** The result of reading the metrics page: the body is read first, and only an
      exact 200 counts as success. */
  function MetricsOutcome(reply: Exchange): (r: Result<string, Error>)
    ensures r.Ok? <==> reply.Responded? && reply.StatusCode == 200 && reply.body.BodyBytes?
    ensures r.Ok? ==> r.value == BytesText(reply.body.bytes)
    ensures reply.Responded? && reply.body.ReadFailure? ==> r == Err(ReadError(reply.body.cause))
    ensures reply.Responded? && reply.body.BodyBytes? && reply.StatusCode != 200 ==>
      r == Err(StatusFailed(reply.StatusCode))
  {
    match reply
    case DoFailed(cause) => Err(TransportError(cause))
    case Responded(code, body) =>
      match body
      case ReadFailure(cause) => Err(ReadError(cause))
      case BodyBytes(b) => if code != 200 then Err(StatusFailed(code)) else Ok(BytesText(b))
  }

  /** Every 2xx other than 200 flushes successfully but fails as a metrics read,
      whatever the body holds. */
  lemma MetricsStricterThanFlush(code: int, body: seq<byte>)
    requires 200 <= code < 300 && code != 200
    ensures FlushOutcome(Responded(code, BodyBytes(body))).None?
    ensures MetricsOutcome(Responded(code, BodyBytes(body))) == Err(StatusFailed(code))
  {
  }

  /** The result of `run`: the body and the status, whatever the status. */
  function RunOutcome(reply: Exchange): (r: Result<(seq<byte>, int), Error>)
    ensures r.Ok? <==> reply.Responded? && reply.body.BodyBytes?
    ensures r.Ok? ==> r.value == (reply.body.bytes, reply.StatusCode)
    ensures reply.Responded? && reply.body.ReadFailure? ==>
      r == Err(StatusWithCause(reply.StatusCode, reply.body.cause))
  {
    match reply
    case DoFailed(cause) => Err(TransportError(cause))
    case Responded(code, body) =>
      match body
      case ReadFailure(cause) => Err(StatusWithCause(code, cause))
      case BodyBytes(b) => Ok((b, code))
  }

  /** `parseResponse`: the body is decoded first, whatever the status; a 2xx then
      returns the response, anything else the body as the error. */
  function ParseResponse(parse: seq<byte> -> Result<Json, string>, buf: seq<byte>, statusCode: int)
    : (r: Result<Response, Error>)
    ensures r.Ok? <==>
      parse(buf).Ok? && DecodeResponse(parse(buf).value).Ok? && 200 <= statusCode < 300
    ensures r.Ok? ==> r.value == DecodeResponse(parse(buf).value).value
    ensures parse(buf).Err? ==> r == Err(ParsingResponseData(JsonError(parse(buf).error)))
    ensures parse(buf).Ok? && DecodeResponse(parse(buf).value).Err? ==>
      r == Err(ParsingResponseData(DecodeResponse(parse(buf).value).error))
    ensures parse(buf).Ok? && DecodeResponse(parse(buf).value).Ok? && !(200 <= statusCode < 300) ==>
      r == Err(StatusWithBody(statusCode, buf))
  {
    match parse(buf)
    case Err(e) => Err(ParsingResponseData(JsonError(e)))
    case Ok(j) =>
      match DecodeResponse(j)
      case Err(e) => Err(ParsingResponseData(e))
      case Ok(resp) => if Is2xx(statusCode) then Ok(resp) else Err(StatusWithBody(statusCode, buf))
  }

  /** A query: `run`, then `parseResponse`. */
  function QueryOutcome(parse: seq<byte> -> Result<Json, string>, reply: Exchange): (r: Result<Response, Error>)
    ensures reply.DoFailed? ==> r == Err(TransportError(reply.cause))
    ensures reply.Responded? && reply.body.ReadFailure? ==>
      r == Err(StatusWithCause(reply.StatusCode, reply.body.cause))
    ensures reply.Responded? && reply.body.BodyBytes? ==>
      r == ParseResponse(parse, reply.body.bytes, reply.StatusCode)
    ensures r.Ok? ==> reply.Responded? && 200 <= reply.StatusCode < 300
  {
    match RunOutcome(reply)
    case Err(e) => Err(e)
    case Ok((buf, code)) => ParseResponse(parse, buf, code)
  }

  /** An error page that is not a query response is reported as a decoding failure:
      its status code does not appear in the error. */
  lemma ErrorPageReportedAsDecodeFailure(parse: seq<byte> -> Result<Json, string>, code: int, buf: seq<byte>)
    requires parse(buf).Err?
    ensures QueryOutcome(parse, Responded(code, BodyBytes(buf))) ==
      Err(ParsingResponseData(JsonError(parse(buf).error)))
  {
  }

  /** A 2xx answer holding a well-formed response yields its status and data. */
  lemma QueryRoundTrip(parse: seq<byte> -> Result<Json, string>, code: int, buf: seq<byte>, status: string, q: QueryResult)
    requires 200 <= code < 300
    requires parse(buf) == Ok(EncodeResponse(status, q))
    ensures QueryOutcome(parse, Responded(code, BodyBytes(buf))) == Ok(Response(status, Received(EmptyData, q)))
    // A vector result as the server writes it, with float64 timestamps, comes back
    // with its labels and values and with every time at Go's zero time.
    ensures q.VectorResult? && (forall i :: 0 <= i < |q.samples| ==> q.samples[i].stamp.FloatSeconds?) ==>
      var v := QueryOutcome(parse, Responded(code, BodyBytes(buf))).value.Data.Vector;
      |v| == |q.samples| &&
      forall i :: 0 <= i < |v| ==> v[i] == VectorEntry(q.samples[i].metric, ZeroTime, q.samples[i].value)
  {
    ResponseRoundTrip(status, q);
  }

  /** The body of a label endpoint: `{"data": [...]}`. */
  function DecodeLabelData(j: Json): (r: Result<seq<string>, string>)
    ensures j.JObject? && "data" !in j.fields ==> r == Ok([])
    ensures j.JObject? ==> r == DecodeStringList(FieldOrNull(j.fields, "data"))
  {
    match j
    case JNull => Ok([])
    case JObject(fields) => DecodeStringList(FieldOrNull(fields, "data"))
    case _ => Err("cannot unmarshal into Go value of type struct")
  }

  /** The result of a label request: the status is checked before the body is
      looked at, and only then is the body decoded. */
  function LabelsOutcome(parse: seq<byte> -> Result<Json, string>, reply: Exchange): (r: Result<seq<string>, Error>)
    ensures reply.Responded? && !(200 <= reply.StatusCode < 300) ==> r == Err(UnexpectedStatus(reply.StatusCode))
    ensures r.Ok? <==> (reply.Responded? && 200 <= reply.StatusCode < 300 && reply.body.BodyBytes? &&
      parse(reply.body.bytes).Ok? && DecodeLabelData(parse(reply.body.bytes).value).Ok?)
    ensures r.Ok? ==> DecodeLabelData(parse(reply.body.bytes).value) == Ok(r.value)
    ensures reply.Responded? && 200 <= reply.StatusCode < 300 && reply.body.ReadFailure? ==>
      r == Err(ReadError(reply.body.cause))
  {
    match reply
    case DoFailed(cause) => Err(TransportError(cause))
    case Responded(code, body) =>
      if !Is2xx(code) then Err(UnexpectedStatus(code))
      else
        match body
        case ReadFailure(cause) => Err(ReadError(cause))
        case BodyBytes(b) =>
          match parse(b)
          case Err(e) => Err(JsonError(e))
          case Ok(j) => LiftError(DecodeLabelData(j))
  }

  /** A rejected label request names the status code, whatever the body. */
  lemma LabelsRejection(parse: seq<byte> -> Result<Json, string>, code: int, body: BodyRead)
    requires !(200 <= code < 300)
    ensures var r := LabelsOutcome(parse, Responded(code, body));
      r.Err? && Contains(Message(r.error), FormatInt(code))
  {
    var prefix := "Unexpected status code of ";
    var m := Message(UnexpectedStatus(code));
    assert m[|prefix|..] == FormatInt(code);
  }

  /** A 2xx answer whose object lists names under `data` yields exactly those
      names, whatever other keys (such as `status`) the object holds. */
  lemma LabelsRoundTrip(parse: seq<byte> -> Result<Json, string>, code: int, buf: seq<byte>,
                        fields: map<string, Json>, names: seq<string>)
    requires 200 <= code < 300
    requires parse(buf) == Ok(JObject(fields["data" := EncodeStringList(names)]))
    ensures LabelsOutcome(parse, Responded(code, BodyBytes(buf))) == Ok(names)
  {
    StringListRoundTrip(names);
    assert FieldOrNull(fields["data" := EncodeStringList(names)], "data") == EncodeStringList(names);
  }

  // ---------------------------------------------------------------- the client

  const PushPath := "/loki/api/v1/push"
  const QueryPath := "/loki/api/v1/query"
  const QueryRangePath := "/loki/api/v1/query_range"
  const LabelsPath := "/loki/api/v1/labels"

  const ContentTypeHeader := "Content-Type"
  const JsonContentType := "application/json"

  /** `Client`: the clock value used for pushes and queries, the transport all its
      requests but the metrics read go through, the base URL and the tenant. */
  class Client {
    var Now: int
    const transport: RoundTripper
    const baseURL: string
    const instanceID: string

    constructor (now: int, transport: RoundTripper, baseURL: string, instanceID: string)
      ensures Now == now && this.transport == transport && this.baseURL == baseURL && this.instanceID == instanceID
    {
      Now := now;
      this.transport := transport;
      this.baseURL := baseURL;
      this.instanceID := instanceID;
    }

    /** The header a request leaves with, when the client gave it header `h`. */
    function Outgoing(h: Header): Header
      reads transport
    {
      ShapedHeader(h, transport.instanceID, transport.token, transport.injectHeaders)
    }

    /** `request`: a body-less request carrying the tenant header. */
    method NewRequest(verb: string, url: URL) returns (req: Request)
      ensures fresh(req) && req.Method == verb && req.URL == url && req.Body == None
      ensures req.Header == map[OrgIDHeader := [instanceID]]
    {
      req := new Request(verb, url, None);
      req.Header := SetHeader(req.Header, OrgIDHeader, instanceID);
    }

    /** `pushLogLine`: posts the one-line stream to the push endpoint. */
    method PushLine(line: string, timestamp: int, extraLabelList: seq<map<string, string>>, reply: Exchange)
      returns (req: Request, err: Option<Error>)
      ensures fresh(req) && req.Method == "POST" && req.URL == Raw(baseURL + PushPath)
      ensures req.Body == Some(PushBody(StreamValues(Overlay(JobLabels, extraLabelList), [[FormatTS(timestamp), line]])))
      ensures req.Header == Outgoing(map[ContentTypeHeader := [JsonContentType], OrgIDHeader := [instanceID]])
      ensures err == PushOutcome(reply)
    {
      var s := BuildStream(line, timestamp, extraLabelList);
      req := new Request("POST", Raw(baseURL + PushPath), Some(PushBody(s)));
      req.Header := SetHeader(req.Header, ContentTypeHeader, JsonContentType);
      req.Header := SetHeader(req.Header, OrgIDHeader, instanceID);
      var res := transport.RoundTrip(req, reply);
      err := PushOutcome(res);
    }

    /** `PushLogLine`: a push stamped with the client's clock. */
    method PushLogLine(line: string, extraLabelList: seq<map<string, string>>, reply: Exchange)
      returns (req: Request, err: Option<Error>)
      ensures fresh(req) && req.Method == "POST" && req.URL == Raw(baseURL + PushPath)
      ensures req.Body == Some(PushBody(StreamValues(Overlay(JobLabels, extraLabelList), [[FormatTS(Now), line]])))
      ensures req.Header == Outgoing(map[ContentTypeHeader := [JsonContentType], OrgIDHeader := [instanceID]])
      ensures err == PushOutcome(reply)
    {
      req, err := PushLine(line, Now, extraLabelList, reply);
    }

    /** `PushLogLineWithTimestamp`: a push stamped with the given time. */
    method PushLogLineWithTimestamp(line: string, timestamp: int, extraLabelList: seq<map<string, string>>, reply: Exchange)
      returns (req: Request, err: Option<Error>)
      ensures fresh(req) && req.Method == "POST" && req.URL == Raw(baseURL + PushPath)
      ensures req.Body == Some(PushBody(StreamValues(Overlay(JobLabels, extraLabelList), [[FormatTS(timestamp), line]])))
      ensures req.Header == Outgoing(map[ContentTypeHeader := [JsonContentType], OrgIDHeader := [instanceID]])
      ensures err == PushOutcome(reply)
    {
      req, err := PushLine(line, timestamp, extraLabelList, reply);
    }

    /** `Get`: a GET of a path under the base URL, through the transport; the
        answer is handed back as it is. */
    method Get(path: string, reply: Exchange) returns (req: Request, res: Exchange)
      ensures fresh(req) && req.Method == "GET" && req.URL == Raw(baseURL + path) && req.Body == None
      ensures req.Header == Outgoing(map[])
      ensures res == reply
    {
      req := new Request("GET", Raw(baseURL + path), None);
      res := transport.RoundTrip(req, reply);
    }

    /** `Metrics`: read with the default HTTP client, so neither the tenant header
        nor any injected header is sent. */
    method Metrics(reply: Exchange) returns (req: Request, r: Result<string, Error>)
      ensures fresh(req) && req.Method == "GET" && req.URL == Raw(baseURL + "/metrics") && req.Body == None
      ensures req.Header == map[]
      ensures r == MetricsOutcome(reply)
    {
      req := new Request("GET", Raw(baseURL + "/metrics"), None);
      r := MetricsOutcome(reply);
    }

    /** `Flush`: posts to the flush endpoint. */
    method Flush(reply: Exchange) returns (req: Request, err: Option<Error>)
      ensures fresh(req) && req.Method == "POST" && req.URL == Raw(baseURL + "/flush") && req.Body == None
      ensures req.Header == Outgoing(map[OrgIDHeader := [instanceID], ContentTypeHeader := [JsonContentType]])
      ensures err == FlushOutcome(reply)
    {
      req := NewRequest("POST", Raw(baseURL + "/flush"));
      req.Header := SetHeader(req.Header, ContentTypeHeader, JsonContentType);
      var res := transport.RoundTrip(req, reply);
      err := FlushOutcome(res);
    }

    /** `run`: a GET of `u` with the tenant header; the body and status come back. */
    method Run(u: URL, reply: Exchange) returns (req: Request, r: Result<(seq<byte>, int), Error>)
      ensures fresh(req) && req.Method == "GET" && req.URL == u && req.Body == None
      ensures req.Header == Outgoing(map[OrgIDHeader := [instanceID]])
      ensures r == RunOutcome(reply)
    {
      req := NewRequest("GET", u);
      var res := transport.RoundTrip(req, reply);
      r := RunOutcome(res);
    }

    /** `rangeQueryURL`: the base URL with the range-query path and parameters. */
    function RangeQueryURL(query: string): (u: URL)
      reads this
      ensures u.Parsed? && u.base == baseURL && u.path == QueryRangePath
      ensures u.query.Keys == {"query", "start", "end"} && u.query["query"] == query
      ensures ParseInt(u.query["start"]) == Some(Now - 2 * Hour)
      ensures ParseInt(u.query["end"]) == Some(Now + NanosPerSecond)
    {
      Parsed(baseURL, QueryRangePath, RangeQueryParams(Now, query))
    }

    /** The URL `RunQuery` builds: the instant-query path and parameters. */
    function InstantQueryURL(query: string): (u: URL)
      reads this
      ensures u.Parsed? && u.base == baseURL && u.path == QueryPath
      ensures u.query.Keys == {"query", "time"} && u.query["query"] == query
      ensures ParseInt(u.query["time"]) == Some(Now + NanosPerSecond)
    {
      Parsed(baseURL, QueryPath, InstantQueryParams(Now, query))
    }

    /** `RunRangeQuery` */
    method RunRangeQuery(query: string, parse: seq<byte> -> Result<Json, string>, reply: Exchange)
      returns (req: Request, r: Result<Response, Error>)
      ensures fresh(req) && req.Method == "GET" && req.URL == RangeQueryURL(query)
      ensures req.Header == Outgoing(map[OrgIDHeader := [instanceID]])
      ensures r == QueryOutcome(parse, reply)
    {
      var run;
      req, run := Run(RangeQueryURL(query), reply);
      if run.Err? {
        return req, Err(run.error);
      }
      r := ParseResponse(parse, run.value.0, run.value.1);
    }

    /** `RunQuery` */
    method RunQuery(query: string, parse: seq<byte> -> Result<Json, string>, reply: Exchange)
      returns (req: Request, r: Result<Response, Error>)
      ensures fresh(req) && req.Method == "GET" && req.URL == InstantQueryURL(query)
      ensures req.Header == Outgoing(map[OrgIDHeader := [instanceID]])
      ensures r == QueryOutcome(parse, reply)
    {
      var run;
      req, run := Run(InstantQueryURL(query), reply);
      if run.Err? {
        return req, Err(run.error);
      }
      r := ParseResponse(parse, run.value.0, run.value.1);
    }

    /** `LabelNames` */
    method LabelNames(parse: seq<byte> -> Result<Json, string>, reply: Exchange)
      returns (req: Request, r: Result<seq<string>, Error>)
      ensures fresh(req) && req.Method == "GET" && req.URL == Raw(baseURL + LabelsPath)
      ensures req.Header == Outgoing(map[OrgIDHeader := [instanceID]])
      ensures r == LabelsOutcome(parse, reply)
    {
      req := NewRequest("GET", Raw(baseURL + LabelsPath));
      var res := transport.RoundTrip(req, reply);
      r := LabelsOutcome(parse, res);
    }

    /** `LabelValues`: the label name goes into the path through `pathEscape`. */
    method LabelValues(labelName: string, pathEscape: string -> string, parse: seq<byte> -> Result<Json, string>, reply: Exchange)
      returns (req: Request, r: Result<seq<string>, Error>)
      ensures fresh(req) && req.Method == "GET"
      ensures req.URL == Raw(baseURL + "/loki/api/v1/label/" + pathEscape(labelName) + "/values")
      ensures req.Header == Outgoing(map[OrgIDHeader := [instanceID]])
      ensures r == LabelsOutcome(parse, reply)
    {
      req := NewRequest("GET", Raw(baseURL + "/loki/api/v1/label/" + pathEscape(labelName) + "/values"));
      var res := transport.RoundTrip(req, reply);
      r := LabelsOutcome(parse, res);
    }
  }
}
