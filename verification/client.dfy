/** The inference client: sends a built payload to the serving endpoint and
    classifies what came back. The HTTP call itself and the parsing of the
    reply text are parameters: `transport` says what `requests.post` did
    with a given request, `parse` says what `response.json()` makes of a
    reply text (a value, or a decoding error). */
module Client {
  import opened Wrappers
  import opened Json
  import opened Schema
  import opened Request

  /** The defaults of `infer`. */
  const DefaultUrl := "http://127.0.0.1:5005/invocations"
  const DefaultFormat := DataframeSplitFormat

  /** The request header and timeout sent with every POST. */
  const JsonContentType := "application/json"
  const TimeoutSeconds: nat := 15

  /** A single POST as issued: endpoint, Content-Type, timeout, and the JSON
      value whose text is the body. */
  datatype Post = Post(url: string, contentType: string, timeout: nat, body: Json)

  /** A reply from the server: its status code and its body text. */
  datatype Response = Response(status: int, text: string)

  /** What the POST did. Which transport failures are connection errors
      (refused, unreachable, connect timeout, proxy or TLS failure) is up to
      the HTTP library; the model takes the distinction as given. */
  datatype Outcome =
    | Answered(response: Response)
    | ConnectionError
    | OtherRequestError

  /** The exception raised inside the `try` block, by the POST or by
      `raise_for_status`. */
  datatype Raised =
    | RaisedConnectionError
    | RaisedHttpError(response: Response)
    | RaisedRequestException

  /** The status codes for which `raise_for_status` raises: client errors
      (4xx) and server errors (5xx). */
  predicate IsErrorStatus(status: int)
  {
    400 <= status < 600
  }

  /** What the HTTP error handler shows of the server's reply. */
  datatype ErrorDetail =
    | StructuredDetail(body: Json)
    | RawDetail(text: string)

  /** The distinct reasons `infer` returns None, one per diagnostic path. */
  datatype Failure =
    | NotBuilt(error: BuildError)
    | ConnectionFailed
    | HttpFailed(status: int, detail: ErrorDetail)
    | RequestFailed

  /** What `infer` returns: the parsed reply, the raw reply text, or None.
      A reply body that parses to JSON `null` is `Parsed(Null)`, which
      Python hands back as the same None as `NoResult`. */
  datatype InferResult =
    | Parsed(value: Json)
    | RawText(text: string)
    | NoResult

  /** The caller receives Python's None: either no result, or a reply that
      parsed to JSON `null`. */
  predicate ReturnsPythonNone(r: InferResult)
  {
    r.NoResult? || r == Parsed(Null)
  }

  /** The returned value together with the failure path taken, if any. */
  datatype Handled = Handled(result: InferResult, failure: Option<Failure>)

  /** A whole call: the request issued, if any, and how it was handled. */
  datatype Call = Call(request: Option<Post>, handled: Handled)

  /** The `try` block: the POST, then `raise_for_status`. A response that
      gets past both is returned; otherwise the exception raised. */
  function TryPost(outcome: Outcome): (r: Result<Response, Raised>)
    ensures r.Success? <==> outcome.Answered? && !IsErrorStatus(outcome.response.status)
    ensures r.Success? ==> r.value == outcome.response
    ensures outcome.Answered? && IsErrorStatus(outcome.response.status)
        ==> r == Failure(RaisedHttpError(outcome.response))
    ensures outcome.ConnectionError? ==> r == Failure(RaisedConnectionError)
    ensures outcome.OtherRequestError? ==> r == Failure(RaisedRequestException)
  {
    match outcome
    case Answered(response) =>
      if IsErrorStatus(response.status) then Failure(RaisedHttpError(response))
      else Success(response)
    case ConnectionError => Failure(RaisedConnectionError)
    case OtherRequestError => Failure(RaisedRequestException)
  }

  /** A successful reply: its parsed JSON, or its raw text when it does not
      parse. */
  function ReadReply(response: Response, parse: string -> Option<Json>): (h: Handled)
    ensures h.failure.None? && !h.result.NoResult?
    ensures h.result.Parsed? <==> parse(response.text).Some?
    ensures h.result.Parsed? ==> parse(response.text) == Some(h.result.value)
    ensures h.result.RawText? ==> h.result.text == response.text
    ensures ReturnsPythonNone(h.result) <==> parse(response.text) == Some(Null)
  {
    match parse(response.text)
    case Some(value) => Handled(Parsed(value), None)
    case None => Handled(RawText(response.text), None)
  }

  /** The `except` clauses in their order: connection errors, then HTTP
      error statuses, then every other request exception. Each returns None;
      the HTTP clause first tries to show the error body as JSON. */
  function Handle(raised: Raised, parse: string -> Option<Json>): (h: Handled)
    ensures h.result.NoResult? && h.failure.Some?
  {
    match raised
    case RaisedConnectionError => Handled(NoResult, Some(ConnectionFailed))
    case RaisedHttpError(response) =>
      var detail := match parse(response.text)
        case Some(body) => StructuredDetail(body)
        case None => RawDetail(response.text);
      Handled(NoResult, Some(HttpFailed(response.status, detail)))
    case RaisedRequestException => Handled(NoResult, Some(RequestFailed))
  }

  /** Maps what the POST did to what `infer` returns. The caller gets None
      exactly when a failure path was taken or a success reply parsed to
      JSON `null`. */
  function Classify(outcome: Outcome, parse: string -> Option<Json>): (h: Handled)
    ensures h.result.NoResult? <==> h.failure.Some?
    ensures ReturnsPythonNone(h.result)
        <==> h.failure.Some? || (outcome.Answered? && parse(outcome.response.text) == Some(Null))
  {
    match TryPost(outcome)
    case Success(response) => ReadReply(response, parse)
    case Failure(raised) => Handle(raised, parse)
  }

  /** `infer(instances, url, format)`: build the payload, and only if that
      succeeds issue one POST and classify its outcome. */
  function Infer(instances: Instances, url: string, format: string,
                 transport: Post -> Outcome, parse: string -> Option<Json>): (c: Call)
    ensures c.request.Some? <==> format == DataframeSplitFormat || format == InstancesFormat
    ensures c.request.Some? ==> c.request.value.url == url
    ensures c.request.Some? ==> c.request.value.contentType == JsonContentType
    ensures c.request.Some? ==> c.request.value.timeout == TimeoutSeconds
    ensures c.handled.result.NoResult? <==> c.handled.failure.Some?
    ensures c.request.None? ==> ReturnsPythonNone(c.handled.result)
  {
    match Build(instances, format)
    case Failure(error) => Call(None, Handled(NoResult, Some(NotBuilt(error))))
    case Success(payload) =>
      var post := Post(url, JsonContentType, TimeoutSeconds, ToJson(payload));
      Call(Some(post), Classify(transport(post), parse))
  }

  /** `infer(instances)` with the default endpoint and format. */
  function InferDefault(instances: Instances, transport: Post -> Outcome,
                        parse: string -> Option<Json>): (c: Call)
    ensures c.request.Some? && c.request.value.url == DefaultUrl
  {
    Infer(instances, DefaultUrl, DefaultFormat, transport, parse)
  }

  /** A success status returns the parsed body, or the raw text when the
      body is not JSON; neither counts as a failure. */
  lemma SuccessReturnsReply(response: Response, parse: string -> Option<Json>)
    requires !IsErrorStatus(response.status)
    ensures var h := Classify(Answered(response), parse);
      && h.failure == None
      && (parse(response.text).Some? ==> h.result == Parsed(parse(response.text).value))
      && (parse(response.text).None? ==> h.result == RawText(response.text))
  {
  }

  /** A success reply whose body is JSON `null` takes no failure path, yet
      the caller receives the same None that a failure returns. */
  lemma NullReplyReturnsNone(response: Response, parse: string -> Option<Json>)
    requires !IsErrorStatus(response.status)
    requires parse(response.text) == Some(Null)
    ensures var h := Classify(Answered(response), parse);
      && h.failure.None?
      && ReturnsPythonNone(h.result)
  {
  }

  /** Every transport failure returns None, each through its own clause:
      connection errors before HTTP error statuses before any other request
      exception. */
  lemma FailuresReturnNone(outcome: Outcome, parse: string -> Option<Json>)
    requires !(outcome.Answered? && !IsErrorStatus(outcome.response.status))
    ensures var h := Classify(outcome, parse);
      && h.result == NoResult
      && (outcome.ConnectionError? ==> h.failure == Some(ConnectionFailed))
      && (outcome.Answered? ==> h.failure.Some? && h.failure.value.HttpFailed?
                                && h.failure.value.status == outcome.response.status)
      && (outcome.OtherRequestError? ==> h.failure == Some(RequestFailed))
  {
  }

  /** On an error status the result is None whether or not the error body
      parses; parsing only chooses whether the structured detail or the raw
      text is shown. */
  lemma HttpErrorIgnoresBody(response: Response, parse: string -> Option<Json>,
                             parse': string -> Option<Json>)
    requires IsErrorStatus(response.status)
    ensures Classify(Answered(response), parse).result == Classify(Answered(response), parse').result == NoResult
    ensures var f := Classify(Answered(response), parse).failure;
      && f.Some? && f.value.HttpFailed?
      && (parse(response.text).Some? <==> f.value.detail.StructuredDetail?)
      && (parse(response.text).Some? ==> f.value.detail.body == parse(response.text).value)
      && (parse(response.text).None? ==> f.value.detail == RawDetail(response.text))
  {
  }

  /** An unrecognised format returns None before anything is sent: no
      request is issued, and neither the transport nor the parser can
      change the outcome. */
  lemma UnsupportedFormatSendsNothing(instances: Instances, url: string, format: string,
                                      transport: Post -> Outcome, transport': Post -> Outcome,
                                      parse: string -> Option<Json>,
                                      parse': string -> Option<Json>)
    requires format != DataframeSplitFormat && format != InstancesFormat
    ensures Infer(instances, url, format, transport, parse) == Infer(instances, url, format, transport', parse')
    ensures Infer(instances, url, format, transport, parse)
         == Call(None, Handled(NoResult, Some(NotBuilt(UnsupportedFormat(format)))))
  {
  }

  /** With a recognised format exactly one POST is issued, its body reads
      back as the built payload carrying the caller's rows unchanged, and
      the result depends on nothing but that POST's outcome. */
  lemma RecognisedFormatPostsPayload(instances: Instances, url: string, format: string,
                                     transport: Post -> Outcome, parse: string -> Option<Json>)
    requires format == DataframeSplitFormat || format == InstancesFormat
    ensures var c := Infer(instances, url, format, transport, parse);
      && c.request.Some?
      && FromJson(c.request.value.body) == Some(Build(instances, format).value)
      && RowsSent(c.request.value.body) == Some(instances)
      && c.handled == Classify(transport(c.request.value), parse)
  {
    var payload := Build(instances, format).value;
    PayloadRoundTrip(payload);
    if format == DataframeSplitFormat {
      DataframeSplitShape(instances);
    } else {
      InstancesShape(instances);
    }
  }

  /** Two transports that answer the issued POST alike give the same call:
      no other request is made. */
  lemma SingleRequest(instances: Instances, url: string, format: string,
                      transport: Post -> Outcome, transport': Post -> Outcome,
                      parse: string -> Option<Json>)
    requires var c := Infer(instances, url, format, transport, parse);
      c.request.Some? ==> transport(c.request.value) == transport'(c.request.value)
    ensures Infer(instances, url, format, transport, parse) == Infer(instances, url, format, transport', parse)
  {
  }

  /** The default call sends the split form: one top-level key and the
      sixteen fixed column names, whatever the rows. */
  lemma DefaultSendsSchema(instances: Instances, transport: Post -> Outcome,
                           parse: string -> Option<Json>)
    ensures var c := InferDefault(instances, transport, parse);
      && c.request.Some?
      && Keys(c.request.value.body) == [DataframeSplitKey]
      && ColumnsSent(c.request.value.body) == Some(FeatureColumns)
      && |FeatureColumns| == NumFeatures
  {
    DataframeSplitShape(instances);
  }

  /** One row of sixteen 0.1 values. */
  function SampleRows(): (rows: Instances)
    ensures |rows| == 1 && |rows[0]| == NumFeatures
  {
    [seq(16, _ => 0.1)]
  }

  /** A mock endpoint that answers with a JSON body is returned that body
      unchanged. */
  lemma MockSuccessReturnsBody(text: string, body: Json)
    ensures var c := InferDefault(SampleRows(), _ => Answered(Response(200, text)),
                                  s => if s == text then Some(body) else None);
      c.handled == Handled(Parsed(body), None)
  {
  }

  /** Nothing listening at the endpoint: None, through the connection clause. */
  lemma UnreachableEndpointReturnsNone(parse: string -> Option<Json>)
    ensures var c := Infer(SampleRows(), "http://127.0.0.1:1/x", DefaultFormat, _ => ConnectionError, parse);
      && c.request.Some?
      && c.handled == Handled(NoResult, Some(ConnectionFailed))
  {
  }

  /** The plain form sends `{instances: rows}` and nothing else. */
  lemma PlainFormatSendsInstances(transport: Post -> Outcome, parse: string -> Option<Json>)
    ensures var c := Infer(SampleRows(), DefaultUrl, InstancesFormat, transport, parse);
      && c.request.Some?
      && c.request.value.body == Object([(InstancesKey, RowsArray(SampleRows()))])
  {
  }

  /** A 400 reply with a JSON error body: None, with that body as the detail
      shown. */
  lemma BadRequestShowsDetail(text: string)
    ensures var detail := Object([("error", String("bad schema"))]);
      var c := InferDefault(SampleRows(), _ => Answered(Response(400, text)),
                            s => if s == text then Some(detail) else None);
      c.handled == Handled(NoResult, Some(HttpFailed(400, StructuredDetail(detail))))
  {
  }
}
