/** The request pipeline: builds a URL request from an endpoint and the
    configured credentials, then turns the transport's outcome into a decoded
    value or exactly one `NetworkError`. The transport, URL parsing and the
    typed JSON decoder are inputs. */
module NetworkManager {
  import opened Wrappers
  import opened Transport
  import opened ApiEndpoint
  import opened NetworkErrors

  /** The configured base URL and credentials. */
  datatype Config = Config(baseUrl: string, apiKey: string, apiAuth: string)

  /** URL parsing: whether `URLComponents(string:)` accepts a string, and
      whether the components, with the given query items, yield a URL. */
  datatype UrlOracle = UrlOracle(
    parses: string -> bool,
    resolves: (string, Option<map<string, Scalar>>) -> bool)

  /** What fills the request's HTTP body. */
  datatype Payload =
    | NoPayload
    | EncodedBody(body: RequestBody)
    | SerializedParameters(parameters: map<string, Scalar>)

  /** The request handed to the transport. Query items are kept as the
      parameter map; their order and text rendering are the transport's. */
  datatype UrlRequest = UrlRequest(
    url: string,
    queryItems: Option<map<string, Scalar>>,
    httpMethod: string,
    timeoutInterval: nat,
    headers: map<string, string>,
    payload: Payload)

  /** Seconds before the transport gives up on a request. */
  const TimeoutInterval: nat := 30

  const ApiKeyHeader := "x-api-key"
  const AuthorizationHeader := "authorization"

  /** Parameters travel in the query for URL encoding and for every GET. */
  predicate UsesQuery(e: Endpoint) {
    e.encoding == Url || e.httpMethod == Get
  }

  /** `buildRequest`. */
  function BuildRequest(e: Endpoint, config: Config, urls: UrlOracle): (r: Result<UrlRequest, NetworkError>)
    // built exactly when the URL text parses and, with the query items the
    // encoding calls for, resolves to a URL; otherwise invalidURL
    ensures r.Success? <==> urls.parses(config.baseUrl + e.path)
                            && urls.resolves(config.baseUrl + e.path, if UsesQuery(e) && e.parameters.Some? then e.parameters else None)
    ensures r.Failure? ==> r.error == InvalidUrl
    ensures r.Success? ==> r.value.url == config.baseUrl + e.path
    ensures r.Success? ==> r.value.httpMethod == RawValue(e.httpMethod)
    ensures r.Success? ==> r.value.timeoutInterval == TimeoutInterval
    // query items: present exactly when the encoding asks for them (or the
    // method is GET) and the endpoint has parameters; then they are those
    ensures r.Success? ==> (r.value.queryItems.Some? <==> UsesQuery(e) && e.parameters.Some?)
    ensures r.Success? && r.value.queryItems.Some? ==> r.value.queryItems == e.parameters
    // credentials always win; every other endpoint header is kept
    ensures r.Success? ==> r.value.headers.Keys == e.headers.Keys + {ApiKeyHeader, AuthorizationHeader}
    ensures r.Success? ==> r.value.headers[ApiKeyHeader] == config.apiKey
    ensures r.Success? ==> r.value.headers[AuthorizationHeader] == config.apiAuth
    ensures r.Success? ==> forall k :: k in e.headers && k != ApiKeyHeader && k != AuthorizationHeader
                                       ==> r.value.headers[k] == e.headers[k]
    // payload: never for GET; an explicit body wins; parameters only as a fallback
    ensures r.Success? && e.httpMethod == Get ==> r.value.payload == NoPayload
    ensures r.Success? && e.httpMethod != Get && e.body.Some? ==> r.value.payload == EncodedBody(e.body.value)
    ensures r.Success? ==> (r.value.payload.SerializedParameters? <==>
                              e.httpMethod != Get && e.body.None? && e.encoding == Json && e.parameters.Some?)
    ensures r.Success? && r.value.payload.SerializedParameters? ==> r.value.payload.parameters == e.parameters.value
    ensures r.Success? && e.httpMethod != Get && e.body.None? && !(e.encoding == Json && e.parameters.Some?)
            ==> r.value.payload == NoPayload
  {
    var urlText := config.baseUrl + e.path;
    if !urls.parses(urlText) then Failure(InvalidUrl)
    else
      var query := if UsesQuery(e) && e.parameters.Some? then e.parameters else None;
      if !urls.resolves(urlText, query) then Failure(InvalidUrl)
      else
        var headers := e.headers[ApiKeyHeader := config.apiKey][AuthorizationHeader := config.apiAuth];
        var payload :=
          if e.httpMethod == Get then NoPayload
          else if e.body.Some? then EncodedBody(e.body.value)
          else if e.encoding == Json && e.parameters.Some? then SerializedParameters(e.parameters.value)
          else NoPayload;
        Success(UrlRequest(urlText, query, RawValue(e.httpMethod), TimeoutInterval, headers, payload))
  }

  /** The keys an error message is looked up under, in order. */
  const MessageKeys: seq<string> := ["message", "error", "status"]

  /** The field's value when it is a JSON string. */
  function StringField(fields: map<string, JsonValue>, key: string): Option<string> {
    if key in fields && fields[key].JsonString? then Some(fields[key].text) else None
  }

  /** `extractErrorMessage`. A JSON object yields its first string field
      among `MessageKeys` or nothing, never its raw text; any other body
      yields its UTF-8 text when it has one. */
  function ExtractErrorMessage(b: Body): (m: Option<string>)
    ensures b.ObjectBody? ==> (m.Some? <==> exists i :: 0 <= i < |MessageKeys| && StringField(b.fields, MessageKeys[i]).Some?)
    ensures b.ObjectBody? && m.Some? ==>
      exists i :: 0 <= i < |MessageKeys| && StringField(b.fields, MessageKeys[i]) == m
                  && forall j :: 0 <= j < i ==> StringField(b.fields, MessageKeys[j]).None?
    ensures b.TextBody? ==> m == Some(b.text)
    ensures b.EmptyBody? ==> m == Some("")
    ensures b.BinaryBody? ==> m.None?
  {
    match b
    case ObjectBody(fields) =>
      var message := StringField(fields, "message");
      var error := StringField(fields, "error");
      var status := StringField(fields, "status");
      assert MessageKeys[0] == "message" && MessageKeys[1] == "error" && MessageKeys[2] == "status";
      if message.Some? then message
      else if error.Some? then error
      else status
    case TextBody(text) => Some(text)
    case EmptyBody => Some("")
    case BinaryBody => None
  }

  /** Status classes of section 15 of RFC 9110: successful (section 15.3),
      client error (section 15.5, with 401 Unauthorized in 15.5.2) and server
      error (section 15.6, with 503 Service Unavailable in 15.6.4). */
  predicate IsSuccessful(status: int) { 200 <= status <= 299 }
  predicate IsClientError(status: int) { 400 <= status <= 499 }
  predicate IsServerError(status: int) { 500 <= status <= 599 }

  /** The text shown when the body yields no message, by status class. */
  function FallbackMessage(status: int): string {
    if status == 401 then "Unauthorised access."
    else if IsClientError(status) then "Request failed."
    else if IsServerError(status) then "Server error. Please try again later."
    else "Unexpected error occurred."
  }

  /** `validateResponse`. */
  function ValidateResponse(status: int, b: Body): (r: Outcome<NetworkError>)
    ensures r.Pass? <==> IsSuccessful(status)
    ensures r.Fail? && r.error.Unauthorized? <==> status == 401
    ensures r.Fail? && r.error.ServerOutage? <==> status == 503
    ensures r.Fail? ==> r.error.Unauthorized? || r.error.ServerOutage?
                        || (r.error.RequestFailed? && r.error.statusCode == status && r.error.message.Some?)
    // the body's message reaches the user; without one, the class's fallback does
    ensures r.Fail? && status != 503 ==>
      Description(r.error) == ExtractErrorMessage(b).GetOr(FallbackMessage(status))
    // a failed status is worth retrying exactly when it is 500 or above
    ensures r.Fail? ==> (IsRetryable(r.error) <==> status >= 500)
  {
    if IsSuccessful(status) then Pass
    else
      var message := ExtractErrorMessage(b);
      if status == 401 then Fail(Unauthorized(message.GetOr(FallbackMessage(status))))
      else if IsClientError(status) then Fail(RequestFailed(status, Some(message.GetOr(FallbackMessage(status)))))
      else if status == 503 then Fail(ServerOutage)
      else Fail(RequestFailed(status, Some(message.GetOr(FallbackMessage(status)))))
  }

  /** `mapURLError`. */
  function MapUrlError(code: UrlErrorCode): (e: NetworkError)
    ensures e == NoInternet <==> code.NotConnectedToInternet? || code.NetworkConnectionLost? || code.DataNotAllowed?
    ensures code.TimedOut? ==> Description(e) == "Request timed out. Please try again."
    ensures code.CannotFindHost? || code.CannotConnectToHost? ==> Description(e) == "Cannot connect to the server."
    ensures e.RequestFailed? <==> code.TimedOut? || code.CannotFindHost? || code.CannotConnectToHost?
    ensures e.RequestFailed? ==> e.statusCode == 0
    ensures e.Unknown? <==> code.OtherCode?
    // of the transport failures only lost connectivity is worth retrying
    ensures IsRetryable(e) <==> e == NoInternet
  {
    match code
    case NotConnectedToInternet => NoInternet
    case NetworkConnectionLost => NoInternet
    case DataNotAllowed => NoInternet
    case TimedOut => RequestFailed(0, Some("Request timed out. Please try again."))
    case CannotFindHost => RequestFailed(0, Some("Cannot connect to the server."))
    case CannotConnectToHost => RequestFailed(0, Some("Cannot connect to the server."))
    case OtherCode(_) => Unknown(TransportCause(UrlError(code)))
  }

  /** The `catch` clauses around the transport call. */
  function MapTransportError(t: TransportError): (e: NetworkError)
    ensures t.UrlError? ==> e == MapUrlError(t.code)
    ensures t.OtherError? ==> e == Unknown(TransportCause(t))
  {
    match t
    case UrlError(code) => MapUrlError(code)
    case OtherError(_) => Unknown(TransportCause(t))
  }

  /** `request`: build, send, check the response kind, validate the status,
      reject an empty body, decode. */
  function Request<T>(
    e: Endpoint, config: Config, urls: UrlOracle,
    transport: UrlRequest -> Exchange, decode: Body -> Result<T, string>): (r: Result<T, NetworkError>)
  {
    match BuildRequest(e, config, urls)
    case Failure(err) => Failure(err)
    case Success(request) =>
      match transport(request)
      case Failed(t) => Failure(MapTransportError(t))
      case Delivered(NonHttpResponse, _) => Failure(NoData)
      case Delivered(HttpResponse(status), body) =>
        match ValidateResponse(status, body)
        case Fail(err) => Failure(err)
        case Pass =>
          if body.EmptyBody? then Failure(NoData)
          else match decode(body)
            case Success(v) => Success(v)
            case Failure(reason) => Failure(DecodingError(DecoderCause(reason)))
  }

  /** A request succeeds exactly when the URL is valid, an HTTP response with
      a 2xx status and a non-empty body arrives, and the decoder accepts the
      body; the value returned is the decoder's. */
  lemma RequestSucceedsExactly<T>(
    e: Endpoint, config: Config, urls: UrlOracle,
    transport: UrlRequest -> Exchange, decode: Body -> Result<T, string>)
    ensures Request(e, config, urls, transport, decode).Success? <==>
      && BuildRequest(e, config, urls).Success?
      && var x := transport(BuildRequest(e, config, urls).value);
      && x.Delivered? && x.response.HttpResponse? && IsSuccessful(x.response.statusCode)
      && !x.body.EmptyBody? && decode(x.body).Success?
    ensures Request(e, config, urls, transport, decode).Success? ==>
      Request(e, config, urls, transport, decode).value == decode(transport(BuildRequest(e, config, urls).value).body).value
  {
  }

  /** An invalid URL fails before the transport or the decoder is consulted. */
  lemma InvalidUrlStopsEarly<T>(
    e: Endpoint, config: Config, urls: UrlOracle,
    transport: UrlRequest -> Exchange, transport': UrlRequest -> Exchange,
    decode: Body -> Result<T, string>)
    requires BuildRequest(e, config, urls).Failure?
    ensures Request(e, config, urls, transport, decode) == Failure(InvalidUrl)
    ensures Request(e, config, urls, transport, decode) == Request(e, config, urls, transport', decode)
  {
  }

  /** The order of the checks after the exchange: a response that is not HTTP
      is `noData` whatever its status or body; a failing status wins over an
      empty body; a 2xx with an empty body is `noData`; a decoder failure is
      always `decodingError`. */
  lemma CheckOrder<T>(
    e: Endpoint, config: Config, urls: UrlOracle,
    transport: UrlRequest -> Exchange, decode: Body -> Result<T, string>)
    requires BuildRequest(e, config, urls).Success?
    ensures var x := transport(BuildRequest(e, config, urls).value);
      var r := Request(e, config, urls, transport, decode);
      && (x.Failed? ==> r == Failure(MapTransportError(x.error)))
      && (x.Delivered? && x.response.NonHttpResponse? ==> r == Failure(NoData))
      && (x.Delivered? && x.response.HttpResponse? && !IsSuccessful(x.response.statusCode) ==>
            r == Failure(ValidateResponse(x.response.statusCode, x.body).error))
      && (x.Delivered? && x.response.HttpResponse? && IsSuccessful(x.response.statusCode) && x.body.EmptyBody? ==>
            r == Failure(NoData))
      && (x.Delivered? && x.response.HttpResponse? && IsSuccessful(x.response.statusCode)
          && !x.body.EmptyBody? && decode(x.body).Failure? ==>
            r == Failure(DecodingError(DecoderCause(decode(x.body).error))))
  {
  }

  /** An error status with an empty body carries an empty message rather than
      the status class's fallback: empty data is not JSON but is valid UTF-8. */
  lemma EmptyErrorBodyGivesEmptyMessage(status: int)
    requires !IsSuccessful(status) && status != 503
    ensures ValidateResponse(status, EmptyBody).Fail?
    ensures Description(ValidateResponse(status, EmptyBody).error) == ""
  {
  }

  /** Message extraction on concrete bodies: `message` first, then `error`,
      plain text as it is, and nothing from an object without string fields. */
  lemma MessageExamples()
    ensures ExtractErrorMessage(ObjectBody(map["message" := JsonString("X")])) == Some("X")
    ensures ExtractErrorMessage(ObjectBody(map["error" := JsonString("Y"), "status" := JsonString("Z")])) == Some("Y")
    ensures ExtractErrorMessage(ObjectBody(map["message" := JsonNonString, "status" := JsonString("Z")])) == Some("Z")
    ensures ExtractErrorMessage(ObjectBody(map["detail" := JsonString("W")])).None?
    ensures ExtractErrorMessage(TextBody("boom")) == Some("boom")
  {
  }
}
