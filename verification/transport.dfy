/** What the URL loading system hands back, reduced to the distinctions the
    network layer draws. The transport itself is not modelled: its outcome
    for a request is an input. */
module Transport {

  /** The `URLError` codes the network layer tells apart; every other code
      is `OtherCode`. */
  datatype UrlErrorCode =
    | NotConnectedToInternet
    | NetworkConnectionLost
    | DataNotAllowed
    | TimedOut
    | CannotFindHost
    | CannotConnectToHost
    | OtherCode(raw: UnnamedRawCode)

  /** The raw values of the six named codes in `NSURLErrorDomain`. */
  const NamedRawCodes: set<int> := {-1009, -1005, -1020, -1001, -1003, -1004}

  /** The raw value of any other `URLError` code. */
  type UnnamedRawCode = c: int | c !in NamedRawCodes witness 0

  /** A failure thrown by the transport: a `URLError`, or any other error. */
  datatype TransportError = UrlError(code: UrlErrorCode) | OtherError(description: string)

  /** The response object: an HTTP response with its status, or some other
      kind of URL response. */
  datatype UrlResponse = HttpResponse(statusCode: int) | NonHttpResponse

  /** A JSON value inside an object body: a string, or anything else. */
  datatype JsonValue = JsonString(text: string) | JsonNonString

  /** The response data as the error-message extraction sees it:
      no bytes at all; bytes that parse as a JSON object; other bytes that
      are valid UTF-8 (plain text, or JSON that is not an object); or bytes
      that are neither. */
  datatype Body =
    | EmptyBody
    | ObjectBody(fields: map<string, JsonValue>)
    | TextBody(text: string)
    | BinaryBody

  /** What `session.data(for:)` produced: data and a response, or a thrown error. */
  datatype Exchange = Delivered(response: UrlResponse, body: Body) | Failed(error: TransportError)
}
