/** The endpoint abstraction: HTTP methods, parameter encodings and the
    descriptor every endpoint provides, with the protocol's defaults. */
module ApiEndpoint {
  import opened Wrappers
  import opened Primitives

  datatype HttpMethod = Get | Post | Put | Delete | Patch

  /** The method's raw value, as written on the request line. */
  function RawValue(m: HttpMethod): string {
    match m
    case Get => "GET"
    case Post => "POST"
    case Put => "PUT"
    case Delete => "DELETE"
    case Patch => "PATCH"
  }

  /** Reads a raw value back; only the five upper-case names are methods. */
  function MethodFromRawValue(raw: string): (m: Option<HttpMethod>)
    ensures m.Some? ==> RawValue(m.value) == raw
  {
    if raw == "GET" then Some(Get)
    else if raw == "POST" then Some(Post)
    else if raw == "PUT" then Some(Put)
    else if raw == "DELETE" then Some(Delete)
    else if raw == "PATCH" then Some(Patch)
    else None
  }

  /** Raw values round-trip, hence are pairwise distinct, and are case-sensitive. */
  lemma RawValuesDistinct(m: HttpMethod, n: HttpMethod)
    ensures MethodFromRawValue(RawValue(m)) == Some(m)
    ensures RawValue(m) == RawValue(n) ==> m == n
    ensures MethodFromRawValue("get").None?
  {
  }

  /** Where parameters go: a JSON body or the URL query. */
  datatype ParameterEncoding = Json | Url

  /** A parameter value. Only coordinates occur among the endpoints. */
  datatype Scalar = Number(value: Coordinate)

  /** An encodable request body. The scan endpoint's body is the only one. */
  datatype RequestBody = ScanRequestBody(barcode: string)

  /** Everything an endpoint declares about its request. */
  datatype Endpoint = Endpoint(
    path: string,
    httpMethod: HttpMethod,
    headers: map<string, string>,
    parameters: Option<map<string, Scalar>>,
    body: Option<RequestBody>,
    encoding: ParameterEncoding)

  /** The headers an endpoint sends unless it declares its own. */
  const DefaultHeaders: map<string, string> :=
    map["Content-Type" := "application/json", "accept-language" := "en"]

  /** An endpoint that keeps every protocol default: the default headers,
      no parameters, no body and JSON encoding. */
  function WithDefaults(path: string, httpMethod: HttpMethod): Endpoint
  {
    Endpoint(path, httpMethod, DefaultHeaders, None, None, Json)
  }

  /** The defaults are exactly two headers, JSON content and English, with
      neither parameters nor body and with JSON encoding. */
  lemma Defaults(path: string, httpMethod: HttpMethod)
    ensures WithDefaults(path, httpMethod).headers.Keys == {"Content-Type", "accept-language"}
    ensures WithDefaults(path, httpMethod).headers["Content-Type"] == "application/json"
    ensures WithDefaults(path, httpMethod).headers["accept-language"] == "en"
    ensures WithDefaults(path, httpMethod).parameters.None? && WithDefaults(path, httpMethod).body.None?
    ensures WithDefaults(path, httpMethod).encoding == Json
  {
  }
}
