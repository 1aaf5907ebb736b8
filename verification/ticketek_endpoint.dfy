/** The two remote operations of the ticket service: listing the venues near
    a coordinate and submitting a scanned barcode for a venue. */
module TicketekEndpoint {
  import opened Wrappers
  import opened Primitives
  import opened ApiEndpoint

  datatype TicketekEndpoint =
    | GetVenues(latitude: Coordinate, longitude: Coordinate)
    | ScanTicket(venueCode: string, barcode: string)

  const VenuesPath := "/venues/"
  const ScanSuffix := "/pax/entry/scan"

  function Path(e: TicketekEndpoint): string {
    match e
    case GetVenues(_, _) => VenuesPath
    case ScanTicket(code, _) => VenuesPath + code + ScanSuffix
  }

  function Method(e: TicketekEndpoint): HttpMethod {
    match e
    case GetVenues(_, _) => Get
    case ScanTicket(_, _) => Post
  }

  function Parameters(e: TicketekEndpoint): Option<map<string, Scalar>> {
    match e
    case GetVenues(lat, lon) => Some(map["latitude" := Number(lat), "longitude" := Number(lon)])
    case ScanTicket(_, _) => None
  }

  function Body(e: TicketekEndpoint): Option<RequestBody> {
    match e
    case GetVenues(_, _) => None
    case ScanTicket(_, barcode) => Some(ScanRequestBody(barcode))
  }

  function Encoding(e: TicketekEndpoint): ParameterEncoding {
    match e
    case GetVenues(_, _) => Url
    case ScanTicket(_, _) => Json
  }

  /** The descriptor the network layer reads: the protocol defaults with
      parameters, body and encoding overridden. Headers are not overridden,
      so the default headers apply. */
  function Describe(e: TicketekEndpoint): (d: Endpoint)
    ensures d.headers == DefaultHeaders
    ensures d.parameters.Some? != d.body.Some?
  {
    WithDefaults(Path(e), Method(e)).(parameters := Parameters(e), body := Body(e), encoding := Encoding(e))
  }

  /** Recovers the venue code from a scan path: what lies between the venue
      prefix and the scan suffix. */
  function ScanPathVenueCode(path: string): Option<string> {
    if |path| >= |VenuesPath| + |ScanSuffix|
      && path[..|VenuesPath|] == VenuesPath
      && path[|path| - |ScanSuffix|..] == ScanSuffix
    then Some(path[|VenuesPath|..|path| - |ScanSuffix|])
    else None
  }

  /** The scan path embeds the venue code verbatim: it is recovered unchanged
      from the path, whatever characters it holds. */
  lemma ScanPathRoundTrip(code: string, barcode: string)
    ensures ScanPathVenueCode(Path(ScanTicket(code, barcode))) == Some(code)
  {
    var p := VenuesPath + code + ScanSuffix;
    assert p[..|VenuesPath|] == VenuesPath;
    assert p[|p| - |ScanSuffix|..] == ScanSuffix;
    assert p[|VenuesPath|..|p| - |ScanSuffix|] == code;
  }

  /** The venue list path is too short to be a scan path. */
  lemma VenuesPathIsNotScanPath(lat: Coordinate, lon: Coordinate)
    ensures ScanPathVenueCode(Path(GetVenues(lat, lon))).None?
  {
  }

  /** The venue list request: GET on "/venues/", URL-encoded, with exactly the
      latitude and longitude parameters and no body. */
  lemma GetVenuesDescriptor(lat: Coordinate, lon: Coordinate)
    ensures Describe(GetVenues(lat, lon)).path == "/venues/"
    ensures Describe(GetVenues(lat, lon)).httpMethod == Get
    ensures Describe(GetVenues(lat, lon)).encoding == Url
    ensures Describe(GetVenues(lat, lon)).parameters == Some(map["latitude" := Number(lat), "longitude" := Number(lon)])
    ensures Describe(GetVenues(lat, lon)).parameters.value.Keys == {"latitude", "longitude"}
    ensures Describe(GetVenues(lat, lon)).body.None?
  {
  }

  /** The scan request: POST, JSON-encoded, no parameters and a body that
      carries the barcode unchanged. */
  lemma ScanTicketDescriptor(code: string, barcode: string)
    ensures Describe(ScanTicket(code, barcode)).httpMethod == Post
    ensures Describe(ScanTicket(code, barcode)).encoding == Json
    ensures Describe(ScanTicket(code, barcode)).parameters.None?
    ensures Describe(ScanTicket(code, barcode)).body == Some(ScanRequestBody(barcode))
  {
  }
}
