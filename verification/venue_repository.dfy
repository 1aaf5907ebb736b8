/** The typed facade over the network layer: the two domain operations, the
    repository interface the view models depend on, and the repository
    backed by the network manager. */
module VenueRepository {
  import opened Wrappers
  import opened Primitives
  import opened Transport
  import opened NetworkErrors
  import opened NetworkManager
  import opened TicketekEndpoint
  import opened VenueModel
  import opened ScanResponseModel
  import ApiEndpoint

  /** An error thrown through the repository: a `NetworkError`, or any other
      error a network service implementation may throw. */
  datatype ServiceError = Network(error: NetworkError) | Foreign(description: string)

  /** A `NetworkService`: `request` at the two response types the
      repository asks for. */
  datatype NetworkService = NetworkService(
    requestVenues: TicketekEndpoint -> Result<VenuesResponse, ServiceError>,
    requestScan: TicketekEndpoint -> Result<ScanResponse, ServiceError>)

  /** The `VenueRepository` interface, as the view models see it. */
  datatype Repository = Repository(
    fetchVenues: (Coordinate, Coordinate) -> Result<seq<Venue>, ServiceError>,
    scanTicket: (string, string) -> Result<ScanResponse, ServiceError>)

  /** `fetchVenues`: asks for the venues at the given coordinates; an absent
      list is an empty one. Errors pass through unchanged. */
  function FetchVenues(service: NetworkService, lat: Coordinate, lon: Coordinate): (r: Result<seq<Venue>, ServiceError>)
    ensures var reply := service.requestVenues(GetVenues(lat, lon));
      && (r.Failure? <==> reply.Failure?)
      && (r.Failure? ==> r.error == reply.error)
      && (r.Success? && reply.value.venues.None? ==> r.value == [])
      && (r.Success? && reply.value.venues.Some? ==> r.value == reply.value.venues.value)
  {
    match service.requestVenues(GetVenues(lat, lon))
    case Success(response) => Success(response.venues.GetOr([]))
    case Failure(err) => Failure(err)
  }

  /** `scanTicket`: asks the scan endpoint for this venue and barcode and
      returns its reply, success or error, unchanged. */
  function ScanTicket(service: NetworkService, venueCode: string, barcode: string): Result<ScanResponse, ServiceError>
  {
    service.requestScan(TicketekEndpoint.ScanTicket(venueCode, barcode))
  }

  /** `VenueRepositoryImpl` over a network service. */
  function RepositoryImpl(service: NetworkService): Repository {
    Repository(
      (lat, lon) => FetchVenues(service, lat, lon),
      (code, barcode) => ScanTicket(service, code, barcode))
  }

  /** The repository asks the network service for exactly the endpoint of
      its arguments and hands back the reply: a scan reply, success or
      error, unchanged; a venue list reply without its wrapper, errors
      unchanged. There is no retry and no remapping. */
  lemma RepositoryImplDelegates(service: NetworkService, lat: Coordinate, lon: Coordinate, code: string, barcode: string)
    ensures RepositoryImpl(service).scanTicket(code, barcode) == service.requestScan(TicketekEndpoint.ScanTicket(code, barcode))
    ensures service.requestVenues(GetVenues(lat, lon)).Failure? ==>
      RepositoryImpl(service).fetchVenues(lat, lon) == Failure(service.requestVenues(GetVenues(lat, lon)).error)
    ensures service.requestVenues(GetVenues(lat, lon)).Success? ==>
      RepositoryImpl(service).fetchVenues(lat, lon) == Success(service.requestVenues(GetVenues(lat, lon)).value.venues.GetOr([]))
  {
  }

  /** The network manager as a network service. */
  function ManagerService(
    config: Config, urls: UrlOracle, transport: UrlRequest -> Exchange,
    decodeVenues: Body -> Result<VenuesResponse, string>,
    decodeScan: Body -> Result<ScanResponse, string>): NetworkService
  {
    NetworkService(
      e => Request(Describe(e), config, urls, transport, decodeVenues).MapFailure(err => Network(err)),
      e => Request(Describe(e), config, urls, transport, decodeScan).MapFailure(err => Network(err)))
  }

  /** Over the network manager, every failure of either operation is a
      classified `NetworkError`: nothing else escapes. */
  lemma ManagerFailuresAreClassified(
    config: Config, urls: UrlOracle, transport: UrlRequest -> Exchange,
    decodeVenues: Body -> Result<VenuesResponse, string>,
    decodeScan: Body -> Result<ScanResponse, string>,
    lat: Coordinate, lon: Coordinate, code: string, barcode: string)
    ensures var service := ManagerService(config, urls, transport, decodeVenues, decodeScan);
      && (FetchVenues(service, lat, lon).Failure? ==> FetchVenues(service, lat, lon).error.Network?)
      && (ScanTicket(service, code, barcode).Failure? ==> ScanTicket(service, code, barcode).error.Network?)
  {
  }

  /** The message a view model shows for a failure: a network error's
      description, or its own fallback text for any other error. */
  function FailureMessage(e: ServiceError, fallback: string): (m: string)
    ensures e.Network? ==> m == Description(e.error)
    ensures e.Foreign? ==> m == fallback
  {
    match e
    case Network(err) => Description(err)
    case Foreign(_) => fallback
  }
  /** On the wire, a scan is a POST to the venue's scan path with the barcode
      as the JSON body, no query and both credentials. */
  lemma ScanRequestOnTheWire(config: Config, urls: UrlOracle, code: string, barcode: string)
    requires BuildRequest(Describe(TicketekEndpoint.ScanTicket(code, barcode)), config, urls).Success?
    ensures var req := BuildRequest(Describe(TicketekEndpoint.ScanTicket(code, barcode)), config, urls).value;
      && req.url == config.baseUrl + "/venues/" + code + "/pax/entry/scan"
      && req.httpMethod == "POST"
      && req.queryItems.None?
      && req.payload == EncodedBody(ApiEndpoint.ScanRequestBody(barcode))
      && req.headers == map["Content-Type" := "application/json", "accept-language" := "en",
                            "x-api-key" := config.apiKey, "authorization" := config.apiAuth]
  {
  }

  /** On the wire, the venue list is a GET with the two coordinates as query
      items and no body. */
  lemma VenuesRequestOnTheWire(config: Config, urls: UrlOracle, lat: Coordinate, lon: Coordinate)
    requires BuildRequest(Describe(GetVenues(lat, lon)), config, urls).Success?
    ensures var req := BuildRequest(Describe(GetVenues(lat, lon)), config, urls).value;
      && req.url == config.baseUrl + "/venues/"
      && req.httpMethod == "GET"
      && req.queryItems == Some(map["latitude" := ApiEndpoint.Number(lat), "longitude" := ApiEndpoint.Number(lon)])
      && req.payload == NoPayload
  {
  }
}
