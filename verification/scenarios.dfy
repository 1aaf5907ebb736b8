/** End-to-end runs through the whole stack: scan session, repository,
    network manager and a transport that answers in a fixed way. */
module Scenarios {
  import Wrappers
  import opened Transport
  import opened NetworkManager
  import opened VenueModel
  import opened ScanResponseModel
  import opened VenueRepository
  import opened ScannerViewModel

  /** A URL parser that accepts everything. */
  function AnyUrl(): UrlOracle {
    UrlOracle(_ => true, (_, _) => true)
  }

  /** The repository of the app, over a transport that always answers the
      same way, with the given scan decoder. */
  function AppRepository(config: Config, answer: Exchange, decodeScan: Body -> Wrappers.Result<ScanResponse, string>): Repository {
    RepositoryImpl(ManagerService(config, AnyUrl(), _ => answer, _ => Wrappers.Failure("unused"), decodeScan))
  }

  /** A session after one barcode was detected and its validation finished. */
  function AfterOneScan(venue: Venue, repository: Repository): ScannerViewModel {
    Step(Step(Init(venue), BarcodeDetected("TICKET-1")), ValidationFinished(0, repository))
  }

  /** The server approves with status "Approved": the outcome shows
      approval with that text, and when the auto-resume wakes the session is
      scanning again. */
  lemma ApprovedTicket(venue: Venue, config: Config)
    requires venue.code.Some?
    ensures var response := ScanResponse(Wrappers.Some("Approved"), Wrappers.None, Wrappers.Some("SUCCESS"), Wrappers.None);
      var repository := AppRepository(config, Delivered(HttpResponse(200), ObjectBody(map[])), _ => Wrappers.Success(response));
      var s := AfterOneScan(venue, repository);
      && s.scanState == Result(true, "Approved")
      && Step(s, ResumeTaskWakes(0)).scanState == Scanning
      && Step(s, ResumeTaskWakes(0)).isScanning
  {
  }

  /** The request times out: the outcome is the timeout message. */
  lemma TimedOutValidation(venue: Venue, config: Config, decodeScan: Body -> Wrappers.Result<ScanResponse, string>)
    requires venue.code.Some?
    ensures var repository := AppRepository(config, Failed(UrlError(TimedOut)), decodeScan);
      AfterOneScan(venue, repository).scanState == Error("Request timed out. Please try again.")
  {
  }

  /** The server answers 503: the outage text is shown whatever the body. */
  lemma OutageValidation(venue: Venue, config: Config, body: Body, decodeScan: Body -> Wrappers.Result<ScanResponse, string>)
    requires venue.code.Some?
    ensures var repository := AppRepository(config, Delivered(HttpResponse(503), body), decodeScan);
      AfterOneScan(venue, repository).scanState == Error(NetworkErrors.ServerOutageText)
  {
  }

  /** A venue without a code: the configuration error, for any answer. */
  lemma MissingVenueCode(venue: Venue, config: Config, answer: Exchange, decodeScan: Body -> Wrappers.Result<ScanResponse, string>)
    requires venue.code.None?
    ensures AfterOneScan(venue, AppRepository(config, answer, decodeScan)).scanState == Error("Invalid venue configuration.")
  {
  }
}
