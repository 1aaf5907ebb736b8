# TicketScanner network layer and scan session, in Dafny

This project models the core of a venue ticket-scanning client. It covers:

- the **request pipeline**. An endpoint descriptor becomes a URL request carrying credentials. The transport's outcome then becomes either a decoded value or exactly one of eight `NetworkError` kinds, each with a message and a retryability flag.
- the **domain facade**. The venue repository and the two models it returns: venues and scan responses.
- the **state machines**. These are the scan session (scanning → processing → outcome → scanning, with a cancellable auto-resume), the venue list loader, and the app router with its custom flow equality.

Everything is an immutable datatype with total functions. The transport, URL parsing and the typed JSON decoder are inputs:

- the URL parser is a `UrlOracle`;
- the transport is a function from request to `Exchange`;
- the decoder is a function from `Body` to a result.

The response body is reduced to the four shapes the error-message extraction tells apart: empty, a JSON object, other UTF-8 text, and undecodable bytes.

Asynchronous work in the scan session is made explicit:

- A validation task starts on detection and finishes later as its own event.
- Every armed auto-resume task is recorded as sleeping, cancelled or fired.
- The wake-up after the 5-second delay is an event.

No clock is modelled.

Modules follow the source files: `ApiEndpoint`, `TicketekEndpoint`, `NetworkErrors`, `NetworkManager`, `VenueModel`, `ScanResponseModel`, `VenueRepository`, `ScannerViewModel`, `VenueListViewModel`, `Navigation`, `ViewStates`. There are also the helper modules `Wrappers`, `Text`, `Primitives` and `Transport`, plus `Scenarios` for end-to-end runs.

Four behaviours of the code differ from what a reader of the scanner and the network layer would expect. The model follows the code, and each difference is stated as a lemma:

- **Manual resume.** Intended: the "Scan Next Ticket" button also cancels the pending auto-resume. The code's `resumeScanning` leaves it armed (see Findings).
- **Error-message fallback.** A JSON object with no string `message`/`error`/`status` yields no message at all, so the status class's fallback text is shown. Only a body that is not a JSON object falls back to its own text.
- **Teardown.** Intended: leaving the scanner leaves no auto-resume behind. The code's `cancelResume` cancels only the task already armed. A validation still in flight finishes afterwards and arms a new one (`ScannerViewModel.TeardownDuringValidationStillArms`).
- **Empty body on an error status.** Empty data is not JSON but is valid UTF-8, so the extracted message is `""`, not the status class's fallback text. The user sees an empty message (`NetworkManager.EmptyErrorBodyGivesEmptyMessage`).

## Model

| member | source | states |
|---|---|---|
| ApiEndpoint.RawValuesDistinct | Core/Networking/ApiEndpoint.swift:12-18 | raw values GET, POST, PUT, DELETE, PATCH read back to their method, so they are pairwise distinct; lower-case "get" is no method |
| ApiEndpoint.Defaults | Core/Networking/ApiEndpoint.swift:45-57 | default headers are exactly Content-Type: application/json and accept-language: en; no parameters, no body, JSON encoding |
| TicketekEndpoint.Describe | Core/Endpoints/TicketekEndpoint.swift:39-60 | each endpoint has exactly one of parameters and body, and uses the protocol's default headers |
| TicketekEndpoint.ScanPathRoundTrip | Core/Endpoints/TicketekEndpoint.swift:21-22 | the venue code is embedded verbatim in the scan path: it is recovered unchanged from between "/venues/" and "/pax/entry/scan" |
| TicketekEndpoint.VenuesPathIsNotScanPath | Core/Endpoints/TicketekEndpoint.swift:19-22 | the venue list path cannot be mistaken for a scan path |
| TicketekEndpoint.GetVenuesDescriptor | Core/Endpoints/TicketekEndpoint.swift:19-67 | venue list: path "/venues/", GET, URL encoding, parameters exactly {latitude, longitude}, no body |
| TicketekEndpoint.ScanTicketDescriptor | Core/Endpoints/TicketekEndpoint.swift:32-69 | scan: POST, JSON encoding, no parameters, body carrying the barcode unchanged |
| NetworkErrors.DescriptionCarriesMessage | Core/Networking/NetworkError.swift:32-35 | unauthorized shows its message verbatim; a request failure shows its message, or "An unexpected error occurred." without one |
| NetworkErrors.FixedDescriptionsIgnorePayload | Core/Networking/NetworkError.swift:22-41 | the six fixed descriptions ignore any payload and are pairwise different, so two such errors show the same text iff they are the same kind |
| NetworkErrors.RetryableKinds | Core/Networking/NetworkError.swift:46-55 | outage and no-internet are retryable; a request failure iff its status is at least 500 (so status 0 is not); all other kinds never |
| NetworkManager.BuildRequest | Core/Networking/NetworkManager.swift:82-118 | a request is built exactly when the URL text parses and, with its query items, resolves; otherwise the result is invalidURL. Query items are attached iff (URL encoding or GET) and parameters exist, so a GET declaring JSON still gets them. Credentials overwrite the endpoint's own credential headers; all other endpoint headers are kept. GET never has a payload. An explicit body wins; parameters are serialized only with no body and JSON encoding; in every other case there is no payload. Timeout is 30 s |
| NetworkManager.ExtractErrorMessage | Core/Networking/NetworkManager.swift:145-153 | for a JSON object: the first string-valued field among message, error, status, and none (no raw-text fallback) if none is a string; otherwise the UTF-8 text, with empty data giving "" and undecodable data nothing |
| NetworkManager.ValidateResponse | Core/Networking/NetworkManager.swift:122-141 | passes iff 200–299 (section 15.3 of RFC 9110). 401 maps to unauthorized. 503 maps to serverOutage. Any other failure is requestFailed with the same status. The message shown is the body's, else the class fallback. A rejected status is retryable iff it is at least 500 |
| NetworkManager.MapUrlError | Core/Networking/NetworkManager.swift:155-166 | not-connected / connection-lost / data-not-allowed map to noInternet; timeout and host errors to requestFailed with status 0 and their fixed texts; all else to unknown; of these only noInternet is retryable |
| NetworkManager.MapTransportError | Core/Networking/NetworkManager.swift:55-61 | a URLError is mapped by code; any other thrown error becomes unknown |
| NetworkManager.RequestSucceedsExactly | Core/Networking/NetworkManager.swift:49-78 | a request returns a value iff the URL is valid, an HTTP response with a 2xx status and a non-empty body arrives, and the decoder accepts it; the value is the decoder's |
| NetworkManager.InvalidUrlStopsEarly | Core/Networking/NetworkManager.swift:49-50 | an invalid URL gives invalidURL whatever the transport would have answered |
| NetworkManager.CheckOrder | Core/Networking/NetworkManager.swift:55-77 | transport errors are mapped. A non-HTTP response is noData. A failing status wins over an empty body. A 2xx with an empty body is noData. A decoder failure is always decodingError |
| NetworkManager.EmptyErrorBodyGivesEmptyMessage | Core/Networking/NetworkManager.swift:122-153 | an error status (other than 503) with an empty body yields an error whose description is the empty string |
| NetworkManager.MessageExamples | Core/Networking/NetworkManager.swift:145-153 | {"message":"X"} gives X; {"error":"Y"} gives Y; a non-string message is skipped; an object without the keys gives nothing; plain text is returned as is |
| VenueModel.Id | Core/Models/Venue.swift:22 | the identity is the code whenever the code is present |
| Text.PresentAppend | Core/Models/Venue.swift:24-28 | `compactMap { $0 }` keeps exactly the present values, and dropping absent values commutes with concatenation, so their order is kept |
| VenueModel.FormattedLocationCases | Core/Models/Venue.swift:24-28 | the formatted location equals a case-by-case definition over the eight present/absent combinations of city, state, postcode |
| VenueModel.FormattedLocationLength | Core/Models/Venue.swift:24-28 | all absent gives ""; k present parts give exactly k−1 separators of ", " |
| VenueModel.EmptyPartStillSeparated | Core/Models/Venue.swift:26-27 | a present but empty city still counts as a part: city "" and state "NSW" give ", NSW" |
| VenueModel.FormattedLocationIgnoresOtherFields | Core/Models/Venue.swift:10-28 | only city, state and postcode affect the formatted location |
| VenueModel.FieldForKey | Core/Models/Venue.swift:30-34 | a recognised JSON key decodes into the field whose coding key it is |
| VenueModel.CodingKeysRoundTrip | Core/Models/Venue.swift:30-34 | coding keys round-trip through field lookup, so they are distinct; pax locations come from "pax_locations" and "paxLocations" is not a key |
| ScanResponseModel.IsSuccessIgnoresCase | Core/Models/ScanResponse.swift:16-18 | success iff result is present and spells SUCCESS in any mix of letter cases; absent result is not success |
| ScanResponseModel.IsSuccessExamples | Core/Models/ScanResponse.swift:16-18 | "success" and "Success" qualify; an absent result and "SUCCESSFUL" do not |
| ScanResponseModel.DisplayMessage | Core/Models/ScanResponse.swift:20-25 | a present status is always the message; otherwise "Valid Ticket" on success, and on failure the result, else "Ticket validation failed" |
| ScanResponseModel.DerivationsIgnoreActionAndConcession | Core/Models/ScanResponse.swift:10-25 | action and concession never affect the verdict or the message |
| VenueRepository.FetchVenues | Core/Repositories/VenueRepository.swift:33-37 | asks for getVenues at the same coordinates; an absent venue list is an empty list, a present one is returned unchanged; errors are passed on unchanged |
| VenueRepository.RepositoryImplDelegates | Core/Repositories/VenueRepository.swift:33-44 | the repository asks for exactly its arguments' endpoint and returns the scan reply unchanged; no retry, no remapping |
| VenueRepository.ManagerFailuresAreClassified | Core/Networking/NetworkManager.swift:49-78 | over the network manager, every failure of either repository operation is a NetworkError; no other error escapes |
| VenueRepository.ScanRequestOnTheWire | Core/Networking/NetworkManager.swift:82-118 | a scan is a POST to base + "/venues/" + code + "/pax/entry/scan" with no query, the barcode body, and exactly the two default headers plus both credentials |
| VenueRepository.VenuesRequestOnTheWire | Core/Networking/NetworkManager.swift:87-92 | the venue list is a GET to base + "/venues/" with the two coordinates as query items and no payload |
| ScannerViewModel.ScanStateEqualsIsStructural | Features/BarCodeScanner/ViewModel/ScannerViewModel.swift:18-29 | the custom ScanState equality is structural equality |
| ScannerViewModel.Init | Features/BarCodeScanner/ViewModel/ScannerViewModel.swift:39-40 | a session starts scanning with the camera on, no task armed and no validation running |
| ScannerViewModel.HandleBarcodeDetected | Features/BarCodeScanner/ViewModel/ScannerViewModel.swift:58-67 | a detection is a no-op unless scanning; otherwise camera off, processing, and a validation of that barcode started |
| ScannerViewModel.ValidationState | Features/BarCodeScanner/ViewModel/ScannerViewModel.swift:71-85 | no code: "Invalid venue configuration."; repository success: result(isSuccess, displayMessage); NetworkError: its description; any other error: "Failed to validate ticket. Please try again." |
| ScannerViewModel.MissingCodeSkipsRepository | Features/BarCodeScanner/ViewModel/ScannerViewModel.swift:72-76 | without a venue code the repository is never consulted |
| ScannerViewModel.CancelCurrent | Features/BarCodeScanner/ViewModel/ScannerViewModel.swift:93 | cancelling leaves no resume pending and changes no earlier task |
| ScannerViewModel.ScheduleResume | Features/BarCodeScanner/ViewModel/ScannerViewModel.swift:92-99 | arming cancels the current task first and adds one sleeping task, so at most one uncancelled resume exists |
| ScannerViewModel.CompleteValidation | Features/BarCodeScanner/ViewModel/ScannerViewModel.swift:71-88 | every finished validation, the missing-code one included, shows its state and arms the auto-resume exactly once: the current sleeping task is cancelled, earlier tasks keep their fate and one sleeping task is appended; isScanning is left as it was |
| ScannerViewModel.ResumeScanning | Features/BarCodeScanner/ViewModel/ScannerViewModel.swift:101-104 | from any state: scanning with the camera on; the pending resume task and running validations are untouched |
| ScannerViewModel.CancelResume | Features/BarCodeScanner/ViewModel/ScannerViewModel.swift:108-110 | only the current task is cancelled: earlier tasks keep their fate, so no resume is pending afterwards, and no other field changes |
| ScannerViewModel.ResumeWakes | Features/BarCodeScanner/ViewModel/ScannerViewModel.swift:94-97 | a task waking after the delay resumes scanning only if it was not cancelled, leaving validations and venue alone; otherwise nothing changes |
| ScannerViewModel.ScanNext | Features/BarCodeScanner/ViewModel/ScannerViewModel.swift:101-110 | the corrected button: scanning with camera on; the current task is cancelled and earlier tasks keep their fate, so in a session with at most one sleeping task no task is left sleeping; validations and venue unchanged |
| ScannerViewModel.InitConsistent | Features/BarCodeScanner/ViewModel/ScannerViewModel.swift:39-45 | the initial session satisfies the session invariant |
| ScannerViewModel.StepKeepsConsistent | Features/BarCodeScanner/ViewModel/ScannerViewModel.swift:58-110 | with the corrected button, every event keeps the invariant. The invariant: isScanning iff scanning; one validation in flight iff processing; at most one resume pending, and only while an outcome is shown |
| ScannerViewModel.RunKeepsConsistent | Features/BarCodeScanner/ViewModel/ScannerViewModel.swift:58-110 | any event sequence from a consistent session ends consistent |
| ScannerViewModel.ArmingTwiceLeavesOnePending | Features/BarCodeScanner/ViewModel/ScannerViewModel.swift:92-97 | arming twice in a row leaves exactly one task pending, the second; the first does nothing when it wakes |
| ScannerViewModel.StaleResumeWakesAsWritten | Features/BarCodeScanner/ViewModel/ScannerViewModel.swift:92-104 | as written, an outcome's auto-resume survives "Scan Next Ticket" and turns the camera on while the next barcode is being validated |
| ScannerViewModel.ManualResumeRaceAsWritten | Features/BarCodeScanner/ViewModel/ScannerViewModel.swift:78-104 | as written, the next outcome is then shown with the camera running, breaking "isScanning iff scanning" |
| ScannerViewModel.SecondValidationAsWritten | Features/BarCodeScanner/ViewModel/ScannerViewModel.swift:58-67 | as written, a second barcode is then admitted while the first is still being validated |
| ScannerViewModel.ScanNextClosesRace | Features/BarCodeScanner/ViewModel/ScannerViewModel.swift:92-110 | with the corrected button the stale wake-up finds its task cancelled and the validation proceeds undisturbed |
| ScannerViewModel.TeardownDuringValidationStillArms | Features/BarCodeScanner/ViewModel/ScannerViewModel.swift:71-110 | `cancelResume` cancels only the task already armed: a validation still running at teardown arms a fresh auto-resume when it finishes, which later wakes and resumes scanning |
| ViewStates.ViewStateEqualsIsStructural | Shared/ViewState.swift:16-25 | idle, loading, loaded equal themselves; errors are equal iff their messages are; different cases never; the relation is structural equality, reflexive and symmetric |
| VenueListViewModel.Init | Features/VenueList/ViewModel/VenueListViewModel.swift:15-16 | no venues and idle at first |
| VenueListViewModel.BeginLoad | Features/VenueList/ViewModel/VenueListViewModel.swift:29 | loading is shown before the repository is asked, venues unchanged |
| VenueListViewModel.FinishLoad | Features/VenueList/ViewModel/VenueListViewModel.swift:31-39 | loaded iff the repository answered, with its list replacing the venues even when empty; on failure the venues are kept. The state shows the NetworkError's description, or "Failed to load venues. Please try again." for any other error |
| VenueListViewModel.LoadVenuesOutcome | Features/VenueList/ViewModel/VenueListViewModel.swift:28-40 | a complete load never ends loading or idle; success replaces the venues, failure keeps them |
| Navigation.FlowEqualsCharacterized | Shared/Navigation/AppFlow.swift:16-27 | different cases are never equal; splash, location permission and venue selection equal only themselves; scanners are equal iff their venue codes are |
| Navigation.ScannerEqualityIgnoresVenueDetails | Shared/Navigation/AppFlow.swift:22-23 | venues differing only in other fields give equal scanner flows though the flows differ structurally; two code-less venues compare equal |
| Navigation.FlowEqualsIsEquivalence | Shared/Navigation/AppFlow.swift:16-27 | the flow equality is reflexive, symmetric and transitive |
| Navigation.InitialRouter | Shared/Navigation/AppRouter.swift:15 | the router starts at the splash flow |
| Navigation.NavigationIgnoresPriorFlow | Shared/Navigation/AppRouter.swift:19-33 | no navigation is guarded: each lands on its flow from any prior flow. showVenueSelection and backToVenueSelection agree and are idempotent |
| Scenarios.ApprovedTicket | Features/BarCodeScanner/ViewModel/ScannerViewModel.swift:78-97 | through the whole stack, result "SUCCESS" with status "Approved" shows result(true, "Approved"), and the auto-resume then returns to scanning |
| Scenarios.TimedOutValidation | Core/Networking/NetworkManager.swift:159-160 | a transport timeout shows "Request timed out. Please try again." |
| Scenarios.OutageValidation | Core/Networking/NetworkManager.swift:132-133 | a 503 shows the outage text whatever the body |
| Scenarios.MissingVenueCode | Features/BarCodeScanner/ViewModel/ScannerViewModel.swift:72-76 | a venue without code shows "Invalid venue configuration." whatever the server would answer |

## Left out

- SwiftUI views, the camera adapter (`BarcodeScannerView`, with its detection latch), location services and Info.plist configuration loading. Detected barcodes are plain event values; coordinates are opaque `Coordinate` values; base URL and credentials are plain strings.
- `Gate`, `PaxLocation` and `VenuesResponse` are declared as datatypes. Their UUID fallback identities are random, so `Id` takes the generated text as a parameter.
- URL parsing (`URLComponents`), the transport (`URLSession`), JSON parsing, typed decoding and UTF-8 decoding are inputs, not models. The order and text rendering of query items are the transport's business: query items are kept as the parameter map.
- Header names are compared exactly. `URLRequest` folds their case, so an endpoint header "X-API-KEY" would also be replaced; no endpoint declares one.
- The decoder sees the response data only in the reduced `Body` form, whose JSON objects keep just whether each top-level field is a string. Two payloads that agree on that shape decode identically in the model; the typed decoding of venue lists and scan responses is not modelled.
- JSON encoding of request bodies is assumed to succeed. For the scan body (one string) and the coordinate parameters it cannot fail, so its error path is not modelled.
- `Navigation.FlowEqualsCharacterized`, `ScannerViewModel.ScanStateEqualsIsStructural`, `ViewStates.ViewStateEqualsIsStructural`: string equality is exact code-point equality. Swift's `String ==`, which the equality of `AppFlow`, `ScanState` and `ViewState` uses, compares by Unicode canonical equivalence, so "é" precomposed and "e" plus a combining accent are equal there but different here.
- `ScanResponseModel.IsSuccessIgnoresCase`: upper-casing is modelled for ASCII letters only. Swift's Unicode case mapping also maps a few non-ASCII letters onto S, U, C or E, and those spellings are not covered.
- The 30-second transport timeout and the 5-second resume delay are constants; no time passes in the model. A timeout is the `TimedOut` transport outcome; a delay's end is the `ResumeTaskWakes` event.
- The venue list's guard against starting a load while one is running is view-layer code; `loadVenues` itself is modelled without it.

## Findings

| source | as written | input that shows it | evidently intended | confidence | as-written member | corrected member |
|---|---|---|---|---|---|---|
| Features/BarCodeScanner/ViewModel/ScannerViewModel.swift:101-104 | "Scan Next Ticket" calls `resumeScanning`, which leaves the outcome's auto-resume task armed | outcome shown; tap "Scan Next Ticket"; detect barcode B; the old task wakes before B's validation finishes; B's validation finishes | manual resume cancels the pending auto-resume, so a stale wake-up cannot turn the camera on during the next validation (which then ends with an outcome shown while `isScanning` is true, and lets a second barcode start a parallel validation) | medium, not executed | ScannerViewModel.ManualResumeRaceAsWritten | ScannerViewModel.ScanNext |
