/** The closed failure taxonomy of the network layer, with the message each
    kind shows and whether retrying may help. */
module NetworkErrors {
  import opened Wrappers
  import opened Transport

  /** The underlying error a `decodingError` or `unknown` wraps. */
  datatype Cause = TransportCause(error: TransportError) | DecoderCause(reason: string)

  datatype NetworkError =
    | InvalidUrl
    | NoInternet
    | NoData
    | DecodingError(cause: Cause)
    | RequestFailed(statusCode: int, message: Option<string>)
    | Unauthorized(authMessage: string)
    | ServerOutage
    | Unknown(cause: Cause)

  const InvalidUrlText := "Invalid URL."
  const NoInternetText := "No internet connection. Please check your network settings."
  const NoDataText := "No data received from the server."
  const DecodingText := "Unable to process the server response."
  const RequestFailedFallback := "An unexpected error occurred."
  const ServerOutageText := "The service is temporarily unavailable. Please try again later."
  const UnknownText := "Something went wrong. Please try again."

  /** `errorDescription`, which is also the error's `localizedDescription`. */
  function Description(e: NetworkError): string {
    match e
    case InvalidUrl => InvalidUrlText
    case NoInternet => NoInternetText
    case NoData => NoDataText
    case DecodingError(_) => DecodingText
    case RequestFailed(_, message) => message.GetOr(RequestFailedFallback)
    case Unauthorized(authMessage) => authMessage
    case ServerOutage => ServerOutageText
    case Unknown(_) => UnknownText
  }

  /** `isRetryable`: outages, lost connectivity and failures with a server
      status of 500 or more. */
  predicate IsRetryable(e: NetworkError) {
    match e
    case ServerOutage => true
    case NoInternet => true
    case RequestFailed(statusCode, _) => statusCode >= 500
    case _ => false
  }

  /** The kinds whose description is a fixed text. */
  predicate HasFixedDescription(e: NetworkError) {
    !e.RequestFailed? && !e.Unauthorized?
  }

  /** Whether two errors are of the same case, whatever they carry. */
  predicate SameKind(e: NetworkError, f: NetworkError) {
    && e.InvalidUrl? == f.InvalidUrl?
    && e.NoInternet? == f.NoInternet?
    && e.NoData? == f.NoData?
    && e.DecodingError? == f.DecodingError?
    && e.RequestFailed? == f.RequestFailed?
    && e.Unauthorized? == f.Unauthorized?
    && e.ServerOutage? == f.ServerOutage?
    && e.Unknown? == f.Unknown?
  }

  /** The two kinds carrying a message show it verbatim; a request failure
      without one shows the generic fallback. */
  lemma DescriptionCarriesMessage(e: NetworkError)
    ensures e.Unauthorized? ==> Description(e) == e.authMessage
    ensures e.RequestFailed? && e.message.Some? ==> Description(e) == e.message.value
    ensures e.RequestFailed? && e.message.None? ==> Description(e) == RequestFailedFallback
  {
  }

  /** Fixed descriptions ignore whatever the error carries, and two kinds with
      fixed descriptions show the same text only when they are the same kind. */
  lemma FixedDescriptionsIgnorePayload(e: NetworkError, f: NetworkError)
    requires HasFixedDescription(e) && HasFixedDescription(f)
    ensures Description(e) == Description(f) <==> SameKind(e, f)
  {
  }

  /** Retryability by kind: outages and lost connectivity always; a request
      failure exactly from status 500 on, so the status-0 timeout and
      host errors are not; every other kind never. */
  lemma RetryableKinds(e: NetworkError)
    ensures e.ServerOutage? || e.NoInternet? ==> IsRetryable(e)
    ensures e.RequestFailed? ==> (IsRetryable(e) <==> e.statusCode >= 500)
    ensures e.RequestFailed? && e.statusCode == 0 ==> !IsRetryable(e)
    ensures e.InvalidUrl? || e.NoData? || e.DecodingError? || e.Unauthorized? || e.Unknown? ==> !IsRetryable(e)
  {
  }
}
