/** The venue list screen's state: the venues last loaded and the loading
    state. `loadVenues` suspends while the repository answers, so it is split
    into its two halves around that call. */
module VenueListViewModel {
  import opened Wrappers
  import opened Primitives
  import opened VenueModel
  import opened VenueRepository
  import opened ViewStates

  datatype VenueListViewModel = VenueListViewModel(venues: seq<Venue>, viewState: ViewState)

  const LoadFailedText := "Failed to load venues. Please try again."

  function Init(): (s: VenueListViewModel)
    ensures s.venues == [] && s.viewState == Idle
  {
    VenueListViewModel([], Idle)
  }

  /** The first half of `loadVenues`: loading, before the repository is asked. */
  function BeginLoad(s: VenueListViewModel): (t: VenueListViewModel)
    ensures t.viewState == Loading && t.venues == s.venues
  {
    s.(viewState := Loading)
  }

  /** The second half of `loadVenues`: the repository's answer arrives. */
  function FinishLoad(s: VenueListViewModel, reply: Result<seq<Venue>, ServiceError>): (t: VenueListViewModel)
    ensures t.viewState == Loaded <==> reply.Success?
    ensures reply.Success? ==> t.venues == reply.value
    ensures reply.Failure? ==> t.venues == s.venues
    ensures reply.Failure? && reply.error.Network? ==> t.viewState == Error(NetworkErrors.Description(reply.error.error))
    ensures reply.Failure? && reply.error.Foreign? ==> t.viewState == Error(LoadFailedText)
  {
    match reply
    case Success(venues) => s.(venues := venues, viewState := Loaded)
    case Failure(err) => s.(viewState := Error(FailureMessage(err, LoadFailedText)))
  }

  /** `loadVenues` when nothing interleaves with the repository call. */
  function LoadVenues(s: VenueListViewModel, repository: Repository, lat: Coordinate, lon: Coordinate): VenueListViewModel {
    FinishLoad(BeginLoad(s), repository.fetchVenues(lat, lon))
  }

  /** A load ends loaded exactly when the repository answers, with its list
      even when empty; a failed load keeps the venues shown before, and never
      leaves the screen loading or idle. */
  lemma LoadVenuesOutcome(s: VenueListViewModel, repository: Repository, lat: Coordinate, lon: Coordinate)
    ensures var t := LoadVenues(s, repository, lat, lon);
      var reply := repository.fetchVenues(lat, lon);
      && (reply.Success? ==> t == VenueListViewModel(reply.value, Loaded))
      && (reply.Failure? ==> t.venues == s.venues && t.viewState.Error?)
      && t.viewState != Loading && t.viewState != Idle
  {
  }
}
