/** The app's top-level flow and the router that moves between flows. */
module Navigation {
  import opened Wrappers
  import opened VenueModel

  datatype AppFlow = Splash | LocationPermission | VenueSelection | Scanner(venue: Venue)

  /** The custom `==`: scanner flows compare only their venues' codes. */
  predicate FlowEquals(a: AppFlow, b: AppFlow) {
    match (a, b)
    case (Splash, Splash) => true
    case (LocationPermission, LocationPermission) => true
    case (VenueSelection, VenueSelection) => true
    case (Scanner(v), Scanner(w)) => v.code == w.code
    case _ => false
  }

  /** Flows of different cases are never equal; payload-free flows equal
      themselves; scanners are equal iff their venue codes are, so every other
      venue field is ignored and two code-less venues are equal. */
  lemma FlowEqualsCharacterized(a: AppFlow, b: AppFlow)
    ensures !a.Scanner? || !b.Scanner? ==> (FlowEquals(a, b) <==> a == b)
    ensures a.Scanner? && b.Scanner? ==> (FlowEquals(a, b) <==> a.venue.code == b.venue.code)
  {
  }

  /** Two scanners for different venues that share a code compare equal, so
      the custom equality is coarser than structural equality; any two venues
      without a code compare equal. */
  lemma ScannerEqualityIgnoresVenueDetails(v: Venue, w: Venue)
    ensures FlowEquals(Scanner(v), Scanner(v.(name := Some("Other"), city := None)))
    ensures v.name != Some("Other") ==> Scanner(v) != Scanner(v.(name := Some("Other")))
    ensures v.code.None? && w.code.None? ==> FlowEquals(Scanner(v), Scanner(w))
  {
  }

  /** The custom equality is an equivalence relation. */
  lemma FlowEqualsIsEquivalence(a: AppFlow, b: AppFlow, c: AppFlow)
    ensures FlowEquals(a, a)
    ensures FlowEquals(a, b) <==> FlowEquals(b, a)
    ensures FlowEquals(a, b) && FlowEquals(b, c) ==> FlowEquals(a, c)
  {
  }

  /** `AppRouter`: the flow on screen. */
  datatype AppRouter = AppRouter(currentFlow: AppFlow)

  function InitialRouter(): (r: AppRouter)
    ensures r.currentFlow == Splash
  {
    AppRouter(Splash)
  }

  function ShowLocationPermission(r: AppRouter): AppRouter { r.(currentFlow := LocationPermission) }
  function ShowVenueSelection(r: AppRouter): AppRouter { r.(currentFlow := VenueSelection) }
  function ShowScanner(r: AppRouter, v: Venue): AppRouter { r.(currentFlow := Scanner(v)) }
  function BackToVenueSelection(r: AppRouter): AppRouter { r.(currentFlow := VenueSelection) }

  /** No navigation is guarded: each method lands on its flow whatever flow
      was on screen, so routers that differ only in their flow agree after it;
      the venue selection methods agree with each other and are idempotent. */
  lemma NavigationIgnoresPriorFlow(r: AppRouter, q: AppRouter, v: Venue)
    ensures ShowLocationPermission(r) == ShowLocationPermission(q) && ShowLocationPermission(r).currentFlow == LocationPermission
    ensures ShowVenueSelection(r) == ShowVenueSelection(q) == BackToVenueSelection(q) && ShowVenueSelection(r).currentFlow == VenueSelection
    ensures ShowScanner(r, v) == ShowScanner(q, v) && ShowScanner(r, v).currentFlow == Scanner(v)
    ensures ShowVenueSelection(ShowVenueSelection(r)) == ShowVenueSelection(r)
    ensures BackToVenueSelection(BackToVenueSelection(r)) == BackToVenueSelection(r)
  {
  }
}
