/** The loading state of a screen, with its hand-written equality. */
module ViewStates {

  datatype ViewState = Idle | Loading | Loaded | Error(message: string)

  /** The custom `==`: same case, and for errors the same message. */
  predicate ViewStateEquals(a: ViewState, b: ViewState) {
    match (a, b)
    case (Idle, Idle) => true
    case (Loading, Loading) => true
    case (Loaded, Loaded) => true
    case (Error(x), Error(y)) => x == y
    case _ => false
  }

  /** The custom equality is structural equality: each payload-free case
      equals itself, errors are equal iff their messages are, and different
      cases never are. Hence it is reflexive and symmetric. */
  lemma ViewStateEqualsIsStructural(a: ViewState, b: ViewState)
    ensures ViewStateEquals(a, b) <==> a == b
    ensures a.Error? && b.Error? ==> (ViewStateEquals(a, b) <==> a.message == b.message)
    ensures ViewStateEquals(a, a) && (ViewStateEquals(a, b) <==> ViewStateEquals(b, a))
  {
  }
}
