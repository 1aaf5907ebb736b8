/** The venue records decoded from the venue list response: `Gate`,
    `PaxLocation`, `Venue` and `VenuesResponse`, every field optional. */
module VenueModel {
  import opened Wrappers
  import opened Primitives
  import opened Text

  /** A physical gate of a pax location. */
  datatype Gate = Gate(name: Option<string>)

  /** A named entry area of a venue. */
  datatype PaxLocation = PaxLocation(name: Option<string>, gates: Option<seq<Gate>>)

  datatype Venue = Venue(
    code: Option<string>,
    name: Option<string>,
    address: Option<string>,
    city: Option<string>,
    state: Option<string>,
    postcode: Option<string>,
    latitude: Option<Coordinate>,
    longitude: Option<Coordinate>,
    timezone: Option<string>,
    paxLocations: Option<seq<PaxLocation>>)

  /** The body of the venue list endpoint. */
  datatype VenuesResponse = VenuesResponse(venues: Option<seq<Venue>>)

  /** The venue's identity for list display: its code, or the freshly
      generated UUID text `generated` when the server sent none. */
  function Id(v: Venue, generated: string): (id: string)
    ensures v.code.Some? ==> id == v.code.value
    ensures v.code.None? ==> id == generated
  {
    v.code.GetOr(generated)
  }

  /** The separator of `formattedLocation`. */
  const LocationSeparator := ", "

  /** `formattedLocation`: the present parts among city, state and postcode,
      in that order, joined by ", ". */
  function FormattedLocation(v: Venue): string {
    Join(Present([v.city, v.state, v.postcode]), LocationSeparator)
  }

  /** An independent, case-by-case definition of the formatted location. */
  function FormattedLocationByCases(city: Option<string>, state: Option<string>, postcode: Option<string>): string {
    match (city, state, postcode)
    case (None, None, None) => ""
    case (Some(c), None, None) => c
    case (None, Some(s), None) => s
    case (None, None, Some(p)) => p
    case (Some(c), Some(s), None) => c + ", " + s
    case (Some(c), None, Some(p)) => c + ", " + p
    case (None, Some(s), Some(p)) => s + ", " + p
    case (Some(c), Some(s), Some(p)) => c + ", " + s + ", " + p
  }

  /** The formatted location agrees with the case-by-case definition for all
      eight combinations of present and absent parts. */
  lemma FormattedLocationCases(v: Venue)
    ensures FormattedLocation(v) == FormattedLocationByCases(v.city, v.state, v.postcode)
  {
    var parts := [v.city, v.state, v.postcode];
    assert parts[1..] == [v.state, v.postcode];
    assert parts[1..][1..] == [v.postcode];
    assert parts[1..][1..][1..] == [];
    assert Present(parts) == Part(v.city) + Present(parts[1..]);
    assert Present(parts[1..]) == Part(v.state) + Present(parts[1..][1..]);
    assert Present(parts[1..][1..]) == Part(v.postcode);
    assert Present(parts) == Part(v.city) + Part(v.state) + Part(v.postcode);
    var sep := LocationSeparator;
    match (v.city, v.state, v.postcode)
    case (None, None, None) =>
    case (Some(c), None, None) =>
    case (None, Some(t), None) =>
    case (None, None, Some(p)) =>
    case (Some(c), Some(t), None) =>
      assert Present(parts) == [c, t];
      JoinTwo(c, t, sep);
    case (Some(c), None, Some(p)) =>
      assert Present(parts) == [c, p];
      JoinTwo(c, p, sep);
    case (None, Some(t), Some(p)) =>
      assert Present(parts) == [t, p];
      JoinTwo(t, p, sep);
    case (Some(c), Some(t), Some(p)) =>
      assert Present(parts) == [c, t, p];
      JoinThree(c, t, p, sep);
  }

  /** Two parts are joined by one separator. */
  lemma JoinTwo(a: string, b: string, sep: string)
    ensures Join([a, b], sep) == a + sep + b
  {
    assert [a, b][1..] == [b];
  }

  /** Three parts are joined by two separators. */
  lemma JoinThree(a: string, b: string, c: string, sep: string)
    ensures Join([a, b, c], sep) == a + sep + b + sep + c
  {
    assert [a, b, c][1..] == [b, c];
    JoinTwo(b, c, sep);
  }

  /** The contribution of one optional part to `Present`. */
  function Part(o: Option<string>): seq<string> {
    if o.Some? then [o.value] else []
  }

  /** The number of present location parts. */
  function PresentCount(v: Venue): nat {
    (if v.city.Some? then 1 else 0) + (if v.state.Some? then 1 else 0) + (if v.postcode.Some? then 1 else 0)
  }

  /** The combined length of the present location parts. */
  function PresentLength(v: Venue): nat {
    |v.city.GetOr("")| + |v.state.GetOr("")| + |v.postcode.GetOr("")|
  }

  /** k present parts give exactly k - 1 separators; nothing present gives
      the empty string. A present but empty part still counts. */
  lemma FormattedLocationLength(v: Venue)
    ensures PresentCount(v) == 0 ==> FormattedLocation(v) == ""
    ensures PresentCount(v) >= 1 ==>
      |FormattedLocation(v)| == PresentLength(v) + (PresentCount(v) - 1) * |LocationSeparator|
  {
    FormattedLocationCases(v);
  }

  /** A present but empty city is kept as a part, so a separator follows it. */
  lemma EmptyPartStillSeparated(v: Venue)
    requires v.city == Some("") && v.state == Some("NSW") && v.postcode.None?
    ensures FormattedLocation(v) == ", NSW"
  {
    FormattedLocationCases(v);
  }

  /** Only city, state and postcode feed the formatted location. */
  lemma FormattedLocationIgnoresOtherFields(v: Venue, w: Venue)
    requires v.city == w.city && v.state == w.state && v.postcode == w.postcode
    ensures FormattedLocation(v) == FormattedLocation(w)
  {
    FormattedLocationCases(v);
    FormattedLocationCases(w);
  }

  /** The fields of a venue as they are named in the decoder's `CodingKeys`. */
  datatype VenueField =
    | CodeField | NameField | AddressField | CityField | StateField | PostcodeField
    | LatitudeField | LongitudeField | TimezoneField | PaxLocationsField

  /** The JSON key each field decodes from. */
  function CodingKey(f: VenueField): string {
    match f
    case CodeField => "code"
    case NameField => "name"
    case AddressField => "address"
    case CityField => "city"
    case StateField => "state"
    case PostcodeField => "postcode"
    case LatitudeField => "latitude"
    case LongitudeField => "longitude"
    case TimezoneField => "timezone"
    case PaxLocationsField => "pax_locations"
  }

  /** The field a JSON key decodes into; keys outside `CodingKeys` are ignored. */
  function FieldForKey(key: string): (f: Option<VenueField>)
    ensures f.Some? ==> CodingKey(f.value) == key
  {
    if key == "code" then Some(CodeField)
    else if key == "name" then Some(NameField)
    else if key == "address" then Some(AddressField)
    else if key == "city" then Some(CityField)
    else if key == "state" then Some(StateField)
    else if key == "postcode" then Some(PostcodeField)
    else if key == "latitude" then Some(LatitudeField)
    else if key == "longitude" then Some(LongitudeField)
    else if key == "timezone" then Some(TimezoneField)
    else if key == "pax_locations" then Some(PaxLocationsField)
    else None
  }

  /** Every field is found again from its key, so no two fields share a key;
      pax locations are read from the snake_case "pax_locations", and the
      camelCase "paxLocations" is not a key at all. */
  lemma CodingKeysRoundTrip(f: VenueField)
    ensures FieldForKey(CodingKey(f)) == Some(f)
    ensures CodingKey(f) == "pax_locations" <==> f == PaxLocationsField
    ensures FieldForKey("paxLocations").None?
  {
  }
}
