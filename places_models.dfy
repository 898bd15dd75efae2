/**
 * The rows of the places application: State, Municipality, Category, Place and the two
 * per-user relations Favorite and VisitedPlace, with their column bounds and defaults.
 */
module PlacesModels {
  import opened Wrappers
  import opened Fields

  const StateNameMaxLength: nat := 35
  const MunicipalityNameMaxLength: nat := 35
  const CategoryNameMaxLength: nat := 50
  const PlaceNameMaxLength: nat := 50

  /** Both coordinates carry eight decimal places. */
  const CoordinateDecimalPlaces: nat := 8
  const LatitudeMaxDigits: nat := 10
  const LongitudeMaxDigits: nat := 11

  datatype State = State(name: string, description: Option<string>)

  datatype Municipality = Municipality(name: string, description: Option<string>, state: StateId)

  datatype Category = Category(name: string, description: Option<string>)

  /**
   * Latitude and longitude are counts of 10^-8 degrees. `image` and `video` are stored
   * media references; `isVisited` and `visitedDate` are the legacy visited columns.
   */
  datatype Place = Place(
    name: string,
    description: string,
    latitude: int,
    longitude: int,
    image: Option<string>,
    video: Option<string>,
    isVisited: bool,
    visitedDate: Option<Date>,
    municipality: MunicipalityId,
    category: CategoryId,
    route: RouteId)

  datatype Favorite = Favorite(place: PlaceId, user: UserId)

  datatype VisitedPlace = VisitedPlace(place: PlaceId, user: UserId, visitedDate: Date, notes: Option<string>)

  predicate ValidState(s: State)
  {
    FitsMaxLength(s.name, StateNameMaxLength)
  }

  predicate ValidMunicipality(m: Municipality)
  {
    FitsMaxLength(m.name, MunicipalityNameMaxLength)
  }

  predicate ValidCategory(c: Category)
  {
    FitsMaxLength(c.name, CategoryNameMaxLength)
  }

  predicate LatitudeFits(units: int)
  {
    FitsDecimal(units, LatitudeMaxDigits)
  }

  predicate LongitudeFits(units: int)
  {
    FitsDecimal(units, LongitudeMaxDigits)
  }

  predicate ValidPlace(p: Place)
  {
    FitsMaxLength(p.name, PlaceNameMaxLength) && LatitudeFits(p.latitude) && LongitudeFits(p.longitude)
  }

  /**
   * The latitude column holds two digits before the decimal point: every value strictly
   * between -100 and 100 degrees fits, so nothing narrows it to [-90, 90].
   */
  lemma LatitudeRange(units: int)
    ensures LatitudeFits(units) <==> -100 * Pow10(8) < units < 100 * Pow10(8)
  {
    FitsDecimalWholeDigits(units, LatitudeMaxDigits, CoordinateDecimalPlaces);
    assert Pow10(2) == 100;
  }

  /** The longitude column holds three whole digits: strictly between -1000 and 1000 degrees. */
  lemma LongitudeRange(units: int)
    ensures LongitudeFits(units) <==> -1000 * Pow10(8) < units < 1000 * Pow10(8)
  {
    FitsDecimalWholeDigits(units, LongitudeMaxDigits, CoordinateDecimalPlaces);
    assert Pow10(3) == 1000;
  }

  /**
   * A new Place: the media references are given or null, and the legacy visited columns
   * take their defaults (not visited, no date).
   */
  function NewPlace(
    name: string, description: string, latitude: int, longitude: int,
    image: Option<string>, video: Option<string>,
    municipality: MunicipalityId, category: CategoryId, route: RouteId): (p: Place)
    ensures !p.isVisited && p.visitedDate == None
    ensures p.name == name && p.description == description
    ensures p.latitude == latitude && p.longitude == longitude
    ensures p.image == image && p.video == video
    ensures p.municipality == municipality && p.category == category && p.route == route
  {
    Place(name, description, latitude, longitude, image, video, false, None, municipality, category, route)
  }

  /**
   * A new VisitedPlace: an omitted visit date becomes `today`; omitted notes stay null.
   */
  function NewVisitedPlace(place: PlaceId, user: UserId, visitedDate: Option<Date>, notes: Option<string>, today: Date): (v: VisitedPlace)
    ensures v.place == place && v.user == user && v.notes == notes
    ensures visitedDate.None? ==> v.visitedDate == today
    ensures visitedDate.Some? ==> v.visitedDate == visitedDate.value
  {
    VisitedPlace(place, user, visitedDate.GetOr(today), notes)
  }
}
