/**
 * The read projections of the places application. A nested serializer follows a foreign
 * key and embeds the referenced row's own projection; a primary-key field gives the id
 * only. Each projection is paired with a reader that recovers the row from it.
 */
module PlacesSerializers {
  import opened Wrappers
  import opened Fields
  import opened PlacesModels
  import opened RoutesModels
  import opened EntityStore
  import opened Representation

  /** `fields = '__all__'` on State and Category: the primary key and the model's columns. */
  const StateFields: set<Key> := {IdField, NameField, DescriptionField}
  const CategoryFields: set<Key> := {IdField, NameField, DescriptionField}
  const MunicipalityFields: set<Key> := {IdField, NameField, DescriptionField, StateField}

  /** The Place field tuple as declared, repeats included. */
  const PlaceFieldTuple: seq<Key> := [
    IdField, NameField, DescriptionField, LatitudeField, LongitudeField, ImageField, VideoField,
    MunicipalityField, CategoryField, RouteField, MunicipalityField, CategoryField, RouteField]

  /** The fields a Place projection carries. */
  const PlaceFields: set<Key> := {IdField, NameField, DescriptionField, LatitudeField, LongitudeField,
                                  ImageField, VideoField, MunicipalityField, CategoryField, RouteField}

  /** The inner Route serializer of PlaceSerializer. */
  const RouteSummaryFields: set<Key> := {IdField, NameField, DescriptionField, DurationField}

  /** `'__all__'` on Favorite and VisitedPlace. */
  const FavoriteFields: set<Key> := {IdField, PlaceField, UserField}
  const VisitedPlaceFields: set<Key> := {IdField, PlaceField, UserField, VisitedDateField, NotesField}

  /**
   * A serializer emits each named field once, however often the tuple names it: the
   * repeats add nothing, and the visited columns are not among the fields.
   */
  lemma PlaceTupleNamesPlaceFields()
    ensures (set f | f in PlaceFieldTuple) == PlaceFields
  {
  }

  lemma PlaceFieldsOmitVisitedColumns()
    ensures IsVisitedField !in PlaceFields && VisitedDateField !in PlaceFields
  {
  }

  // ---------------------------------------------------------------------------------------
  // What a projection needs to find in the tables

  predicate MunicipalityResolves(t: Tables, m: MunicipalityId)
  {
    m in t.municipalities && t.municipalities[m].state in t.states
  }

  predicate PlaceResolves(t: Tables, p: PlaceId)
  {
    && p in t.places
    && MunicipalityResolves(t, t.places[p].municipality)
    && t.places[p].category in t.categories
    && t.places[p].route in t.routes
  }

  /** In consistent tables every stored Place can be projected. */
  lemma ConsistentPlacesResolve(t: Tables)
    requires Consistent(t)
    ensures forall p :: p in t.places ==> PlaceResolves(t, p)
    ensures forall m :: m in t.municipalities ==> MunicipalityResolves(t, m)
  {
  }

  // ---------------------------------------------------------------------------------------
  // Projections. Each is built in two steps: an object over one row and the projections
  // of the rows it embeds; then the projection proper, which looks those rows up.

  /** The flat '__all__' object of a row that has exactly an id, a name and a nullable description. */
  function NamedRowObject(id: nat, name: string, description: Option<string>): (j: Json)
    ensures j.JObj? && j.fields.Keys == StateFields && j.fields.Keys == CategoryFields
    ensures j.fields[IdField] == JId(id) && j.fields[NameField] == JStr(name)
    ensures j.fields[DescriptionField] == OptionalText(description)
  {
    JObj(map[IdField := JId(id), NameField := JStr(name), DescriptionField := OptionalText(description)])
  }

  function StateObject(s: StateId, row: State): (j: Json)
    ensures j.JObj? && j.fields.Keys == StateFields
    ensures j.fields[IdField] == JId(s) && j.fields[NameField] == JStr(row.name)
    ensures j.fields[DescriptionField] == OptionalText(row.description)
  {
    NamedRowObject(s, row.name, row.description)
  }

  function StateJson(t: Tables, s: StateId): (j: Json)
    requires s in t.states
    ensures j.JObj? && j.fields.Keys == StateFields
  {
    StateObject(s, t.states[s])
  }

  function MunicipalityObject(m: MunicipalityId, row: Municipality, state: Json): (j: Json)
    ensures j.JObj? && j.fields.Keys == MunicipalityFields
    ensures j.fields[IdField] == JId(m) && j.fields[NameField] == JStr(row.name)
    ensures j.fields[DescriptionField] == OptionalText(row.description)
    ensures j.fields[StateField] == state
  {
    JObj(map[IdField := JId(m), NameField := JStr(row.name), DescriptionField := OptionalText(row.description),
             StateField := state])
  }

  /** The Municipality embeds its State's own projection. */
  function MunicipalityJson(t: Tables, m: MunicipalityId): (j: Json)
    requires MunicipalityResolves(t, m)
    ensures j.JObj? && j.fields.Keys == MunicipalityFields
    ensures j.fields[StateField] == StateJson(t, t.municipalities[m].state)
  {
    var row := t.municipalities[m];
    MunicipalityObject(m, row, StateJson(t, row.state))
  }

  function CategoryJson(t: Tables, c: CategoryId): (j: Json)
    requires c in t.categories
    ensures j.JObj? && j.fields.Keys == CategoryFields
  {
    var row := t.categories[c];
    NamedRowObject(c, row.name, row.description)
  }

  function RouteSummaryObject(r: RouteId, row: Route): (j: Json)
    ensures j.JObj? && j.fields.Keys == RouteSummaryFields
    ensures j.fields[IdField] == JId(r) && j.fields[NameField] == JStr(row.name)
    ensures j.fields[DescriptionField] == OptionalText(row.description)
    ensures j.fields[DurationField] == JTime(row.duration)
  {
    JObj(map[IdField := JId(r), NameField := JStr(row.name), DescriptionField := OptionalText(row.description),
             DurationField := JTime(row.duration)])
  }

  /** The Route as PlaceSerializer embeds it: no `places`, so the nesting stops here. */
  function RouteSummaryJson(t: Tables, r: RouteId): (j: Json)
    requires r in t.routes
    ensures j.JObj? && j.fields.Keys == RouteSummaryFields
    ensures PlacesField !in j.fields
  {
    RouteSummaryObject(r, t.routes[r])
  }

  function PlaceObject(p: PlaceId, row: Place, municipality: Json, category: Json, route: Json): (j: Json)
    ensures j.JObj? && j.fields.Keys == PlaceFields
    ensures j.fields[IdField] == JId(p) && j.fields[NameField] == JStr(row.name)
    ensures j.fields[DescriptionField] == JStr(row.description)
    ensures j.fields[LatitudeField] == JDecimal(row.latitude, CoordinateDecimalPlaces)
    ensures j.fields[LongitudeField] == JDecimal(row.longitude, CoordinateDecimalPlaces)
    ensures j.fields[ImageField] == OptionalText(row.image)
    ensures j.fields[VideoField] == OptionalText(row.video)
    ensures j.fields[MunicipalityField] == municipality
    ensures j.fields[CategoryField] == category
    ensures j.fields[RouteField] == route
  {
    JObj(map[IdField := JId(p), NameField := JStr(row.name), DescriptionField := JStr(row.description),
             LatitudeField := JDecimal(row.latitude, CoordinateDecimalPlaces),
             LongitudeField := JDecimal(row.longitude, CoordinateDecimalPlaces),
             ImageField := OptionalText(row.image), VideoField := OptionalText(row.video),
             MunicipalityField := municipality, CategoryField := category, RouteField := route])
  }

  /**
   * The Place projection: its own columns except the visited ones, and the full
   * Municipality (with its State), the Category and the Route summary it references.
   */
  function PlaceJson(t: Tables, p: PlaceId): (j: Json)
    requires PlaceResolves(t, p)
    ensures j.JObj? && j.fields.Keys == PlaceFields
    ensures j.fields[MunicipalityField] == MunicipalityJson(t, t.places[p].municipality)
    ensures j.fields[CategoryField] == CategoryJson(t, t.places[p].category)
    ensures j.fields[RouteField] == RouteSummaryJson(t, t.places[p].route)
  {
    var row := t.places[p];
    PlaceObject(p, row, MunicipalityJson(t, row.municipality), CategoryJson(t, row.category),
                RouteSummaryJson(t, row.route))
  }

  function FavoriteObject(f: FavoriteId, place: Json, user: UserId): (j: Json)
    ensures j.JObj? && j.fields.Keys == FavoriteFields
    ensures j.fields[IdField] == JId(f) && j.fields[PlaceField] == place && j.fields[UserField] == JId(user)
  {
    JObj(map[IdField := JId(f), PlaceField := place, UserField := JId(user)])
  }

  /** The flat Favorite projection returned by create: both foreign keys as ids. */
  function FavoriteJson(id: FavoriteId, f: Favorite): (j: Json)
    ensures j.JObj? && j.fields.Keys == FavoriteFields
    ensures j.fields[IdField] == JId(id) && j.fields[PlaceField] == JId(f.place)
    ensures j.fields[UserField] == JId(f.user)
  {
    FavoriteObject(id, JId(f.place), f.user)
  }

  /** The Favorite as the list endpoint shows it: the full Place, the user as an id. */
  function FavoriteDetailJson(t: Tables, f: FavoriteId): (j: Json)
    requires f in t.favorites && PlaceResolves(t, t.favorites[f].place)
    ensures j.JObj? && j.fields.Keys == FavoriteFields
    ensures j.fields[IdField] == JId(f)
    ensures j.fields[PlaceField] == PlaceJson(t, t.favorites[f].place)
    ensures j.fields[UserField] == JId(t.favorites[f].user)
  {
    var row := t.favorites[f];
    FavoriteObject(f, PlaceJson(t, row.place), row.user)
  }

  function VisitedPlaceObject(v: VisitId, row: VisitedPlace, place: Json): (j: Json)
    ensures j.JObj? && j.fields.Keys == VisitedPlaceFields
    ensures j.fields[IdField] == JId(v) && j.fields[PlaceField] == place
    ensures j.fields[UserField] == JId(row.user) && j.fields[VisitedDateField] == JDate(row.visitedDate)
    ensures j.fields[NotesField] == OptionalText(row.notes)
  {
    JObj(map[IdField := JId(v), PlaceField := place, UserField := JId(row.user),
             VisitedDateField := JDate(row.visitedDate), NotesField := OptionalText(row.notes)])
  }

  /** The VisitedPlace detail: the full Place, the user as an id, the date and the notes. */
  function VisitedPlaceDetailJson(t: Tables, v: VisitId): (j: Json)
    requires v in t.visits && PlaceResolves(t, t.visits[v].place)
    ensures j.JObj? && j.fields.Keys == VisitedPlaceFields
    ensures j.fields[IdField] == JId(v)
    ensures j.fields[PlaceField] == PlaceJson(t, t.visits[v].place)
    ensures j.fields[UserField] == JId(t.visits[v].user)
    ensures j.fields[VisitedDateField] == JDate(t.visits[v].visitedDate)
    ensures j.fields[NotesField] == OptionalText(t.visits[v].notes)
  {
    var row := t.visits[v];
    VisitedPlaceObject(v, row, PlaceJson(t, row.place))
  }

  // ---------------------------------------------------------------------------------------
  // Depth: no projection nests without bound

  lemma NamedRowObjectDepth(id: nat, name: string, description: Option<string>)
    ensures DepthAtMost(NamedRowObject(id, name, description), 1)
  {
    ObjectDepth(NamedRowObject(id, name, description).fields, 0);
  }

  lemma RouteSummaryObjectDepth(r: RouteId, row: Route)
    ensures DepthAtMost(RouteSummaryObject(r, row), 1)
  {
    ObjectDepth(RouteSummaryObject(r, row).fields, 0);
  }

  lemma MunicipalityJsonDepth(t: Tables, m: MunicipalityId)
    requires MunicipalityResolves(t, m)
    ensures DepthAtMost(MunicipalityJson(t, m), 2)
  {
    var row := t.municipalities[m];
    var state := StateJson(t, row.state);
    NamedRowObjectDepth(row.state, t.states[row.state].name, t.states[row.state].description);
    var j := MunicipalityObject(m, row, state);
    ObjectDepth(j.fields, 1);
  }

  lemma PlaceObjectDepth(p: PlaceId, row: Place, municipality: Json, category: Json, route: Json, n: nat)
    requires DepthAtMost(municipality, n) && DepthAtMost(category, n) && DepthAtMost(route, n)
    ensures DepthAtMost(PlaceObject(p, row, municipality, category, route), n + 1)
  {
    ObjectDepth(PlaceObject(p, row, municipality, category, route).fields, n);
  }

  /** A Place nests three levels: the Place, its Municipality, that Municipality's State. */
  lemma PlaceJsonDepth(t: Tables, p: PlaceId)
    requires PlaceResolves(t, p)
    ensures DepthAtMost(PlaceJson(t, p), 3)
  {
    var row := t.places[p];
    var municipality := MunicipalityJson(t, row.municipality);
    var categoryRow := t.categories[row.category];
    var category := NamedRowObject(row.category, categoryRow.name, categoryRow.description);
    var route := RouteSummaryObject(row.route, t.routes[row.route]);
    MunicipalityJsonDepth(t, row.municipality);
    NamedRowObjectDepth(row.category, categoryRow.name, categoryRow.description);
    RouteSummaryObjectDepth(row.route, t.routes[row.route]);
    DepthAtMostGrows(category, 1, 2);
    DepthAtMostGrows(route, 1, 2);
    PlaceObjectDepth(p, row, municipality, category, route, 2);
    assert PlaceJson(t, p) == PlaceObject(p, row, municipality, category, route);
  }

  lemma FavoriteObjectDepth(f: FavoriteId, place: Json, user: UserId, n: nat)
    requires DepthAtMost(place, n)
    ensures DepthAtMost(FavoriteObject(f, place, user), n + 1)
  {
    ObjectDepth(FavoriteObject(f, place, user).fields, n);
  }

  lemma VisitedPlaceObjectDepth(v: VisitId, row: VisitedPlace, place: Json, n: nat)
    requires DepthAtMost(place, n)
    ensures DepthAtMost(VisitedPlaceObject(v, row, place), n + 1)
  {
    ObjectDepth(VisitedPlaceObject(v, row, place).fields, n);
  }

  lemma FavoriteDetailJsonDepth(t: Tables, f: FavoriteId)
    requires f in t.favorites && PlaceResolves(t, t.favorites[f].place)
    ensures DepthAtMost(FavoriteDetailJson(t, f), 4)
  {
    PlaceJsonDepth(t, t.favorites[f].place);
    FavoriteObjectDepth(f, PlaceJson(t, t.favorites[f].place), t.favorites[f].user, 3);
  }

  lemma VisitedPlaceDetailJsonDepth(t: Tables, v: VisitId)
    requires v in t.visits && PlaceResolves(t, t.visits[v].place)
    ensures DepthAtMost(VisitedPlaceDetailJson(t, v), 4)
  {
    PlaceJsonDepth(t, t.visits[v].place);
    VisitedPlaceObjectDepth(v, t.visits[v], PlaceJson(t, t.visits[v].place), 3);
  }

  // ---------------------------------------------------------------------------------------
  // Readers: each recovers the row a projection was made from

  function ReadState(j: Json): Option<(StateId, State)>
  {
    var id :- Member(j, IdField);
    var id :- AsId(id);
    var name :- Member(j, NameField);
    var name :- AsText(name);
    var description :- Member(j, DescriptionField);
    var description :- AsOptionalText(description);
    Some((id, State(name, description)))
  }

  function ReadMunicipality(j: Json): Option<(MunicipalityId, Municipality)>
  {
    var id :- Member(j, IdField);
    var id :- AsId(id);
    var name :- Member(j, NameField);
    var name :- AsText(name);
    var description :- Member(j, DescriptionField);
    var description :- AsOptionalText(description);
    var state :- Member(j, StateField);
    var state :- ReadState(state);
    Some((id, Municipality(name, description, state.0)))
  }

  function ReadCategory(j: Json): Option<(CategoryId, Category)>
  {
    var id :- Member(j, IdField);
    var id :- AsId(id);
    var name :- Member(j, NameField);
    var name :- AsText(name);
    var description :- Member(j, DescriptionField);
    var description :- AsOptionalText(description);
    Some((id, Category(name, description)))
  }

  function ReadRouteSummary(j: Json): Option<(RouteId, Route)>
  {
    var id :- Member(j, IdField);
    var id :- AsId(id);
    var name :- Member(j, NameField);
    var name :- AsText(name);
    var description :- Member(j, DescriptionField);
    var description :- AsOptionalText(description);
    var duration :- Member(j, DurationField);
    var duration :- AsTime(duration);
    Some((id, Route(name, description, duration)))
  }

  /** A Place read back has the visited columns at their defaults: the projection omits them. */
  function ReadPlace(j: Json): Option<(PlaceId, Place)>
  {
    var id :- Member(j, IdField);
    var id :- AsId(id);
    var name :- Member(j, NameField);
    var name :- AsText(name);
    var description :- Member(j, DescriptionField);
    var description :- AsText(description);
    var latitude :- Member(j, LatitudeField);
    var latitude :- AsDecimal(latitude, CoordinateDecimalPlaces);
    var longitude :- Member(j, LongitudeField);
    var longitude :- AsDecimal(longitude, CoordinateDecimalPlaces);
    var image :- Member(j, ImageField);
    var image :- AsOptionalText(image);
    var video :- Member(j, VideoField);
    var video :- AsOptionalText(video);
    var municipality :- Member(j, MunicipalityField);
    var municipality :- ReadMunicipality(municipality);
    var category :- Member(j, CategoryField);
    var category :- ReadCategory(category);
    var route :- Member(j, RouteField);
    var route :- ReadRouteSummary(route);
    Some((id, NewPlace(name, description, latitude, longitude, image, video,
                       municipality.0, category.0, route.0)))
  }

  // ---------------------------------------------------------------------------------------
  // Round trips

  lemma NamedRowObjectRoundTrip(id: nat, name: string, description: Option<string>)
    ensures ReadState(NamedRowObject(id, name, description)) == Some((id, State(name, description)))
    ensures ReadCategory(NamedRowObject(id, name, description)) == Some((id, Category(name, description)))
  {
    OptionalTextRoundTrip(description);
  }

  lemma StateRoundTrip(t: Tables, s: StateId)
    requires s in t.states
    ensures ReadState(StateJson(t, s)) == Some((s, t.states[s]))
  {
    NamedRowObjectRoundTrip(s, t.states[s].name, t.states[s].description);
  }

  lemma MunicipalityObjectRoundTrip(m: MunicipalityId, row: Municipality, state: Json)
    requires ReadState(state).Some? && ReadState(state).value.0 == row.state
    ensures ReadMunicipality(MunicipalityObject(m, row, state)) == Some((m, row))
  {
    OptionalTextRoundTrip(row.description);
  }

  /** The Municipality projection keeps its columns and, through the embedded State, its foreign key. */
  lemma MunicipalityRoundTrip(t: Tables, m: MunicipalityId)
    requires MunicipalityResolves(t, m)
    ensures ReadMunicipality(MunicipalityJson(t, m)) == Some((m, t.municipalities[m]))
    ensures ReadState(MunicipalityJson(t, m).fields[StateField]) ==
              Some((t.municipalities[m].state, t.states[t.municipalities[m].state]))
  {
    var row := t.municipalities[m];
    StateRoundTrip(t, row.state);
    MunicipalityObjectRoundTrip(m, row, StateJson(t, row.state));
  }

  lemma CategoryRoundTrip(t: Tables, c: CategoryId)
    requires c in t.categories
    ensures ReadCategory(CategoryJson(t, c)) == Some((c, t.categories[c]))
  {
    var row := t.categories[c];
    NamedRowObjectRoundTrip(c, row.name, row.description);
  }

  lemma RouteSummaryRoundTrip(t: Tables, r: RouteId)
    requires r in t.routes
    ensures ReadRouteSummary(RouteSummaryJson(t, r)) == Some((r, t.routes[r]))
  {
    OptionalTextRoundTrip(t.routes[r].description);
  }

  lemma PlaceObjectRoundTrip(p: PlaceId, row: Place, municipality: Json, category: Json, route: Json)
    requires ReadMunicipality(municipality).Some? && ReadMunicipality(municipality).value.0 == row.municipality
    requires ReadCategory(category).Some? && ReadCategory(category).value.0 == row.category
    requires ReadRouteSummary(route).Some? && ReadRouteSummary(route).value.0 == row.route
    ensures ReadPlace(PlaceObject(p, row, municipality, category, route)) ==
              Some((p, row.(isVisited := false, visitedDate := None)))
  {
    OptionalTextRoundTrip(row.image);
    OptionalTextRoundTrip(row.video);
  }

  /**
   * The Place projection keeps every column except `is_visited` and `visited_date`, and
   * embeds the Municipality, Category and Route the row references.
   */
  lemma PlaceRoundTrip(t: Tables, p: PlaceId)
    requires PlaceResolves(t, p)
    ensures ReadPlace(PlaceJson(t, p)) == Some((p, t.places[p].(isVisited := false, visitedDate := None)))
  {
    var row := t.places[p];
    MunicipalityRoundTrip(t, row.municipality);
    CategoryRoundTrip(t, row.category);
    RouteSummaryRoundTrip(t, row.route);
    PlaceObjectRoundTrip(p, row, MunicipalityJson(t, row.municipality), CategoryJson(t, row.category),
                         RouteSummaryJson(t, row.route));
  }

  lemma PlaceObjectIgnoresVisitedColumns(p: PlaceId, row: Place, municipality: Json, category: Json, route: Json,
                                         isVisited: bool, visitedDate: Option<Date>)
    ensures PlaceObject(p, row.(isVisited := isVisited, visitedDate := visitedDate), municipality, category, route)
              == PlaceObject(p, row, municipality, category, route)
  {
  }

  /** ... and it does not depend on those two columns at all. */
  lemma PlaceJsonIgnoresVisitedColumns(t: Tables, p: PlaceId, isVisited: bool, visitedDate: Option<Date>)
    requires PlaceResolves(t, p)
    ensures var t' := t.(places := t.places[p := t.places[p].(isVisited := isVisited, visitedDate := visitedDate)]);
      PlaceJson(t', p) == PlaceJson(t, p)
  {
    var row := t.places[p];
    PlaceObjectIgnoresVisitedColumns(p, row, MunicipalityJson(t, row.municipality), CategoryJson(t, row.category),
                                     RouteSummaryJson(t, row.route), isVisited, visitedDate);
  }

  /** Different Places have different projections. */
  lemma PlaceJsonInjective(t: Tables, p: PlaceId, q: PlaceId)
    requires PlaceResolves(t, p) && PlaceResolves(t, q)
    ensures PlaceJson(t, p) == PlaceJson(t, q) ==> p == q
  {
    PlaceRoundTrip(t, p);
    PlaceRoundTrip(t, q);
  }

  /** Different Municipalities have different projections. */
  lemma MunicipalityJsonInjective(t: Tables, m: MunicipalityId, n: MunicipalityId)
    requires MunicipalityResolves(t, m) && MunicipalityResolves(t, n)
    ensures MunicipalityJson(t, m) == MunicipalityJson(t, n) ==> m == n
  {
    MunicipalityRoundTrip(t, m);
    MunicipalityRoundTrip(t, n);
  }
}
