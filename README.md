# binmap_api catalogue core in Dafny

This project models the core of binmap_api, a backend for a tourism catalogue. Its tables
are States, Municipalities, Categories, Places and Routes, plus three link tables:
Municipality–Route, a user's Favorites and a user's VisitedPlace marks. The model covers:

- **The store** (`EntityStore`, `Db`). `EntityStore.Tables` is the database as a value and
  `Db.Database` is a class with one map field per table. An insert checks the constraints
  the database schema declares: the `max_length` bounds, the fixed-point coordinate
  columns, the primary key, the foreign keys and the `unique_together` pairs. A delete follows every `on_delete=CASCADE` edge transitively.
  - `EntityStore.Cascade` is the specification of a delete.
  - The class's delete methods walk the foreign-key graph one dependant at a time, in
    loops, and each ends in the state `Cascade` gives.
  - The invariant `Consistent` holds after every insert and every delete. It says that no
    foreign key dangles, that every row keeps its column bounds, that every pair in a
    link table occurs once, and that each auto-increment counter is above every id it
    has issued.
- **The read projections** (`PlacesSerializers`, `RoutesSerializers`). The serializers
  are functions from the tables to a JSON value (`Representation.Json`). Each object's
  key set is proved to be exactly the serializer's field set, and each nested object is
  proved to be the projection of the row that the foreign key names. Depth is bounded:
  a Place is at most 3 levels deep, a Route at most 5 levels and a link row at most 6.
  The read-back functions `Read*` invert the flat projections.
- **The views** (`PlacesViews`, `RoutesViews`).
  - Both copies of `IsAdminUserOrReadOnly` are modelled, together with the view sets
    that use them.
  - The Favorite view set covers `list`, `create` and `destroy`. Each is a function from
    the tables, the session user and the request to a response and the new tables.
  - `create` and `destroy` are also methods on a `Db.Database`, each proved equal to its
    function.

Foreign-key ids are naturals, so a caller chooses every UUID primary key. Favorites and
Municipality–Route links take the next value of an auto-increment counter.
Coordinates are counts of 10^-8 degrees. "Today" (the default of `visited_date`) is a
parameter. A Route's `TimeField` duration is an opaque natural.

Some consequences of the code that a reader may not expect:

- The coordinates are checked only against their digit bounds, so a latitude strictly
  between -100 and 100 degrees and a longitude strictly between -1000 and 1000 degrees
  are accepted (`PlacesModels.LatitudeRange`, `PlacesModels.LongitudeRange`).
- Repeating a successful Favorite create with the same body is refused with 400 only when
  the body's `user` is the requester. When it names another user, the repeat fails with a
  server error (`PlacesViews.CreateAsWrittenRepeat`). The corrected create refuses every
  repeat with 400 and changes nothing (`PlacesViews.CreateTwiceRejected`).
- An omitted VisitedPlace `notes` is null (`PlacesModels.NewVisitedPlace`).

## Model

| member | source | states |
|---|---|---|
| Fields.FitsDecimalWholeDigits | places/models.py:40-41 | a decimal with `places` decimals fits `max_digits` exactly when its magnitude is below 10^(max_digits-places) whole units |
| PlacesModels.LatitudeRange | places/models.py:40 | a latitude (10 digits, 8 decimals) fits exactly when it lies strictly between -100 and 100 degrees |
| PlacesModels.LongitudeRange | places/models.py:41 | a longitude (11 digits, 8 decimals) fits exactly when it lies strictly between -1000 and 1000 degrees |
| PlacesModels.NewPlace | places/models.py:42-45 | a new Place keeps every given column; `is_visited` defaults to false and `visited_date` to null |
| PlacesModels.NewVisitedPlace | places/models.py:69-70 | an omitted visit date becomes today, a given one is kept; `notes` stays as given (null when omitted) |
| EntityStore.EmptyConsistent | places/models.py:8-78 | the empty database satisfies every constraint |
| EntityStore.InsertState | places/models.py:9-11 | a State is stored exactly when its name has at most 35 characters and its id is new, and then only that row is added; a refusal changes nothing |
| EntityStore.InsertMunicipality | places/models.py:18-21 | a Municipality is stored exactly when its name has at most 35 characters, its id is new and its State exists; only that row is added, and a refusal changes nothing |
| EntityStore.InsertCategory | places/models.py:28-30 | a Category is stored exactly when its name has at most 50 characters and its id is new; only that row is added, and a refusal changes nothing |
| EntityStore.InsertRoute | routes/models.py:6-9 | a Route is stored exactly when its name has at most 50 characters and its id is new; the description may be null; only that row is added, and a refusal changes nothing |
| EntityStore.InsertPlace | places/models.py:37-48 | a Place is stored exactly when its name fits 50 characters, both coordinates fit their digit bounds, its id is new and its Municipality, Category and Route exist; only that row is added, and a refusal changes nothing |
| EntityStore.InsertLink | routes/models.py:15-20 | a Municipality–Route row is stored under the next id exactly when both ends exist and the pair is new; then only that row is added and the counter advances by one; a refusal changes nothing |
| EntityStore.InsertFavorite | places/models.py:54-59 | a Favorite is stored under the next id exactly when its Place and user exist and the (place, user) pair is new; then only that row is added and the counter advances by one; a refusal changes nothing |
| EntityStore.InsertVisit | places/models.py:65-73 | a VisitedPlace is stored exactly when its id is new, its Place and user exist and the (place, user) pair is new; only that row is added, and a refusal changes nothing |
| EntityStore.InsertUser | places/models.py:56 | a user id is added exactly when it is new, and nothing else changes |
| EntityStore.Insert | places/models.py:8-78 | an insert of any row that is refused leaves the tables unchanged |
| EntityStore.InsertKeepsConsistent | places/models.py:8-78 | every insert, stored or refused, keeps all constraints: bounds, keys, references, unique pairs |
| EntityStore.StateInsertKeepsConsistent | places/models.py:8-11 | inserting a State keeps the tables consistent |
| EntityStore.MunicipalityInsertKeepsConsistent | places/models.py:17-21 | inserting a Municipality keeps the tables consistent |
| EntityStore.CategoryInsertKeepsConsistent | places/models.py:27-30 | inserting a Category keeps the tables consistent |
| EntityStore.RouteInsertKeepsConsistent | routes/models.py:5-9 | inserting a Route keeps the tables consistent |
| EntityStore.PlaceInsertKeepsConsistent | places/models.py:36-48 | inserting a Place keeps the tables consistent |
| EntityStore.PlaceAddedKeepsConsistent | places/models.py:46-48 | adding a valid Place whose three references resolve keeps the tables consistent |
| EntityStore.UserInsertKeepsConsistent | places/models.py:56 | adding a user keeps the tables consistent |
| EntityStore.LinkInsertKeepsConsistent | routes/models.py:15-20 | inserting a Municipality–Route row keeps the tables consistent |
| EntityStore.FavoriteInsertKeepsConsistent | places/models.py:54-59 | inserting a Favorite keeps the tables consistent |
| EntityStore.FavoriteInsertKeepsPairsUnique | places/models.py:58-59 | after a Favorite insert each (place, user) pair still occurs at most once |
| EntityStore.VisitInsertKeepsConsistent | places/models.py:65-73 | inserting a VisitedPlace keeps the tables consistent |
| EntityStore.VisitInsertKeepsPairsUnique | places/models.py:72-73 | after a VisitedPlace insert each (place, user) pair still occurs at most once |
| EntityStore.DuplicateFavoriteRejected | places/models.py:58-59 | a Favorite whose (place, user) pair is taken is refused as a duplicate and the tables are unchanged |
| EntityStore.DuplicateVisitRejected | places/models.py:72-73 | a VisitedPlace whose (place, user) pair is taken is refused as a duplicate and the tables are unchanged |
| EntityStore.DuplicateLinkRejected | routes/models.py:19-20 | a link whose (municipality, route) pair is taken is refused as a duplicate and the tables are unchanged |
| EntityStore.FavoriteInsertKeepsRows | places/models.py:54-56 | a Favorite insert leaves every stored Favorite as it was |
| EntityStore.FavoriteInsertStored | places/models.py:54-59 | a Favorite with resolving references and a new pair is stored under the next id, which was unused, and is then the only row with that content |
| EntityStore.Cascade | places/models.py:21-68 | the delete specification: the roots go, and with them every row that references a removed row, transitively along the `on_delete=CASCADE` edges; its properties are the `Cascade*`, `*Leaf` and `Delete*Effect` lemmas below |
| EntityStore.CascadeKeepsConsistent | places/models.py:21 | after any cascading delete no foreign key dangles and all other constraints still hold |
| EntityStore.CascadeKeepsRowsValid | places/models.py:10-41 | a delete keeps every remaining row within its column bounds |
| EntityStore.CascadeKeepsPairsUnique | places/models.py:58-59 | a delete keeps every pair unique and every auto-increment counter above the ids it issued |
| EntityStore.CascadeKeepsMunicipalityStates | places/models.py:21 | after a delete every Municipality's State still exists |
| EntityStore.CascadeKeepsPlaceReferences | places/models.py:46-48 | after a delete every Place's Municipality, Category and Route still exist |
| EntityStore.CascadeKeepsLinkReferences | routes/models.py:16-17 | after a delete every link row's Municipality and Route still exist |
| EntityStore.CascadeKeepsFavoriteReferences | places/models.py:55-56 | after a delete every Favorite's Place and user still exist |
| EntityStore.CascadeKeepsVisitReferences | places/models.py:67-68 | after a delete every VisitedPlace's Place and user still exist |
| EntityStore.CascadeCompose | places/models.py:21 | deleting the roots `a` and then the roots `b` is the same as deleting both at once |
| EntityStore.CascadeNothing | places/models.py:21 | a delete with no roots changes nothing |
| EntityStore.StateAfterItsMunicipalities | places/models.py:21 | deleting a State's Municipalities first leaves none pointing at it, and deleting the State then gives the same tables as deleting it directly |
| EntityStore.MunicipalityAfterItsPlaces | places/models.py:46 | the same for a Municipality and its Places |
| EntityStore.CategoryAfterItsPlaces | places/models.py:47 | the same for a Category and its Places |
| EntityStore.RouteAfterItsPlaces | places/models.py:48 | the same for a Route and its Places |
| EntityStore.StateLeaf | places/models.py:8-11 | deleting a State that no Municipality references removes that one row |
| EntityStore.MunicipalityLeaf | routes/models.py:16 | deleting a Municipality that no Place references removes it and exactly its link rows |
| EntityStore.CategoryLeaf | places/models.py:47 | deleting a Category that no Place references removes that one row |
| EntityStore.RouteLeaf | routes/models.py:17 | deleting a Route that no Place references removes it and exactly its link rows |
| EntityStore.PlaceLeaf | places/models.py:55-67 | deleting a Place removes it, exactly its Favorites and exactly its VisitedPlace rows |
| EntityStore.UserLeaf | places/models.py:56-68 | deleting a user removes it, exactly its Favorites and exactly its VisitedPlace rows |
| EntityStore.LinkLeaf | routes/models.py:15-17 | deleting a link row removes that row only; the Route and Municipality tables are untouched |
| EntityStore.FavoriteLeaf | places/models.py:54-56 | deleting a Favorite removes that row only |
| EntityStore.VisitLeaf | places/models.py:65-68 | deleting a VisitedPlace removes that row only |
| EntityStore.CascadeOnlyRemoves | places/models.py:21 | a delete never adds or alters a row: every remaining row is as it was |
| EntityStore.RelationsFollowTheirPlace | places/models.py:55-56 | a Favorite or VisitedPlace that was not itself deleted survives exactly when its Place and its user both survive |
| EntityStore.DeleteStateEffect | places/models.py:21 | deleting a State removes exactly its Municipalities and, transitively, exactly the Places and the link rows of those Municipalities; Categories, Routes and users stay |
| EntityStore.DeleteMunicipalityEffect | places/models.py:46 | deleting a Municipality removes exactly its Places and its link rows; States, Categories, Routes and users stay |
| EntityStore.MunicipalityDoomsItsPlaces | places/models.py:46 | the Places a Municipality's delete removes are exactly the ones that reference it |
| EntityStore.MunicipalityDoomsItsLinks | routes/models.py:16 | the link rows a Municipality's delete removes are exactly the ones that reference it |
| EntityStore.DeleteCategoryEffect | places/models.py:47 | deleting a Category removes exactly its Places and nothing from the other entity tables |
| EntityStore.DeleteRouteEffect | places/models.py:48 | deleting a Route removes exactly its Places and its link rows; States, Municipalities, Categories and users stay |
| Db.Database.constructor | places/models.py:8-78 | a new database is empty and consistent |
| Db.Database.Insert | places/models.py:8-78 | inserting a row into the database gives the status and tables of `EntityStore.Insert`, and keeps the invariant |
| Db.Database.AddState | places/models.py:8-11 | the State insert, in place, as `InsertState`, keeping the invariant |
| Db.Database.AddMunicipality | places/models.py:17-21 | the Municipality insert, in place, as `InsertMunicipality` |
| Db.Database.AddCategory | places/models.py:27-30 | the Category insert, in place, as `InsertCategory` |
| Db.Database.AddRoute | routes/models.py:5-9 | the Route insert, in place, as `InsertRoute` |
| Db.Database.AddPlace | places/models.py:36-48 | the Place insert, in place, as `InsertPlace` |
| Db.Database.AddLink | routes/models.py:15-20 | the link insert, in place, as `InsertLink` |
| Db.Database.AddFavorite | places/models.py:54-59 | the Favorite insert, in place, as `InsertFavorite` |
| Db.Database.AddVisit | places/models.py:65-73 | the VisitedPlace insert, in place, as `InsertVisit` |
| Db.Database.AddUser | places/models.py:56 | the user insert, in place, as `InsertUser` |
| Db.Database.DeletePlace | places/models.py:55-67 | deletes a Place's Favorites and VisitedPlace rows, then the Place; ends as `Cascade` of that Place and reports whether it existed |
| Db.Database.DeletePlaces | places/models.py:46-48 | deletes a set of Places one at a time; ends as `Cascade` of the set |
| Db.Database.DeleteMunicipality | places/models.py:46 | deletes a Municipality's Places and links, then the row; ends as `Cascade` of it |
| Db.Database.DeleteMunicipalities | places/models.py:21 | deletes a set of Municipalities one at a time; ends as `Cascade` of the set |
| Db.Database.DeleteState | places/models.py:21 | deletes a State's Municipalities, then the State; ends as `Cascade` of it |
| Db.Database.DeleteCategory | places/models.py:47 | deletes a Category's Places, then the Category; ends as `Cascade` of it |
| Db.Database.DeleteRoute | places/models.py:48 | deletes a Route's Places and links, then the Route; ends as `Cascade` of it |
| Db.Database.DeleteUser | places/models.py:56-68 | deletes a user's Favorites and VisitedPlace rows, then the user; ends as `Cascade` of it |
| Db.Database.DeleteLink | routes/models.py:15-17 | deletes one link row; ends as `Cascade` of it |
| Db.Database.DeleteFavorite | places/models.py:54-56 | deletes one Favorite; ends as `Cascade` of it |
| Db.Database.DeleteVisit | places/models.py:65-68 | deletes one VisitedPlace; ends as `Cascade` of it |
| Ordering.Least | places/views.py:69 | the least id of a non-empty set is in the set and is below every other |
| Ordering.SortedIds | places/views.py:69 | the listing order: every id of the set exactly once, strictly ascending |
| Representation.OptionalText | places/models.py:11 | a nullable text is null exactly when absent, else the text |
| Representation.OptionalTextRoundTrip | places/models.py:11 | reading a nullable text back gives the original |
| PlacesSerializers.PlaceTupleNamesPlaceFields | places/serializers.py:36-50 | the field tuple with its repeated `municipality`, `category` and `route` names the Place field set |
| PlacesSerializers.PlaceFieldsOmitVisitedColumns | places/serializers.py:36-50 | neither `is_visited` nor `visited_date` is a Place field |
| PlacesSerializers.ConsistentPlacesResolve | places/serializers.py:17-57 | in consistent tables every Place and every Municipality can be projected |
| PlacesSerializers.NamedRowObject | places/serializers.py:10-27 | a row with an id, a name and a nullable description (a State or a Category) is the flat object of exactly `id`, `name`, `description`, each equal to its column |
| PlacesSerializers.StateObject | places/serializers.py:10-13 | a State is the flat object of exactly `id`, `name`, `description`, each equal to its column |
| PlacesSerializers.StateJson | places/serializers.py:10-13 | the projection of a stored State has exactly the State fields |
| PlacesSerializers.MunicipalityObject | places/serializers.py:16-21 | a Municipality is the object of exactly `id`, `name`, `description`, `state`, with `state` the given nested object |
| PlacesSerializers.MunicipalityJson | places/serializers.py:16-21 | a stored Municipality embeds the projection of its own State |
| PlacesSerializers.CategoryJson | places/serializers.py:24-27 | a Category is the flat object of exactly its columns |
| PlacesSerializers.RouteSummaryObject | places/serializers.py:52-55 | the Route summary is exactly `id`, `name`, `description`, `duration`, each its column |
| PlacesSerializers.RouteSummaryJson | places/serializers.py:52-57 | the summary of a stored Route has no `places` key |
| PlacesSerializers.PlaceObject | places/serializers.py:36-50 | a Place is the object of exactly its ten fields, each its column or the given nested object |
| PlacesSerializers.PlaceJson | places/serializers.py:30-57 | a stored Place embeds its Municipality (with its State), its Category and its Route summary |
| PlacesSerializers.FavoriteObject | places/serializers.py:66-72 | a Favorite detail is exactly `id`, `place`, `user` with the user as a bare id |
| PlacesSerializers.FavoriteJson | places/serializers.py:60-63 | the flat Favorite is `id`, `place`, `user`, each a bare id |
| PlacesSerializers.FavoriteDetailJson | places/serializers.py:66-72 | a stored Favorite's detail embeds the full Place projection and gives the user by id |
| PlacesSerializers.VisitedPlaceObject | places/serializers.py:81-87 | a VisitedPlace detail is exactly `id`, `place`, `user`, `visited_date`, `notes` |
| PlacesSerializers.VisitedPlaceDetailJson | places/serializers.py:81-87 | a stored VisitedPlace's detail gives its id, embeds the full Place projection, gives the user by id, and carries its `visited_date` and nullable `notes` |
| PlacesSerializers.NamedRowObjectDepth | places/serializers.py:10-27 | a State or Category object is one level deep |
| PlacesSerializers.RouteSummaryObjectDepth | places/serializers.py:52-55 | a Route summary is one level deep |
| PlacesSerializers.MunicipalityJsonDepth | places/serializers.py:16-21 | a Municipality is at most two levels deep |
| PlacesSerializers.PlaceObjectDepth | places/serializers.py:30-57 | a Place object is one level deeper than its nested objects |
| PlacesSerializers.PlaceJsonDepth | places/serializers.py:52-57 | a Place projection is at most three levels deep: it never reaches a Route with places |
| PlacesSerializers.FavoriteObjectDepth | places/serializers.py:66-72 | a Favorite detail is one level deeper than its Place |
| PlacesSerializers.VisitedPlaceObjectDepth | places/serializers.py:81-87 | a VisitedPlace detail is one level deeper than its Place |
| PlacesSerializers.FavoriteDetailJsonDepth | places/serializers.py:66-72 | a Favorite detail is at most four levels deep |
| PlacesSerializers.VisitedPlaceDetailJsonDepth | places/serializers.py:81-87 | a VisitedPlace detail is at most four levels deep |
| PlacesSerializers.NamedRowObjectRoundTrip | places/serializers.py:10-27 | the flat object of an id, a name and a description reads back as that State, and as that Category |
| PlacesSerializers.StateRoundTrip | places/serializers.py:10-13 | the projection of a stored State reads back as its id and row |
| PlacesSerializers.MunicipalityObjectRoundTrip | places/serializers.py:16-21 | a Municipality object whose `state` names the row's State reads back as the row |
| PlacesSerializers.MunicipalityRoundTrip | places/serializers.py:16-21 | a stored Municipality and its embedded State both read back as stored |
| PlacesSerializers.CategoryRoundTrip | places/serializers.py:24-27 | a stored Category reads back as stored |
| PlacesSerializers.RouteSummaryRoundTrip | places/serializers.py:52-55 | a Route summary reads back as the Route row |
| PlacesSerializers.PlaceObjectRoundTrip | places/serializers.py:36-50 | a Place object reads back as its row with the visited columns at their defaults |
| PlacesSerializers.PlaceRoundTrip | places/serializers.py:30-57 | the projection of a stored Place reads back as its row, but for the two visited columns |
| PlacesSerializers.PlaceObjectIgnoresVisitedColumns | places/serializers.py:36-50 | changing `is_visited` or `visited_date` does not change a Place object |
| PlacesSerializers.PlaceJsonIgnoresVisitedColumns | places/serializers.py:36-50 | updating a stored Place's visited columns does not change its projection |
| PlacesSerializers.PlaceJsonInjective | places/serializers.py:36-37 | two stored Places with equal projections are the same Place |
| PlacesSerializers.MunicipalityJsonInjective | places/serializers.py:21 | two stored Municipalities with equal projections are the same Municipality |
| RoutesSerializers.RouteObjectAsWritten | routes/serializers.py:7-21 | as written, a Route object has no key outside the declared fields |
| RoutesSerializers.RouteJsonAsWritten | routes/serializers.py:7-21 | as written, a stored Route's projection has no key outside the declared fields |
| RoutesSerializers.RouteObjectAsWrittenIsSummary | routes/serializers.py:8-21 | as written, a Route object equals the Route summary: `places` and `municipalities` are skipped |
| RoutesSerializers.RouteJsonAsWrittenIsSummary | routes/serializers.py:8-21 | as written, a stored Route projects to its summary, with neither `places` nor `municipalities` |
| RoutesSerializers.RouteJsonAsWrittenOmitsItsPlaces | routes/serializers.py:8 | a Route with a Place projects, as written, without `places`, while the corrected projection lists that Place |
| RoutesSerializers.ConsistentRoutesProjectable | routes/serializers.py:8-21 | in consistent tables every Route can be projected |
| RoutesSerializers.PlaceListJson | routes/serializers.py:8 | a list of Places is every Place of the set once, in ascending id order, each in the full Place projection |
| RoutesSerializers.LinkEntryJson | routes/serializers.py:14-19 | a link entry is the object of exactly `municipality`, embedding the Municipality with its State |
| RoutesSerializers.LinkListJson | routes/serializers.py:21 | a list of link rows is one entry per row, in ascending id order, each naming that row's Municipality |
| RoutesSerializers.RouteObject | routes/serializers.py:12 | a Route is the object of exactly `id`, `name`, `description`, `duration`, `places`, `municipalities` |
| RoutesSerializers.RouteJson | routes/serializers.py:8-21 | a stored Route lists the Places that reference it and its link rows |
| RoutesSerializers.RouteJsonExtendsSummary | routes/serializers.py:12 | a Route agrees with its summary on the summary fields and adds exactly `places` and `municipalities` |
| RoutesSerializers.RoutePlacesAreItsPlaces | routes/serializers.py:8 | a Place's projection is in a Route's `places` exactly when the Place's route is that Route |
| RoutesSerializers.RoutePlacesDistinct | routes/serializers.py:8 | a Route's `places` has one distinct entry per Place of the Route |
| RoutesSerializers.PlaceListFollows | routes/serializers.py:8 | a list of Places of one Route holds only their projections, each carrying that Route's summary |
| RoutesSerializers.RoutePlacesEachFollowsIt | routes/serializers.py:8 | every entry of a Route's `places` is the projection of a Place of that Route |
| RoutesSerializers.RoutePlacesCarrySummary | places/serializers.py:52-57 | every Place inside a Route carries only the Route summary, which has no `places` |
| RoutesSerializers.RouteMunicipalitiesListed | routes/serializers.py:14-21 | `municipalities` has one distinct entry per link row of the Route, and a Municipality's entry occurs exactly when it is linked |
| RoutesSerializers.LinkEntryListed | routes/serializers.py:14-21 | a Municipality's entry is in a Route's link list exactly when the pair is linked |
| RoutesSerializers.RouteJsonDepth | routes/serializers.py:7-21 | a Route projection is at most five levels deep |
| RoutesSerializers.PlaceListDepth | routes/serializers.py:8 | a list of Places is at most four levels deep |
| RoutesSerializers.LinkListDepth | routes/serializers.py:21 | a list of link entries is at most four levels deep |
| RoutesSerializers.LinkEntryDepth | routes/serializers.py:14-19 | a link entry is at most three levels deep |
| RoutesSerializers.RouteObjectDepth | routes/serializers.py:12 | a Route object is one level deeper than its two lists |
| RoutesSerializers.LinkObject | routes/serializers.py:24-30 | a link row projects to exactly `route` and `municipality` |
| RoutesSerializers.MunicipalityHasRouteJson | routes/serializers.py:24-30 | a stored link row embeds the full Route projection and the Municipality projection |
| RoutesSerializers.MunicipalityHasRouteJsonAsWritten | routes/serializers.py:24-30 | as written, the embedded Route is the Route projection as written |
| RoutesSerializers.MunicipalityHasRouteJsonDepth | routes/serializers.py:24-30 | a link row projection is at most six levels deep |
| RoutesSerializers.LinkObjectDepth | routes/serializers.py:24-30 | a link object is one level deeper than its parts |
| Requests.RequestUser | places/views.py:66 | a request's user is the session's user while that user exists, otherwise the anonymous user |
| PlacesViews.AdminOrReadOnly | places/views.py:25-29 | allowed exactly for GET, HEAD and OPTIONS, or for a signed-in staff user or superuser |
| PlacesViews.HasPermission | places/views.py:32-66 | the Favorite view set allows exactly signed-in users; the four catalogue view sets allow exactly what `IsAdminUserOrReadOnly` allows |
| PlacesViews.AdminOrReadOnlyVerdict | places/views.py:25-29 | a safe method is allowed for everyone; an unsafe one exactly for a staff or superuser account |
| PlacesViews.OrdinaryUsersOnlyRead | places/views.py:25-29 | the anonymous user and a user with neither flag may use exactly GET, HEAD and OPTIONS |
| PlacesViews.CatalogueViewSetsAdminOrReadOnly | places/views.py:32-59 | the State, Municipality, Category and Place endpoints apply that rule |
| PlacesViews.FavoritesNeedAuthentication | places/views.py:66 | each Favorite operation is allowed exactly for a signed-in user |
| PlacesViews.ConsistentFavoritesProjectable | places/views.py:73 | in consistent tables every Favorite's Place can be projected |
| PlacesViews.FavoriteListJson | places/views.py:73 | a Favorite list is one detail projection per Favorite of the set, in ascending id order |
| PlacesViews.ListOutcome | places/views.py:71-74 | listing never changes the tables |
| PlacesViews.FavoriteListMembers | places/views.py:72-73 | a Favorite's detail is in the listing of a set exactly when the Favorite is in the set |
| PlacesViews.FavoriteListNamesUser | places/views.py:68-69 | every entry of a listing of one user's Favorites names that user |
| PlacesViews.UserFavoriteList | places/views.py:68-74 | a user's listing has one entry per own Favorite, each names the user, and a Favorite is listed exactly when it is the user's |
| PlacesViews.ListShowsOwnFavorites | places/views.py:68-74 | a signed-in user receives 200 with the listing of exactly their own Favorites |
| PlacesViews.ListNeedsAuthentication | places/views.py:66 | an anonymous listing is refused and changes nothing |
| PlacesViews.ReadPlaceKey | places/serializers.py:60-63 | a `place` read from the body names a stored Place |
| PlacesViews.ReadUserKey | places/serializers.py:60-63 | a `user` read from the body names a stored user |
| PlacesViews.ValidateFavoriteAsWritten | places/serializers.py:60-63 | as written, a valid body names an existing Place and user whose pair is new |
| PlacesViews.CreateOutcomeAsWritten | places/views.py:76-81 | as written, an anonymous create is refused; a signed-in user's create answers 201 exactly when the body's `place` and `user` pass validation and the (place, requester) pair is free, 500 exactly when they pass but that pair is taken, and 400 exactly when validation fails; a 201 adds exactly (that Place, the requester) under the next id and answers with it; anything but 201 changes nothing |
| PlacesViews.ValidateFavorite | places/views.py:77-79 | a body is valid exactly when it names an existing Place the requester has not marked; the row is stamped with the requester |
| PlacesViews.CreateOutcome | places/views.py:76-81 | an anonymous create is refused; a signed-in user's create answers 201 or 400, and 201 exactly when the body names an existing Place the user has not yet marked; a 201 adds exactly (that Place, the requester) under the next id and answers with it; anything but 201 changes nothing |
| PlacesViews.CreateStampsRequester | places/views.py:79-80 | a 201 create stores exactly one row (the body's Place, the requester) under the next id and answers with it |
| PlacesViews.CreateFailureChangesNothing | places/views.py:81 | a create that does not answer 201 changes nothing |
| PlacesViews.CreateVerdict | places/views.py:78-81 | a signed-in user's create answers 201 or 400, and 201 exactly when the Place exists and is not yet the user's Favorite |
| PlacesViews.CreateIgnoresBodyUser | places/views.py:79 | the body's `user` has no effect on the outcome |
| PlacesViews.CreateTwiceRejected | places/models.py:58-59 | for the corrected create, repeating a successful create answers 400 and changes nothing |
| PlacesViews.DestroyOutcome | places/views.py:83-86 | an anonymous destroy is refused; a signed-in user's destroy answers 204 exactly for their own row with that id and then removes that row only; otherwise 404 and nothing changes |
| PlacesViews.DestroyRemovesOnlyOwnRow | places/views.py:83-86 | destroy answers 204 exactly for the requester's own row with that id and then removes that row only; otherwise 404 and nothing changes |
| PlacesViews.DestroyNeedsAuthentication | places/views.py:66 | an anonymous destroy is refused and changes nothing |
| PlacesViews.CreateKeepsStoredFavorites | places/views.py:79 | a create alters no stored Favorite |
| PlacesViews.DestroyKeepsOthersFavorites | places/views.py:84 | a destroy leaves every other user's Favorites as they were |
| PlacesViews.SharedPlaceTablesConsistent | places/models.py:54-59 | the sample tables (two users, one Place, a Favorite of user 1) are consistent |
| PlacesViews.CreateAsWrittenFailsOnOwnDuplicate | places/views.py:77-79 | as written, a requester re-marking their own Place with another user in the body gets a server error; the corrected create answers 400 |
| PlacesViews.SharedPlaceSample | places/views.py:77-79 | on the sample tables the create as written fails with a server error and the corrected one answers 400 |
| PlacesViews.CreateAsWrittenNeedsBodyUser | places/serializers.py:60-63 | as written, a body with only `place` is refused with 400, while the corrected create stores it |
| PlacesViews.CreateAsWrittenRepeat | places/views.py:77-80 | as written, repeating a successful create answers 400 when the body's `user` is the requester and a server error otherwise, changing nothing either way |
| PlacesViews.BodyPairTakenDiverges | places/serializers.py:60-63 | as written, a body whose `user` already has the Place is refused with 400 and nothing changes, though the requester has not marked it; the corrected create stores it |
| PlacesViews.CreateAsWrittenCreatedAgrees | places/views.py:77-80 | whenever the create as written answers 201, the corrected create gives the same reply and the same tables |
| PlacesViews.Create | places/views.py:76-81 | the create view on the database returns the response and leaves the tables that `CreateOutcome` gives |
| PlacesViews.Destroy | places/views.py:83-86 | the destroy view on the database returns the response and leaves the tables that `DestroyOutcome` gives |
| RoutesViews.AdminOrReadOnly | routes/views.py:12-16 | allowed exactly for GET, HEAD and OPTIONS, or for a signed-in staff user or superuser |
| RoutesViews.HasPermission | routes/views.py:19-34 | both route view sets allow exactly what that rule allows |
| RoutesViews.AdminOrReadOnlyVerdict | routes/views.py:12-16 | a safe method is allowed for everyone; an unsafe one exactly for a staff or superuser account |
| RoutesViews.SameVerdictAsPlaces | routes/views.py:12-16 | the routes copy of the rule answers as the places copy on every request |
| RoutesViews.RouteViewSetsAdminOrReadOnly | routes/views.py:19-34 | the Route and Municipality–Route endpoints apply that rule |
| RoutesViews.AnonymousOnlyReadsRoutes | routes/views.py:13-16 | an anonymous caller may use exactly GET, HEAD and OPTIONS on those endpoints |

## Left out

- Authentication: login, logout, password hashing and the password-reset signal. These are
  foreign calls and I/O. A session's user is a parameter: `Requests.User`.
- The admin files and the URL router: they are configuration only. The router imports a
  VisitedPlace view set that places/views.py does not define, so VisitedPlace has its
  table rules but no endpoint.
- `SearchFilter` and `search_fields`: this is library search behaviour.
- Image and video storage: `image` and `video` are optional texts.
- Retries after a race, and concurrency in general: each request is one atomic step.
- The clock: the default visit date is a `today` parameter. A `TimeField` duration is an
  opaque natural.
- HTTP framing: status codes are constructors of `PlacesViews.Response`. A refused
  permission is one `Denied`; the model does not tell 401 from 403.
- Retrieve, update and partial update of the view sets are not modelled. Nor are the plain
  CRUD of the catalogue view sets: their permission rule is modelled, and the store's
  inserts and deletes model only the database-level part of their writes.
- Blank text: the model serializers behind the catalogue view sets refuse an empty `name`
  (every table, `blank=False` by default) and an empty Place `description` with 400. This
  is serializer validation, not a database constraint, so the store's inserts accept `""`
  for these columns.
- The nested serializers are read-only, so a write through the API cannot set those foreign
  keys. The model does not follow that path, and its inserts take the foreign keys directly.
- Primary keys are naturals. A UUID key is chosen by the caller, and an insert under a taken
  key is refused instead of generated afresh.
- A malformed `pk` in a destroy URL (not a number) is not modelled.
- Decimal columns are scaled integers, and the model has no rounding of a value with more
  than eight decimals.
- `Ordering.SortedIds`: the source gives its querysets no ordering, so a list in the model
  is in ascending id order. This is one of the orders the database may return; other
  orders are not modelled.
- `PlacesViews.CreateOutcome`: this is the corrected create, and it departs from the source's
  (`PlacesViews.CreateOutcomeAsWritten`) in three cases. (1) The (place, requester) pair is
  taken but the body's pair is not: 400 instead of 500 (`PlacesViews.CreateAsWrittenFailsOnOwnDuplicate`).
  (2) The body has no valid `user`: 201 instead of 400 (`PlacesViews.CreateAsWrittenNeedsBodyUser`).
  (3) The body's (place, user) pair is taken but the requester's is not: 201 instead of 400
  (`PlacesViews.BodyPairTakenDiverges`). When the source answers 201, both agree
  (`PlacesViews.CreateAsWrittenCreatedAgrees`).
- `RoutesSerializers.RouteJson`: this is the corrected projection with `places` and
  `municipalities` filled in; the source's output is `RoutesSerializers.RouteJsonAsWritten`.

## Findings

| source | as written | input that shows it | evidently intended | confidence | as-written member | corrected member |
|---|---|---|---|---|---|---|
| routes/serializers.py:8-21 | `RouteSerializer` declares read-only `places` and `municipalities` fields. A Route has no attributes by those names: Django's reverse accessors are `place_set` and `municipality_has_route_set`, and the serializer gives no `source`. Read-only fields whose attribute lookup fails are skipped, so a Route's output carries only `id`, `name`, `description` and `duration`. The nested `fields = ('municipality')` is also a string, not a tuple. | any Route that has a Place or a link row | each Route lists the Places that reference it and its link rows, each naming a Municipality | not executed | RoutesSerializers.RouteJsonAsWritten, RoutesSerializers.RouteJsonAsWrittenOmitsItsPlaces | RoutesSerializers.RouteJson, RoutesSerializers.RoutePlacesAreItsPlaces |
| places/views.py:77-79 | `FavoriteSerializer` uses `fields = '__all__'`, so `user` is a required body field. Its unique-together check tests the pair (place, the body's `user`), but `save(user=request.user)` stores (place, requester). | user 1 already has a Favorite for Place 1 and posts `{place: 1, user: 2}` (`PlacesViews.SharedPlaceSample`): the check passes, the insert breaks the unique constraint, and the request fails with a server error instead of 400. A body with only `place` is refused with 400 (`PlacesViews.CreateAsWrittenNeedsBodyUser`), and so is a body naming a user who already has the Place, though the requester has not marked it (`PlacesViews.BodyPairTakenDiverges`). | the pair checked is the pair stored, (place, requester): a duplicate answers 400, and the body's `user` is ignored | not executed | PlacesViews.CreateOutcomeAsWritten, PlacesViews.CreateAsWrittenFailsOnOwnDuplicate | PlacesViews.CreateOutcome, PlacesViews.CreateVerdict |
