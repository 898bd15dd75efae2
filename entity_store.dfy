/**
 * The relational store behind both applications, as a value: one map per table keyed by
 * primary key, the user ids (the user table itself belongs to authentication), and the
 * next auto-increment ids of the two tables that have them.
 *
 * Inserts check the column bounds, the primary key, the foreign keys and the
 * `unique_together` pairs; deletes follow every `on_delete=CASCADE` edge transitively.
 */
module EntityStore {
  import opened Wrappers
  import opened Fields
  import opened PlacesModels
  import opened RoutesModels

  datatype Tables = Tables(
    states: map<StateId, State>,
    municipalities: map<MunicipalityId, Municipality>,
    categories: map<CategoryId, Category>,
    routes: map<RouteId, Route>,
    places: map<PlaceId, Place>,
    links: map<LinkId, MunicipalityHasRoute>,
    favorites: map<FavoriteId, Favorite>,
    visits: map<VisitId, VisitedPlace>,
    users: set<UserId>,
    nextFavoriteId: nat,
    nextLinkId: nat)

  /** The empty database; auto-increment ids start at 1. */
  const Empty: Tables := Tables(map[], map[], map[], map[], map[], map[], map[], map[], {}, 1, 1)

  // ---------------------------------------------------------------------------------------
  // Integrity

  /** Every stored row satisfies its column bounds. */
  predicate StatesValid(states: map<StateId, State>)
  {
    forall s :: s in states ==> ValidState(states[s])
  }

  predicate MunicipalitiesValid(municipalities: map<MunicipalityId, Municipality>)
  {
    forall m :: m in municipalities ==> ValidMunicipality(municipalities[m])
  }

  predicate CategoriesValid(categories: map<CategoryId, Category>)
  {
    forall c :: c in categories ==> ValidCategory(categories[c])
  }

  predicate RoutesValid(routes: map<RouteId, Route>)
  {
    forall r :: r in routes ==> ValidRoute(routes[r])
  }

  predicate PlacesValid(places: map<PlaceId, Place>)
  {
    forall p :: p in places ==> ValidPlace(places[p])
  }

  predicate RowsValid(t: Tables)
  {
    && StatesValid(t.states) && MunicipalitiesValid(t.municipalities) && CategoriesValid(t.categories)
    && RoutesValid(t.routes) && PlacesValid(t.places)
  }

  /** Referential integrity, one foreign-key edge at a time: every key names an existing row. */
  predicate MunicipalityStatesExist(municipalities: map<MunicipalityId, Municipality>, states: set<StateId>)
  {
    forall m :: m in municipalities ==> municipalities[m].state in states
  }

  predicate PlaceReferencesResolve(t: Tables, p: Place)
  {
    p.municipality in t.municipalities && p.category in t.categories && p.route in t.routes
  }

  predicate PlaceReferencesExist(places: map<PlaceId, Place>, municipalities: set<MunicipalityId>,
                                 categories: set<CategoryId>, routes: set<RouteId>)
  {
    forall p :: p in places ==>
      places[p].municipality in municipalities && places[p].category in categories && places[p].route in routes
  }

  predicate LinkReferencesExist(links: map<LinkId, MunicipalityHasRoute>, municipalities: set<MunicipalityId>,
                                routes: set<RouteId>)
  {
    forall l :: l in links ==> links[l].municipality in municipalities && links[l].route in routes
  }

  predicate FavoriteReferencesExist(favorites: map<FavoriteId, Favorite>, places: set<PlaceId>, users: set<UserId>)
  {
    forall f :: f in favorites ==> favorites[f].place in places && favorites[f].user in users
  }

  predicate VisitReferencesExist(visits: map<VisitId, VisitedPlace>, places: set<PlaceId>, users: set<UserId>)
  {
    forall v :: v in visits ==> visits[v].place in places && visits[v].user in users
  }

  predicate ReferencesResolve(t: Tables)
  {
    && MunicipalityStatesExist(t.municipalities, t.states.Keys)
    && PlaceReferencesExist(t.places, t.municipalities.Keys, t.categories.Keys, t.routes.Keys)
    && LinkReferencesExist(t.links, t.municipalities.Keys, t.routes.Keys)
    && FavoriteReferencesExist(t.favorites, t.places.Keys, t.users)
    && VisitReferencesExist(t.visits, t.places.Keys, t.users)
  }

  predicate FavoritePairTaken(favorites: map<FavoriteId, Favorite>, place: PlaceId, user: UserId)
  {
    exists f :: f in favorites && favorites[f] == Favorite(place, user)
  }

  predicate VisitPairTaken(visits: map<VisitId, VisitedPlace>, place: PlaceId, user: UserId)
  {
    exists v :: v in visits && visits[v].place == place && visits[v].user == user
  }

  predicate LinkPairTaken(links: map<LinkId, MunicipalityHasRoute>, municipality: MunicipalityId, route: RouteId)
  {
    exists l :: l in links && links[l] == MunicipalityHasRoute(municipality, route)
  }

  /** The three `unique_together` constraints. */
  predicate FavoritePairsUnique(favorites: map<FavoriteId, Favorite>)
  {
    forall f, g :: f in favorites && g in favorites && favorites[f] == favorites[g] ==> f == g
  }

  predicate VisitPairsUnique(visits: map<VisitId, VisitedPlace>)
  {
    forall v, w :: v in visits && w in visits && visits[v].place == visits[w].place && visits[v].user == visits[w].user
      ==> v == w
  }

  predicate LinkPairsUnique(links: map<LinkId, MunicipalityHasRoute>)
  {
    forall l, k :: l in links && k in links && links[l] == links[k] ==> l == k
  }

  predicate PairsUnique(t: Tables)
  {
    FavoritePairsUnique(t.favorites) && VisitPairsUnique(t.visits) && LinkPairsUnique(t.links)
  }

  /** Auto-increment ids in use are below the next id to be issued. */
  predicate IdsBelow<V>(rows: map<nat, V>, next: nat)
  {
    forall id :: id in rows ==> id < next
  }

  predicate IdsIssued(t: Tables)
  {
    IdsBelow(t.favorites, t.nextFavoriteId) && IdsBelow(t.links, t.nextLinkId)
  }

  predicate Consistent(t: Tables)
  {
    RowsValid(t) && ReferencesResolve(t) && PairsUnique(t) && IdsIssued(t)
  }

  lemma EmptyConsistent()
    ensures Consistent(Empty)
  {
  }

  // ---------------------------------------------------------------------------------------
  // Insert

  datatype StoreError = InvalidField | DuplicateKey | MissingReference | DuplicatePair

  datatype Status = Stored | Rejected(reason: StoreError)

  /** The status of a write and the tables after it. */
  datatype Write = Write(status: Status, after: Tables)

  /** A row to insert. Favorites and links take the next auto-increment id. */
  datatype Row =
    | StateRow(stateId: StateId, state: State)
    | MunicipalityRow(municipalityId: MunicipalityId, municipality: Municipality)
    | CategoryRow(categoryId: CategoryId, category: Category)
    | RouteRow(routeId: RouteId, route: Route)
    | PlaceRow(placeId: PlaceId, place: Place)
    | LinkRow(link: MunicipalityHasRoute)
    | FavoriteRow(favorite: Favorite)
    | VisitRow(visitId: VisitId, visit: VisitedPlace)
    | UserRow(userId: UserId)

  function Insert(t: Tables, row: Row): (w: Write)
    ensures w.status.Rejected? ==> w.after == t
  {
    match row
    case StateRow(id, s) => InsertState(t, id, s)
    case MunicipalityRow(id, m) => InsertMunicipality(t, id, m)
    case CategoryRow(id, c) => InsertCategory(t, id, c)
    case RouteRow(id, r) => InsertRoute(t, id, r)
    case PlaceRow(id, p) => InsertPlace(t, id, p)
    case LinkRow(k) => InsertLink(t, k)
    case FavoriteRow(f) => InsertFavorite(t, f)
    case VisitRow(id, v) => InsertVisit(t, id, v)
    case UserRow(u) => InsertUser(t, u)
  }

  function InsertState(t: Tables, id: StateId, s: State): (w: Write)
    ensures w.status == Stored <==> ValidState(s) && id !in t.states
    ensures w.status == Stored ==> w.after == t.(states := t.states[id := s])
    ensures w.status.Rejected? ==> w.after == t
  {
    if !ValidState(s) then Write(Rejected(InvalidField), t)
    else if id in t.states then Write(Rejected(DuplicateKey), t)
    else Write(Stored, t.(states := t.states[id := s]))
  }

  function InsertMunicipality(t: Tables, id: MunicipalityId, m: Municipality): (w: Write)
    ensures w.status == Stored <==> ValidMunicipality(m) && id !in t.municipalities && m.state in t.states
    ensures w.status == Stored ==> w.after == t.(municipalities := t.municipalities[id := m])
    ensures w.status.Rejected? ==> w.after == t
  {
    if !ValidMunicipality(m) then Write(Rejected(InvalidField), t)
    else if id in t.municipalities then Write(Rejected(DuplicateKey), t)
    else if m.state !in t.states then Write(Rejected(MissingReference), t)
    else Write(Stored, t.(municipalities := t.municipalities[id := m]))
  }

  function InsertCategory(t: Tables, id: CategoryId, c: Category): (w: Write)
    ensures w.status == Stored <==> ValidCategory(c) && id !in t.categories
    ensures w.status == Stored ==> w.after == t.(categories := t.categories[id := c])
    ensures w.status.Rejected? ==> w.after == t
  {
    if !ValidCategory(c) then Write(Rejected(InvalidField), t)
    else if id in t.categories then Write(Rejected(DuplicateKey), t)
    else Write(Stored, t.(categories := t.categories[id := c]))
  }

  function InsertRoute(t: Tables, id: RouteId, r: Route): (w: Write)
    ensures w.status == Stored <==> ValidRoute(r) && id !in t.routes
    ensures w.status == Stored ==> w.after == t.(routes := t.routes[id := r])
    ensures w.status.Rejected? ==> w.after == t
  {
    if !ValidRoute(r) then Write(Rejected(InvalidField), t)
    else if id in t.routes then Write(Rejected(DuplicateKey), t)
    else Write(Stored, t.(routes := t.routes[id := r]))
  }

  function InsertPlace(t: Tables, id: PlaceId, p: Place): (w: Write)
    ensures w.status == Stored <==> ValidPlace(p) && id !in t.places && PlaceReferencesResolve(t, p)
    ensures w.status == Stored ==> w.after == t.(places := t.places[id := p])
    ensures w.status.Rejected? ==> w.after == t
  {
    if !ValidPlace(p) then Write(Rejected(InvalidField), t)
    else if id in t.places then Write(Rejected(DuplicateKey), t)
    else if !PlaceReferencesResolve(t, p) then Write(Rejected(MissingReference), t)
    else Write(Stored, t.(places := t.places[id := p]))
  }

  function InsertLink(t: Tables, k: MunicipalityHasRoute): (w: Write)
    ensures w.status == Stored <==>
      k.municipality in t.municipalities && k.route in t.routes && !LinkPairTaken(t.links, k.municipality, k.route)
    ensures w.status == Stored ==> w.after == t.(links := t.links[t.nextLinkId := k], nextLinkId := t.nextLinkId + 1)
    ensures w.status.Rejected? ==> w.after == t
  {
    if k.municipality !in t.municipalities || k.route !in t.routes then Write(Rejected(MissingReference), t)
    else if LinkPairTaken(t.links, k.municipality, k.route) then Write(Rejected(DuplicatePair), t)
    else Write(Stored, t.(links := t.links[t.nextLinkId := k], nextLinkId := t.nextLinkId + 1))
  }

  function InsertFavorite(t: Tables, f: Favorite): (w: Write)
    ensures w.status == Stored <==>
      f.place in t.places && f.user in t.users && !FavoritePairTaken(t.favorites, f.place, f.user)
    ensures w.status == Stored ==>
      w.after == t.(favorites := t.favorites[t.nextFavoriteId := f], nextFavoriteId := t.nextFavoriteId + 1)
    ensures w.status.Rejected? ==> w.after == t
  {
    if f.place !in t.places || f.user !in t.users then Write(Rejected(MissingReference), t)
    else if FavoritePairTaken(t.favorites, f.place, f.user) then Write(Rejected(DuplicatePair), t)
    else Write(Stored, t.(favorites := t.favorites[t.nextFavoriteId := f], nextFavoriteId := t.nextFavoriteId + 1))
  }

  function InsertVisit(t: Tables, id: VisitId, v: VisitedPlace): (w: Write)
    ensures w.status == Stored <==>
      id !in t.visits && v.place in t.places && v.user in t.users && !VisitPairTaken(t.visits, v.place, v.user)
    ensures w.status == Stored ==> w.after == t.(visits := t.visits[id := v])
    ensures w.status.Rejected? ==> w.after == t
  {
    if id in t.visits then Write(Rejected(DuplicateKey), t)
    else if v.place !in t.places || v.user !in t.users then Write(Rejected(MissingReference), t)
    else if VisitPairTaken(t.visits, v.place, v.user) then Write(Rejected(DuplicatePair), t)
    else Write(Stored, t.(visits := t.visits[id := v]))
  }

  function InsertUser(t: Tables, u: UserId): (w: Write)
    ensures w.status == Stored <==> u !in t.users
    ensures w.status == Stored ==> w.after == t.(users := t.users + {u})
    ensures w.status.Rejected? ==> w.after == t
  {
    if u in t.users then Write(Rejected(DuplicateKey), t)
    else Write(Stored, t.(users := t.users + {u}))
  }

  /** Every insert, stored or refused, keeps the tables consistent. */
  lemma InsertKeepsConsistent(t: Tables, row: Row)
    requires Consistent(t)
    ensures Consistent(Insert(t, row).after)
  {
    match row
    case StateRow(id, s) => StateInsertKeepsConsistent(t, id, s);
    case MunicipalityRow(id, m) => MunicipalityInsertKeepsConsistent(t, id, m);
    case CategoryRow(id, c) => CategoryInsertKeepsConsistent(t, id, c);
    case RouteRow(id, r) => RouteInsertKeepsConsistent(t, id, r);
    case PlaceRow(id, p) => PlaceInsertKeepsConsistent(t, id, p);
    case UserRow(uid) => UserInsertKeepsConsistent(t, uid);
    case LinkRow(k) => LinkInsertKeepsConsistent(t, k);
    case FavoriteRow(f) => FavoriteInsertKeepsConsistent(t, f);
    case VisitRow(id, v) => VisitInsertKeepsConsistent(t, id, v);
  }

  lemma StateInsertKeepsConsistent(t: Tables, id: StateId, s: State)
    requires Consistent(t)
    ensures Consistent(InsertState(t, id, s).after)
  {
    var u := InsertState(t, id, s).after;
    if u != t {
      assert u.municipalities == t.municipalities && u.categories == t.categories && u.routes == t.routes && u.places == t.places && u.links == t.links && u.favorites == t.favorites && u.visits == t.visits && u.users == t.users;
    }
  }

  lemma MunicipalityInsertKeepsConsistent(t: Tables, id: MunicipalityId, m: Municipality)
    requires Consistent(t)
    ensures Consistent(InsertMunicipality(t, id, m).after)
  {
    var u := InsertMunicipality(t, id, m).after;
    if u != t {
      assert u.states == t.states && u.categories == t.categories && u.routes == t.routes && u.places == t.places && u.links == t.links && u.favorites == t.favorites && u.visits == t.visits && u.users == t.users;
    }
  }

  lemma CategoryInsertKeepsConsistent(t: Tables, id: CategoryId, c: Category)
    requires Consistent(t)
    ensures Consistent(InsertCategory(t, id, c).after)
  {
    var u := InsertCategory(t, id, c).after;
    if u != t {
      assert u.states == t.states && u.municipalities == t.municipalities && u.routes == t.routes && u.places == t.places && u.links == t.links && u.favorites == t.favorites && u.visits == t.visits && u.users == t.users;
    }
  }

  lemma RouteInsertKeepsConsistent(t: Tables, id: RouteId, r: Route)
    requires Consistent(t)
    ensures Consistent(InsertRoute(t, id, r).after)
  {
    var u := InsertRoute(t, id, r).after;
    if u != t {
      assert u.states == t.states && u.municipalities == t.municipalities && u.categories == t.categories && u.places == t.places && u.links == t.links && u.favorites == t.favorites && u.visits == t.visits && u.users == t.users;
    }
  }

  lemma PlaceInsertKeepsConsistent(t: Tables, id: PlaceId, p: Place)
    requires Consistent(t)
    ensures Consistent(InsertPlace(t, id, p).after)
  {
    if InsertPlace(t, id, p).status.Stored? {
      PlaceAddedKeepsConsistent(t, id, p);
    }
  }

  lemma PlaceAddedKeepsConsistent(t: Tables, id: PlaceId, p: Place)
    requires Consistent(t) && ValidPlace(p) && PlaceReferencesResolve(t, p)
    ensures Consistent(t.(places := t.places[id := p]))
  {
    var u := t.(places := t.places[id := p]);
    RelationsKeepResolving(t.favorites, t.visits, t.places.Keys, u.places.Keys, t.users);
    assert RowsValid(u);
    assert ReferencesResolve(u);
    assert PairsUnique(u);
    assert IdsIssued(u);
  }

  /** The Favorite and VisitedPlace references stay resolved when Places are only added. */
  lemma RelationsKeepResolving(favorites: map<FavoriteId, Favorite>, visits: map<VisitId, VisitedPlace>,
                               places: set<PlaceId>, more: set<PlaceId>, users: set<UserId>)
    requires places <= more
    requires FavoriteReferencesExist(favorites, places, users) && VisitReferencesExist(visits, places, users)
    ensures FavoriteReferencesExist(favorites, more, users) && VisitReferencesExist(visits, more, users)
  {
  }

  lemma UserInsertKeepsConsistent(t: Tables, uid: UserId)
    requires Consistent(t)
    ensures Consistent(InsertUser(t, uid).after)
  {
    var u := InsertUser(t, uid).after;
    if u != t {
      assert u.states == t.states && u.municipalities == t.municipalities && u.categories == t.categories && u.routes == t.routes && u.places == t.places && u.links == t.links && u.favorites == t.favorites && u.visits == t.visits;
    }
  }

  lemma LinkInsertKeepsConsistent(t: Tables, k: MunicipalityHasRoute)
    requires Consistent(t)
    ensures Consistent(InsertLink(t, k).after)
  {
    var u := InsertLink(t, k).after;
    if u != t {
      assert forall j :: j in t.links ==> t.links[j] != k;
      assert PairsUnique(u);
      assert ReferencesResolve(u);
    }
  }

  lemma FavoriteInsertKeepsConsistent(t: Tables, f: Favorite)
    requires Consistent(t)
    ensures Consistent(InsertFavorite(t, f).after)
  {
    var u := InsertFavorite(t, f).after;
    if u != t {
      assert u.states == t.states && u.municipalities == t.municipalities && u.categories == t.categories && u.routes == t.routes && u.places == t.places && u.links == t.links && u.visits == t.visits && u.users == t.users;
      assert RowsValid(u);
      FavoriteInsertKeepsPairsUnique(t, f);
      AddedFavoriteResolves(t.favorites, t.nextFavoriteId, f, t.places.Keys, t.users);
      assert ReferencesResolve(u);
      assert IdsIssued(u);
    }
  }

  lemma AddedFavoriteResolves(favorites: map<FavoriteId, Favorite>, id: FavoriteId, f: Favorite,
                              places: set<PlaceId>, users: set<UserId>)
    requires FavoriteReferencesExist(favorites, places, users) && f.place in places && f.user in users
    ensures FavoriteReferencesExist(favorites[id := f], places, users)
  {
  }

  lemma FavoriteInsertKeepsPairsUnique(t: Tables, f: Favorite)
    requires Consistent(t)
    ensures PairsUnique(InsertFavorite(t, f).after)
  {
    var u := InsertFavorite(t, f).after;
    if u != t {
      assert forall g :: g in t.favorites ==> t.favorites[g] != f;
    }
  }

  lemma VisitInsertKeepsConsistent(t: Tables, id: VisitId, v: VisitedPlace)
    requires Consistent(t)
    ensures Consistent(InsertVisit(t, id, v).after)
  {
    var u := InsertVisit(t, id, v).after;
    if u != t {
      assert u.states == t.states && u.municipalities == t.municipalities && u.categories == t.categories && u.routes == t.routes && u.places == t.places && u.links == t.links && u.favorites == t.favorites && u.users == t.users;
      assert RowsValid(u);
      VisitInsertKeepsPairsUnique(t, id, v);
      AddedVisitResolves(t.visits, id, v, t.places.Keys, t.users);
      assert ReferencesResolve(u);
      assert IdsIssued(u);
    }
  }

  lemma AddedVisitResolves(visits: map<VisitId, VisitedPlace>, id: VisitId, v: VisitedPlace,
                           places: set<PlaceId>, users: set<UserId>)
    requires VisitReferencesExist(visits, places, users) && v.place in places && v.user in users
    ensures VisitReferencesExist(visits[id := v], places, users)
  {
  }

  lemma VisitInsertKeepsPairsUnique(t: Tables, id: VisitId, v: VisitedPlace)
    requires Consistent(t)
    ensures PairsUnique(InsertVisit(t, id, v).after)
  {
    var u := InsertVisit(t, id, v).after;
    if u != t {
      assert forall w :: w in t.visits ==> !(t.visits[w].place == v.place && t.visits[w].user == v.user);
    }
  }

  /** A second Favorite for the same (place, user) is refused and nothing changes. */
  lemma DuplicateFavoriteRejected(t: Tables, f: Favorite)
    requires Consistent(t)
    requires FavoritePairTaken(t.favorites, f.place, f.user)
    ensures InsertFavorite(t, f) == Write(Rejected(DuplicatePair), t)
  {
    var g :| g in t.favorites && t.favorites[g] == Favorite(f.place, f.user);
    assert t.favorites[g].place in t.places && t.favorites[g].user in t.users;
  }

  /** A second VisitedPlace for the same (place, user) is refused and nothing changes. */
  lemma DuplicateVisitRejected(t: Tables, id: VisitId, v: VisitedPlace)
    requires Consistent(t)
    requires id !in t.visits
    requires VisitPairTaken(t.visits, v.place, v.user)
    ensures InsertVisit(t, id, v) == Write(Rejected(DuplicatePair), t)
  {
    var w :| w in t.visits && t.visits[w].place == v.place && t.visits[w].user == v.user;
    assert t.visits[w].place in t.places && t.visits[w].user in t.users;
  }

  /** A second link for the same (municipality, route) is refused and nothing changes. */
  lemma DuplicateLinkRejected(t: Tables, k: MunicipalityHasRoute)
    requires Consistent(t)
    requires LinkPairTaken(t.links, k.municipality, k.route)
    ensures InsertLink(t, k) == Write(Rejected(DuplicatePair), t)
  {
    var l :| l in t.links && t.links[l] == MunicipalityHasRoute(k.municipality, k.route);
    assert t.links[l].municipality in t.municipalities && t.links[l].route in t.routes;
  }

  /** An insert adds a row under a fresh id: every stored Favorite stays as it was. */
  lemma FavoriteInsertKeepsRows(t: Tables, f: Favorite)
    requires IdsIssued(t)
    ensures var after := InsertFavorite(t, f).after;
      forall g :: g in t.favorites ==> g in after.favorites && after.favorites[g] == t.favorites[g]
  {
    assert t.nextFavoriteId !in t.favorites;
  }

  /**
   * A Favorite whose place and user exist and whose pair is new is stored under the next
   * auto-increment id, and afterwards it is the one row for its pair.
   */
  lemma FavoriteInsertStored(t: Tables, f: Favorite)
    requires Consistent(t)
    requires f.place in t.places && f.user in t.users
    requires !FavoritePairTaken(t.favorites, f.place, f.user)
    ensures var w := InsertFavorite(t, f);
      && w.status == Stored
      && w.after.favorites == t.favorites[t.nextFavoriteId := f]
      && t.nextFavoriteId !in t.favorites
      && forall g :: g in w.after.favorites && w.after.favorites[g] == f ==> g == t.nextFavoriteId
  {
  }

  // ---------------------------------------------------------------------------------------
  // Cascading delete

  /** The rows a delete is asked to remove; the cascade adds every row that depends on them. */
  datatype Roots = Roots(
    states: set<StateId>,
    municipalities: set<MunicipalityId>,
    categories: set<CategoryId>,
    routes: set<RouteId>,
    places: set<PlaceId>,
    links: set<LinkId>,
    favorites: set<FavoriteId>,
    visits: set<VisitId>,
    users: set<UserId>)

  const NoRoots: Roots := Roots({}, {}, {}, {}, {}, {}, {}, {}, {})

  function Union(a: Roots, b: Roots): Roots
  {
    Roots(a.states + b.states, a.municipalities + b.municipalities, a.categories + b.categories,
          a.routes + b.routes, a.places + b.places, a.links + b.links, a.favorites + b.favorites,
          a.visits + b.visits, a.users + b.users)
  }

  function StateRoot(s: StateId): Roots { NoRoots.(states := {s}) }
  function MunicipalityRoot(m: MunicipalityId): Roots { NoRoots.(municipalities := {m}) }
  function MunicipalitiesRoot(ms: set<MunicipalityId>): Roots { NoRoots.(municipalities := ms) }
  function CategoryRoot(c: CategoryId): Roots { NoRoots.(categories := {c}) }
  function RouteRoot(r: RouteId): Roots { NoRoots.(routes := {r}) }
  function PlaceRoot(p: PlaceId): Roots { NoRoots.(places := {p}) }
  function PlacesRoot(ps: set<PlaceId>): Roots { NoRoots.(places := ps) }
  function LinkRoot(l: LinkId): Roots { NoRoots.(links := {l}) }
  function FavoriteRoot(f: FavoriteId): Roots { NoRoots.(favorites := {f}) }
  function VisitRoot(v: VisitId): Roots { NoRoots.(visits := {v}) }
  function UserRoot(u: UserId): Roots { NoRoots.(users := {u}) }

  /** Municipalities removed: named ones and those of a removed State. */
  function DoomedMunicipalities(t: Tables, r: Roots): set<MunicipalityId>
  {
    set m | m in t.municipalities && (m in r.municipalities || t.municipalities[m].state in r.states)
  }

  /** Places removed: named ones and those of a removed Municipality, Category or Route. */
  function DoomedPlaces(t: Tables, r: Roots): set<PlaceId>
  {
    set p | p in t.places &&
      (p in r.places || t.places[p].municipality in DoomedMunicipalities(t, r) ||
       t.places[p].category in r.categories || t.places[p].route in r.routes)
  }

  /** Links removed: named ones and those of a removed Municipality or Route. */
  function DoomedLinks(t: Tables, r: Roots): set<LinkId>
  {
    set l | l in t.links &&
      (l in r.links || t.links[l].municipality in DoomedMunicipalities(t, r) || t.links[l].route in r.routes)
  }

  /** Favorites removed: named ones and those of a removed Place or User. */
  function DoomedFavorites(t: Tables, r: Roots): set<FavoriteId>
  {
    set f | f in t.favorites &&
      (f in r.favorites || t.favorites[f].place in DoomedPlaces(t, r) || t.favorites[f].user in r.users)
  }

  /** VisitedPlace rows removed: named ones and those of a removed Place or User. */
  function DoomedVisits(t: Tables, r: Roots): set<VisitId>
  {
    set v | v in t.visits &&
      (v in r.visits || t.visits[v].place in DoomedPlaces(t, r) || t.visits[v].user in r.users)
  }

  /** Delete the roots and, transitively, every row that references a deleted row. */
  function Cascade(t: Tables, r: Roots): Tables
  {
    t.(states := t.states - r.states,
       municipalities := t.municipalities - DoomedMunicipalities(t, r),
       categories := t.categories - r.categories,
       routes := t.routes - r.routes,
       places := t.places - DoomedPlaces(t, r),
       links := t.links - DoomedLinks(t, r),
       favorites := t.favorites - DoomedFavorites(t, r),
       visits := t.visits - DoomedVisits(t, r),
       users := t.users - r.users)
  }

  /** After any cascade no foreign key dangles, and the other constraints still hold. */
  lemma CascadeKeepsConsistent(t: Tables, r: Roots)
    requires Consistent(t)
    ensures Consistent(Cascade(t, r))
  {
    CascadeKeepsRowsValid(t, r);
    CascadeKeepsMunicipalityStates(t, r);
    CascadeKeepsPlaceReferences(t, r);
    CascadeKeepsLinkReferences(t, r);
    CascadeKeepsFavoriteReferences(t, r);
    CascadeKeepsVisitReferences(t, r);
    CascadeKeepsPairsUnique(t, r);
  }

  lemma CascadeKeepsRowsValid(t: Tables, r: Roots)
    requires RowsValid(t)
    ensures RowsValid(Cascade(t, r))
  {
  }

  lemma CascadeKeepsPairsUnique(t: Tables, r: Roots)
    requires PairsUnique(t) && IdsIssued(t)
    ensures PairsUnique(Cascade(t, r)) && IdsIssued(Cascade(t, r))
  {
  }

  lemma CascadeKeepsMunicipalityStates(t: Tables, r: Roots)
    requires MunicipalityStatesExist(t.municipalities, t.states.Keys)
    ensures var u := Cascade(t, r); MunicipalityStatesExist(u.municipalities, u.states.Keys)
  {
    var u := Cascade(t, r);
    forall m | m in u.municipalities ensures u.municipalities[m].state in u.states {
      assert m !in DoomedMunicipalities(t, r);
    }
  }

  lemma CascadeKeepsPlaceReferences(t: Tables, r: Roots)
    requires PlaceReferencesExist(t.places, t.municipalities.Keys, t.categories.Keys, t.routes.Keys)
    ensures var u := Cascade(t, r); PlaceReferencesExist(u.places, u.municipalities.Keys, u.categories.Keys, u.routes.Keys)
  {
    var u := Cascade(t, r);
    forall p | p in u.places ensures PlaceReferencesResolve(u, u.places[p]) {
      assert p !in DoomedPlaces(t, r);
      assert t.places[p].municipality !in DoomedMunicipalities(t, r);
    }
  }

  lemma CascadeKeepsLinkReferences(t: Tables, r: Roots)
    requires LinkReferencesExist(t.links, t.municipalities.Keys, t.routes.Keys)
    ensures var u := Cascade(t, r); LinkReferencesExist(u.links, u.municipalities.Keys, u.routes.Keys)
  {
    var u := Cascade(t, r);
    forall l | l in u.links ensures u.links[l].municipality in u.municipalities && u.links[l].route in u.routes {
      assert l !in DoomedLinks(t, r);
    }
  }

  lemma CascadeKeepsFavoriteReferences(t: Tables, r: Roots)
    requires FavoriteReferencesExist(t.favorites, t.places.Keys, t.users)
    ensures var u := Cascade(t, r); FavoriteReferencesExist(u.favorites, u.places.Keys, u.users)
  {
    var u := Cascade(t, r);
    forall f | f in u.favorites ensures u.favorites[f].place in u.places && u.favorites[f].user in u.users {
      assert f !in DoomedFavorites(t, r);
    }
  }

  lemma CascadeKeepsVisitReferences(t: Tables, r: Roots)
    requires VisitReferencesExist(t.visits, t.places.Keys, t.users)
    ensures var u := Cascade(t, r); VisitReferencesExist(u.visits, u.places.Keys, u.users)
  {
    var u := Cascade(t, r);
    forall v | v in u.visits ensures u.visits[v].place in u.places && u.visits[v].user in u.users {
      assert v !in DoomedVisits(t, r);
    }
  }

  // ---------------------------------------------------------------------------------------
  // Composing cascades: deleting a, then b, is deleting a and b at once

  lemma MinusMinus<K, V>(m: map<K, V>, a: set<K>, b: set<K>)
    ensures (m - a) - b == m - (a + b)
  {
  }

  lemma DoomedMunicipalitiesCompose(t: Tables, a: Roots, b: Roots)
    ensures DoomedMunicipalities(t, a) + DoomedMunicipalities(Cascade(t, a), b) == DoomedMunicipalities(t, Union(a, b))
  {
  }

  lemma DoomedPlacesCompose(t: Tables, a: Roots, b: Roots)
    ensures DoomedPlaces(t, a) + DoomedPlaces(Cascade(t, a), b) == DoomedPlaces(t, Union(a, b))
  {
    DoomedMunicipalitiesCompose(t, a, b);
  }

  lemma DoomedLinksCompose(t: Tables, a: Roots, b: Roots)
    ensures DoomedLinks(t, a) + DoomedLinks(Cascade(t, a), b) == DoomedLinks(t, Union(a, b))
  {
    DoomedMunicipalitiesCompose(t, a, b);
  }

  lemma DoomedFavoritesCompose(t: Tables, a: Roots, b: Roots)
    ensures DoomedFavorites(t, a) + DoomedFavorites(Cascade(t, a), b) == DoomedFavorites(t, Union(a, b))
  {
    DoomedPlacesCompose(t, a, b);
  }

  lemma DoomedVisitsCompose(t: Tables, a: Roots, b: Roots)
    ensures DoomedVisits(t, a) + DoomedVisits(Cascade(t, a), b) == DoomedVisits(t, Union(a, b))
  {
    DoomedPlacesCompose(t, a, b);
  }

  lemma CascadeCompose(t: Tables, a: Roots, b: Roots)
    ensures Cascade(Cascade(t, a), b) == Cascade(t, Union(a, b))
  {
    var t1 := Cascade(t, a);
    DoomedMunicipalitiesCompose(t, a, b);
    DoomedPlacesCompose(t, a, b);
    DoomedLinksCompose(t, a, b);
    DoomedFavoritesCompose(t, a, b);
    DoomedVisitsCompose(t, a, b);
    MinusMinus(t.states, a.states, b.states);
    MinusMinus(t.municipalities, DoomedMunicipalities(t, a), DoomedMunicipalities(t1, b));
    MinusMinus(t.categories, a.categories, b.categories);
    MinusMinus(t.routes, a.routes, b.routes);
    MinusMinus(t.places, DoomedPlaces(t, a), DoomedPlaces(t1, b));
    MinusMinus(t.links, DoomedLinks(t, a), DoomedLinks(t1, b));
    MinusMinus(t.favorites, DoomedFavorites(t, a), DoomedFavorites(t1, b));
    MinusMinus(t.visits, DoomedVisits(t, a), DoomedVisits(t1, b));
  }

  /** Naming, besides r, municipalities that r already removes changes nothing. */
  lemma CascadeAbsorbsMunicipalities(t: Tables, ms: set<MunicipalityId>, r: Roots)
    requires ms <= DoomedMunicipalities(t, r)
    ensures Cascade(t, Union(MunicipalitiesRoot(ms), r)) == Cascade(t, r)
  {
    var r' := Union(MunicipalitiesRoot(ms), r);
    assert DoomedMunicipalities(t, r') == DoomedMunicipalities(t, r);
    assert DoomedPlaces(t, r') == DoomedPlaces(t, r);
    assert DoomedLinks(t, r') == DoomedLinks(t, r);
    assert DoomedFavorites(t, r') == DoomedFavorites(t, r);
    assert DoomedVisits(t, r') == DoomedVisits(t, r);
  }

  /** Naming, besides r, places that r already removes changes nothing. */
  lemma CascadeAbsorbsPlaces(t: Tables, ps: set<PlaceId>, r: Roots)
    requires ps <= DoomedPlaces(t, r)
    ensures Cascade(t, Union(PlacesRoot(ps), r)) == Cascade(t, r)
  {
    var r' := Union(PlacesRoot(ps), r);
    assert DoomedMunicipalities(t, r') == DoomedMunicipalities(t, r);
    assert DoomedPlaces(t, r') == DoomedPlaces(t, r);
    assert DoomedLinks(t, r') == DoomedLinks(t, r);
    assert DoomedFavorites(t, r') == DoomedFavorites(t, r);
    assert DoomedVisits(t, r') == DoomedVisits(t, r);
  }

  /** A cascade with no roots removes nothing. */
  lemma CascadeNothing(t: Tables)
    ensures Cascade(t, NoRoots) == t
  {
    assert DoomedMunicipalities(t, NoRoots) == {};
    assert DoomedPlaces(t, NoRoots) == {};
    assert DoomedLinks(t, NoRoots) == {};
    assert DoomedFavorites(t, NoRoots) == {};
    assert DoomedVisits(t, NoRoots) == {};
    MinusNothing(t.states);
    MinusNothing(t.municipalities);
    MinusNothing(t.categories);
    MinusNothing(t.routes);
    MinusNothing(t.places);
    MinusNothing(t.links);
    MinusNothing(t.favorites);
    MinusNothing(t.visits);
    assert t.users - {} == t.users;
  }

  /** Deleting the places `ps` and then `p` is deleting `ps + {p}`. */
  lemma CascadeMorePlaces(t: Tables, ps: set<PlaceId>, p: PlaceId)
    ensures Cascade(Cascade(t, PlacesRoot(ps)), PlaceRoot(p)) == Cascade(t, PlacesRoot(ps + {p}))
  {
    CascadeCompose(t, PlacesRoot(ps), PlaceRoot(p));
    assert Union(PlacesRoot(ps), PlaceRoot(p)) == PlacesRoot(ps + {p});
  }

  /** Deleting the municipalities `ms` and then `m` is deleting `ms + {m}`. */
  lemma CascadeMoreMunicipalities(t: Tables, ms: set<MunicipalityId>, m: MunicipalityId)
    ensures Cascade(Cascade(t, MunicipalitiesRoot(ms)), MunicipalityRoot(m)) == Cascade(t, MunicipalitiesRoot(ms + {m}))
  {
    CascadeCompose(t, MunicipalitiesRoot(ms), MunicipalityRoot(m));
    assert Union(MunicipalitiesRoot(ms), MunicipalityRoot(m)) == MunicipalitiesRoot(ms + {m});
  }

  // ---------------------------------------------------------------------------------------
  // One-step deletes, once the rows that depend on the target through several edges are gone

  function LinksOfMunicipality(t: Tables, m: MunicipalityId): set<LinkId>
  {
    set l | l in t.links && t.links[l].municipality == m
  }

  function LinksOfRoute(t: Tables, r: RouteId): set<LinkId>
  {
    set l | l in t.links && t.links[l].route == r
  }

  function FavoritesOfPlace(t: Tables, p: PlaceId): set<FavoriteId>
  {
    set f | f in t.favorites && t.favorites[f].place == p
  }

  function VisitsOfPlace(t: Tables, p: PlaceId): set<VisitId>
  {
    set v | v in t.visits && t.visits[v].place == p
  }

  function FavoritesOfUser(t: Tables, u: UserId): set<FavoriteId>
  {
    set f | f in t.favorites && t.favorites[f].user == u
  }

  function VisitsOfUser(t: Tables, u: UserId): set<VisitId>
  {
    set v | v in t.visits && t.visits[v].user == u
  }

  function MunicipalitiesOfState(t: Tables, s: StateId): set<MunicipalityId>
  {
    set m | m in t.municipalities && t.municipalities[m].state == s
  }

  function PlacesOfMunicipality(t: Tables, m: MunicipalityId): set<PlaceId>
  {
    set p | p in t.places && t.places[p].municipality == m
  }

  function PlacesOfCategory(t: Tables, c: CategoryId): set<PlaceId>
  {
    set p | p in t.places && t.places[p].category == c
  }

  function PlacesOfRoute(t: Tables, r: RouteId): set<PlaceId>
  {
    set p | p in t.places && t.places[p].route == r
  }

  /**
   * Deleting a State's Municipalities first leaves no Municipality pointing at it, and
   * deleting the State afterwards ends where the cascade from the State ends.
   */
  lemma StateAfterItsMunicipalities(t: Tables, s: StateId)
    requires Consistent(t)
    ensures var t1 := Cascade(t, MunicipalitiesRoot(MunicipalitiesOfState(t, s)));
      && (forall m :: m in t1.municipalities ==> t1.municipalities[m].state != s)
      && Cascade(t1, StateRoot(s)) == Cascade(t, StateRoot(s))
  {
    var ms := MunicipalitiesOfState(t, s);
    CascadeCompose(t, MunicipalitiesRoot(ms), StateRoot(s));
    CascadeAbsorbsMunicipalities(t, ms, StateRoot(s));
  }

  /** The same for a Municipality and its Places. */
  lemma MunicipalityAfterItsPlaces(t: Tables, m: MunicipalityId)
    requires Consistent(t)
    ensures var t1 := Cascade(t, PlacesRoot(PlacesOfMunicipality(t, m)));
      && (forall p :: p in t1.places ==> t1.places[p].municipality != m)
      && Cascade(t1, MunicipalityRoot(m)) == Cascade(t, MunicipalityRoot(m))
  {
    var ps := PlacesOfMunicipality(t, m);
    assert DoomedMunicipalities(t, PlacesRoot(ps)) == {};
    CascadeCompose(t, PlacesRoot(ps), MunicipalityRoot(m));
    CascadeAbsorbsPlaces(t, ps, MunicipalityRoot(m));
  }

  /** The same for a Category and its Places. */
  lemma CategoryAfterItsPlaces(t: Tables, c: CategoryId)
    ensures var t1 := Cascade(t, PlacesRoot(PlacesOfCategory(t, c)));
      && (forall p :: p in t1.places ==> t1.places[p].category != c)
      && Cascade(t1, CategoryRoot(c)) == Cascade(t, CategoryRoot(c))
  {
    var ps := PlacesOfCategory(t, c);
    assert DoomedMunicipalities(t, PlacesRoot(ps)) == {};
    CascadeCompose(t, PlacesRoot(ps), CategoryRoot(c));
    CascadeAbsorbsPlaces(t, ps, CategoryRoot(c));
  }

  /** The same for a Route and its Places. */
  lemma RouteAfterItsPlaces(t: Tables, rt: RouteId)
    ensures var t1 := Cascade(t, PlacesRoot(PlacesOfRoute(t, rt)));
      && (forall p :: p in t1.places ==> t1.places[p].route != rt)
      && Cascade(t1, RouteRoot(rt)) == Cascade(t, RouteRoot(rt))
  {
    var ps := PlacesOfRoute(t, rt);
    assert DoomedMunicipalities(t, PlacesRoot(ps)) == {};
    CascadeCompose(t, PlacesRoot(ps), RouteRoot(rt));
    CascadeAbsorbsPlaces(t, ps, RouteRoot(rt));
  }

  lemma MinusNothing<K, V>(m: map<K, V>)
    ensures m - {} == m
  {
  }

  /** Removing a key the map does not hold removes nothing. */
  lemma MinusAbsent<K, V>(m: map<K, V>, k: K)
    requires k !in m
    ensures m - {k} == m
  {
  }

  lemma StateLeaf(t: Tables, s: StateId)
    requires forall m :: m in t.municipalities ==> t.municipalities[m].state != s
    ensures Cascade(t, StateRoot(s)) == t.(states := t.states - {s})
  {
    var r := StateRoot(s);
    assert DoomedMunicipalities(t, r) == {};
    assert DoomedPlaces(t, r) == {};
    assert DoomedLinks(t, r) == {};
    assert DoomedFavorites(t, r) == {};
    assert DoomedVisits(t, r) == {};
    MinusNothing(t.municipalities);
    MinusNothing(t.places);
    MinusNothing(t.links);
    MinusNothing(t.favorites);
    MinusNothing(t.visits);
    MinusNothing(t.categories);
    MinusNothing(t.routes);
    assert t.users - {} == t.users;
  }

  lemma MunicipalityLeaf(t: Tables, m: MunicipalityId)
    requires forall l :: l in t.links ==> t.links[l].municipality in t.municipalities
    requires forall p :: p in t.places ==> t.places[p].municipality != m
    ensures Cascade(t, MunicipalityRoot(m)) ==
              t.(municipalities := t.municipalities - {m}, links := t.links - LinksOfMunicipality(t, m))
  {
    var r := MunicipalityRoot(m);
    assert DoomedMunicipalities(t, r) == if m in t.municipalities then {m} else {};
    assert t.municipalities - DoomedMunicipalities(t, r) == t.municipalities - {m};
    assert DoomedPlaces(t, r) == {};
    assert DoomedLinks(t, r) == LinksOfMunicipality(t, m);
    assert DoomedFavorites(t, r) == {};
    assert DoomedVisits(t, r) == {};
    MinusNothing(t.states);
    MinusNothing(t.categories);
    MinusNothing(t.routes);
    MinusNothing(t.places);
    MinusNothing(t.favorites);
    MinusNothing(t.visits);
    assert t.users - {} == t.users;
  }

  lemma CategoryLeaf(t: Tables, c: CategoryId)
    requires forall p :: p in t.places ==> t.places[p].category != c
    ensures Cascade(t, CategoryRoot(c)) == t.(categories := t.categories - {c})
  {
    var r := CategoryRoot(c);
    assert DoomedMunicipalities(t, r) == {};
    assert DoomedPlaces(t, r) == {};
    assert DoomedLinks(t, r) == {};
    assert DoomedFavorites(t, r) == {};
    assert DoomedVisits(t, r) == {};
    MinusNothing(t.states);
    MinusNothing(t.municipalities);
    MinusNothing(t.routes);
    MinusNothing(t.places);
    MinusNothing(t.links);
    MinusNothing(t.favorites);
    MinusNothing(t.visits);
    assert t.users - {} == t.users;
  }

  lemma RouteLeaf(t: Tables, rt: RouteId)
    requires forall p :: p in t.places ==> t.places[p].route != rt
    ensures Cascade(t, RouteRoot(rt)) == t.(routes := t.routes - {rt}, links := t.links - LinksOfRoute(t, rt))
  {
    var r := RouteRoot(rt);
    assert DoomedMunicipalities(t, r) == {};
    assert DoomedPlaces(t, r) == {};
    assert DoomedLinks(t, r) == LinksOfRoute(t, rt);
    assert DoomedFavorites(t, r) == {};
    assert DoomedVisits(t, r) == {};
    MinusNothing(t.states);
    MinusNothing(t.municipalities);
    MinusNothing(t.categories);
    MinusNothing(t.places);
    MinusNothing(t.favorites);
    MinusNothing(t.visits);
    assert t.users - {} == t.users;
  }

  lemma PlaceLeaf(t: Tables, p: PlaceId)
    requires ReferencesResolve(t)
    ensures Cascade(t, PlaceRoot(p)) ==
              t.(places := t.places - {p},
                 favorites := t.favorites - FavoritesOfPlace(t, p),
                 visits := t.visits - VisitsOfPlace(t, p))
  {
    var r := PlaceRoot(p);
    assert DoomedMunicipalities(t, r) == {};
    assert t.places - DoomedPlaces(t, r) == t.places - {p};
    assert DoomedLinks(t, r) == {};
    assert DoomedFavorites(t, r) == FavoritesOfPlace(t, p);
    assert DoomedVisits(t, r) == VisitsOfPlace(t, p);
    MinusNothing(t.states);
    MinusNothing(t.municipalities);
    MinusNothing(t.categories);
    MinusNothing(t.routes);
    MinusNothing(t.links);
    assert t.users - {} == t.users;
  }

  lemma UserLeaf(t: Tables, u: UserId)
    ensures Cascade(t, UserRoot(u)) ==
              t.(users := t.users - {u},
                 favorites := t.favorites - FavoritesOfUser(t, u),
                 visits := t.visits - VisitsOfUser(t, u))
  {
    var r := UserRoot(u);
    assert DoomedMunicipalities(t, r) == {};
    assert DoomedPlaces(t, r) == {};
    assert DoomedLinks(t, r) == {};
    assert DoomedFavorites(t, r) == FavoritesOfUser(t, u);
    assert DoomedVisits(t, r) == VisitsOfUser(t, u);
    MinusNothing(t.states);
    MinusNothing(t.municipalities);
    MinusNothing(t.categories);
    MinusNothing(t.routes);
    MinusNothing(t.places);
    MinusNothing(t.links);
  }

  /** Deleting a link row removes that row only: the Route and Municipality tables stay as they were. */
  lemma LinkLeaf(t: Tables, l: LinkId)
    ensures Cascade(t, LinkRoot(l)) == t.(links := t.links - {l})
  {
    var r := LinkRoot(l);
    assert DoomedMunicipalities(t, r) == {};
    assert DoomedPlaces(t, r) == {};
    assert t.links - DoomedLinks(t, r) == t.links - {l};
    assert DoomedFavorites(t, r) == {};
    assert DoomedVisits(t, r) == {};
    MinusNothing(t.states);
    MinusNothing(t.municipalities);
    MinusNothing(t.categories);
    MinusNothing(t.routes);
    MinusNothing(t.places);
    MinusNothing(t.favorites);
    MinusNothing(t.visits);
    assert t.users - {} == t.users;
  }

  /** Deleting a Favorite removes that row only. */
  lemma FavoriteLeaf(t: Tables, f: FavoriteId)
    ensures Cascade(t, FavoriteRoot(f)) == t.(favorites := t.favorites - {f})
  {
    var r := FavoriteRoot(f);
    assert DoomedMunicipalities(t, r) == {};
    assert DoomedPlaces(t, r) == {};
    assert DoomedLinks(t, r) == {};
    assert t.favorites - DoomedFavorites(t, r) == t.favorites - {f};
    assert DoomedVisits(t, r) == {};
    MinusNothing(t.states);
    MinusNothing(t.municipalities);
    MinusNothing(t.categories);
    MinusNothing(t.routes);
    MinusNothing(t.places);
    MinusNothing(t.links);
    MinusNothing(t.visits);
    assert t.users - {} == t.users;
  }

  /** Deleting a VisitedPlace removes that row only. */
  lemma VisitLeaf(t: Tables, v: VisitId)
    ensures Cascade(t, VisitRoot(v)) == t.(visits := t.visits - {v})
  {
    var r := VisitRoot(v);
    assert DoomedMunicipalities(t, r) == {};
    assert DoomedPlaces(t, r) == {};
    assert DoomedLinks(t, r) == {};
    assert DoomedFavorites(t, r) == {};
    assert t.visits - DoomedVisits(t, r) == t.visits - {v};
    MinusNothing(t.states);
    MinusNothing(t.municipalities);
    MinusNothing(t.categories);
    MinusNothing(t.routes);
    MinusNothing(t.places);
    MinusNothing(t.links);
    MinusNothing(t.favorites);
    assert t.users - {} == t.users;
  }

  // ---------------------------------------------------------------------------------------
  // What each delete removes

  /** Any cascade only removes rows: what survives is unchanged. */
  lemma CascadeOnlyRemoves(t: Tables, r: Roots)
    ensures var u := Cascade(t, r);
      && (forall p :: p in u.places ==> p in t.places && u.places[p] == t.places[p])
      && (forall m :: m in u.municipalities ==> m in t.municipalities && u.municipalities[m] == t.municipalities[m])
      && (forall f :: f in u.favorites ==> f in t.favorites && u.favorites[f] == t.favorites[f])
      && (forall v :: v in u.visits ==> v in t.visits && u.visits[v] == t.visits[v])
      && (forall l :: l in u.links ==> l in t.links && u.links[l] == t.links[l])
      && u.states.Keys <= t.states.Keys && u.categories.Keys <= t.categories.Keys
      && u.routes.Keys <= t.routes.Keys && u.users <= t.users
  {
  }

  /**
   * A Favorite or VisitedPlace row not itself named survives a cascade exactly when its
   * Place and its User survive it.
   */
  lemma RelationsFollowTheirPlace(t: Tables, r: Roots)
    requires Consistent(t)
    ensures var u := Cascade(t, r);
      && (forall f :: f in t.favorites && f !in r.favorites ==>
            (f in u.favorites <==> t.favorites[f].place in u.places && t.favorites[f].user in u.users))
      && (forall v :: v in t.visits && v !in r.visits ==>
            (v in u.visits <==> t.visits[v].place in u.places && t.visits[v].user in u.users))
  {
  }

  /**
   * Deleting a State deletes its Municipalities and, through them, their Places and their
   * link rows.
   */
  lemma DeleteStateEffect(t: Tables, s: StateId)
    requires Consistent(t)
    ensures var u := Cascade(t, StateRoot(s));
      && u.states == t.states - {s}
      && (forall m :: m in u.municipalities <==> m in t.municipalities && t.municipalities[m].state != s)
      && (forall p :: p in u.places <==>
            p in t.places && t.municipalities[t.places[p].municipality].state != s)
      && (forall l :: l in u.links <==> l in t.links && t.municipalities[t.links[l].municipality].state != s)
      && u.categories == t.categories && u.routes == t.routes && u.users == t.users
  {
    MinusNothing(t.categories);
    MinusNothing(t.routes);
    assert t.users - {} == t.users;
  }

  /**
   * Deleting a Municipality deletes exactly the Places and the link rows that reference it;
   * States, Categories and Routes are untouched.
   */
  lemma DeleteMunicipalityEffect(t: Tables, m: MunicipalityId)
    requires Consistent(t)
    ensures var u := Cascade(t, MunicipalityRoot(m));
      && u.municipalities == t.municipalities - {m}
      && (forall p :: p in u.places <==> p in t.places && t.places[p].municipality != m)
      && (forall l :: l in u.links <==> l in t.links && t.links[l].municipality != m)
      && u.states == t.states && u.categories == t.categories && u.routes == t.routes && u.users == t.users
  {
    var r := MunicipalityRoot(m);
    assert DoomedMunicipalities(t, r) == if m in t.municipalities then {m} else {};
    MunicipalityDoomsItsPlaces(t, m);
    MunicipalityDoomsItsLinks(t, m);
    if m !in t.municipalities {
      MinusNothing(t.municipalities);
      MinusAbsent(t.municipalities, m);
    }
    MinusNothing(t.states);
    MinusNothing(t.categories);
    MinusNothing(t.routes);
    assert t.users - {} == t.users;
  }

  lemma MunicipalityDoomsItsPlaces(t: Tables, m: MunicipalityId)
    requires PlaceReferencesExist(t.places, t.municipalities.Keys, t.categories.Keys, t.routes.Keys)
    ensures forall p :: p in t.places ==> (p in DoomedPlaces(t, MunicipalityRoot(m)) <==> t.places[p].municipality == m)
  {
    var r := MunicipalityRoot(m);
    forall p | p in t.places
      ensures p in DoomedPlaces(t, r) <==> t.places[p].municipality == m
    {
      assert t.places[p].municipality in t.municipalities;
    }
  }

  lemma MunicipalityDoomsItsLinks(t: Tables, m: MunicipalityId)
    requires LinkReferencesExist(t.links, t.municipalities.Keys, t.routes.Keys)
    ensures forall l :: l in t.links ==> (l in DoomedLinks(t, MunicipalityRoot(m)) <==> t.links[l].municipality == m)
  {
    var r := MunicipalityRoot(m);
    forall l | l in t.links
      ensures l in DoomedLinks(t, r) <==> t.links[l].municipality == m
    {
      assert t.links[l].municipality in t.municipalities;
    }
  }

  /** Deleting a Category deletes exactly the Places that reference it. */
  lemma DeleteCategoryEffect(t: Tables, c: CategoryId)
    requires Consistent(t)
    ensures var u := Cascade(t, CategoryRoot(c));
      && u.categories == t.categories - {c}
      && (forall p :: p in u.places <==> p in t.places && t.places[p].category != c)
      && u.states == t.states && u.municipalities == t.municipalities && u.routes == t.routes
      && u.links == t.links && u.users == t.users
  {
    var r := CategoryRoot(c);
    assert DoomedMunicipalities(t, r) == {};
    assert DoomedLinks(t, r) == {};
    MinusNothing(t.states);
    MinusNothing(t.municipalities);
    MinusNothing(t.routes);
    MinusNothing(t.links);
    assert t.users - {} == t.users;
  }

  /** Deleting a Route deletes exactly the Places and the link rows that reference it. */
  lemma DeleteRouteEffect(t: Tables, rt: RouteId)
    requires Consistent(t)
    ensures var u := Cascade(t, RouteRoot(rt));
      && u.routes == t.routes - {rt}
      && (forall p :: p in u.places <==> p in t.places && t.places[p].route != rt)
      && (forall l :: l in u.links <==> l in t.links && t.links[l].route != rt)
      && u.states == t.states && u.municipalities == t.municipalities && u.categories == t.categories
      && u.users == t.users
  {
    var r := RouteRoot(rt);
    assert DoomedMunicipalities(t, r) == {};
    MinusNothing(t.states);
    MinusNothing(t.municipalities);
    MinusNothing(t.categories);
    assert t.users - {} == t.users;
  }
}
