/**
 * The database as mutable state: one map field per table. Inserts check the same
 * constraints as `EntityStore.Insert`; deletes walk the `on_delete=CASCADE` edges,
 * deleting dependants one row at a time before the row itself, and end in the state
 * `EntityStore.Cascade` describes.
 */
module Db {
  import opened Fields
  import opened PlacesModels
  import opened RoutesModels
  import opened EntityStore

  class Database {
    var states: map<StateId, State>
    var municipalities: map<MunicipalityId, Municipality>
    var categories: map<CategoryId, Category>
    var routes: map<RouteId, Route>
    var places: map<PlaceId, Place>
    var links: map<LinkId, MunicipalityHasRoute>
    var favorites: map<FavoriteId, Favorite>
    var visits: map<VisitId, VisitedPlace>
    var users: set<UserId>
    var nextFavoriteId: nat
    var nextLinkId: nat

    /** The tables as a value. */
    function Snapshot(): Tables
      reads this
    {
      Tables(states, municipalities, categories, routes, places, links, favorites, visits, users,
             nextFavoriteId, nextLinkId)
    }

    predicate Valid()
      reads this
    {
      Consistent(Snapshot())
    }

    constructor ()
      ensures Valid() && Snapshot() == Empty
    {
      states, municipalities, categories, routes := map[], map[], map[], map[];
      places, links, favorites, visits := map[], map[], map[], map[];
      users := {};
      nextFavoriteId, nextLinkId := 1, 1;
    }

    /** Insert one row, or refuse it and change nothing. */
    method Insert(row: Row) returns (status: Status)
      requires Valid()
      modifies this
      ensures Valid()
      ensures Write(status, Snapshot()) == EntityStore.Insert(old(Snapshot()), row)
    {
      match row
      case StateRow(id, s) => status := AddState(id, s);
      case MunicipalityRow(id, m) => status := AddMunicipality(id, m);
      case CategoryRow(id, c) => status := AddCategory(id, c);
      case RouteRow(id, r) => status := AddRoute(id, r);
      case PlaceRow(id, p) => status := AddPlace(id, p);
      case LinkRow(k) => status := AddLink(k);
      case FavoriteRow(f) => status := AddFavorite(f);
      case VisitRow(id, v) => status := AddVisit(id, v);
      case UserRow(u) => status := AddUser(u);
    }

    method AddState(id: StateId, s: State) returns (status: Status)
      requires Valid()
      modifies this
      ensures Valid()
      ensures Write(status, Snapshot()) == InsertState(old(Snapshot()), id, s)
    {
      ghost var t := Snapshot();
      ghost var w := InsertState(t, id, s);
      StateInsertKeepsConsistent(t, id, s);
      if !ValidState(s) {
        status := Rejected(InvalidField);
      } else if id in states {
        status := Rejected(DuplicateKey);
      } else {
        states := states[id := s];
        status := Stored;
      }
      assert status == w.status && Snapshot() == w.after;
    }

    method AddMunicipality(id: MunicipalityId, m: Municipality) returns (status: Status)
      requires Valid()
      modifies this
      ensures Valid()
      ensures Write(status, Snapshot()) == InsertMunicipality(old(Snapshot()), id, m)
    {
      ghost var t := Snapshot();
      ghost var w := InsertMunicipality(t, id, m);
      MunicipalityInsertKeepsConsistent(t, id, m);
      if !ValidMunicipality(m) {
        status := Rejected(InvalidField);
      } else if id in municipalities {
        status := Rejected(DuplicateKey);
      } else if m.state !in states {
        status := Rejected(MissingReference);
      } else {
        municipalities := municipalities[id := m];
        status := Stored;
      }
      assert status == w.status && Snapshot() == w.after;
    }

    method AddCategory(id: CategoryId, c: Category) returns (status: Status)
      requires Valid()
      modifies this
      ensures Valid()
      ensures Write(status, Snapshot()) == InsertCategory(old(Snapshot()), id, c)
    {
      ghost var t := Snapshot();
      ghost var w := InsertCategory(t, id, c);
      CategoryInsertKeepsConsistent(t, id, c);
      if !ValidCategory(c) {
        status := Rejected(InvalidField);
      } else if id in categories {
        status := Rejected(DuplicateKey);
      } else {
        categories := categories[id := c];
        status := Stored;
      }
      assert status == w.status && Snapshot() == w.after;
    }

    method AddRoute(id: RouteId, r: Route) returns (status: Status)
      requires Valid()
      modifies this
      ensures Valid()
      ensures Write(status, Snapshot()) == InsertRoute(old(Snapshot()), id, r)
    {
      ghost var t := Snapshot();
      ghost var w := InsertRoute(t, id, r);
      RouteInsertKeepsConsistent(t, id, r);
      if !ValidRoute(r) {
        status := Rejected(InvalidField);
      } else if id in routes {
        status := Rejected(DuplicateKey);
      } else {
        routes := routes[id := r];
        status := Stored;
      }
      assert status == w.status && Snapshot() == w.after;
    }

    method AddPlace(id: PlaceId, p: Place) returns (status: Status)
      requires Valid()
      modifies this
      ensures Valid()
      ensures Write(status, Snapshot()) == InsertPlace(old(Snapshot()), id, p)
    {
      ghost var t := Snapshot();
      ghost var w := InsertPlace(t, id, p);
      PlaceInsertKeepsConsistent(t, id, p);
      if !ValidPlace(p) {
        status := Rejected(InvalidField);
      } else if id in places {
        status := Rejected(DuplicateKey);
      } else if p.municipality !in municipalities || p.category !in categories || p.route !in routes {
        status := Rejected(MissingReference);
      } else {
        places := places[id := p];
        status := Stored;
      }
      assert status == w.status && Snapshot() == w.after;
    }

    method AddLink(k: MunicipalityHasRoute) returns (status: Status)
      requires Valid()
      modifies this
      ensures Valid()
      ensures Write(status, Snapshot()) == InsertLink(old(Snapshot()), k)
    {
      LinkInsertKeepsConsistent(Snapshot(), k);
      if k.municipality !in municipalities || k.route !in routes {
        status := Rejected(MissingReference);
      } else if LinkPairTaken(links, k.municipality, k.route) {
        status := Rejected(DuplicatePair);
      } else {
        links := links[nextLinkId := k];
        nextLinkId := nextLinkId + 1;
        status := Stored;
      }
    }

    method AddFavorite(f: Favorite) returns (status: Status)
      requires Valid()
      modifies this
      ensures Valid()
      ensures Write(status, Snapshot()) == InsertFavorite(old(Snapshot()), f)
    {
      ghost var t := Snapshot();
      ghost var w := InsertFavorite(t, f);
      FavoriteInsertKeepsConsistent(t, f);
      if f.place !in places || f.user !in users {
        status := Rejected(MissingReference);
      } else if FavoritePairTaken(favorites, f.place, f.user) {
        status := Rejected(DuplicatePair);
      } else {
        favorites := favorites[nextFavoriteId := f];
        nextFavoriteId := nextFavoriteId + 1;
        status := Stored;
      }
      assert status == w.status && Snapshot() == w.after;
    }

    method AddVisit(id: VisitId, v: VisitedPlace) returns (status: Status)
      requires Valid()
      modifies this
      ensures Valid()
      ensures Write(status, Snapshot()) == InsertVisit(old(Snapshot()), id, v)
    {
      ghost var t := Snapshot();
      ghost var w := InsertVisit(t, id, v);
      VisitInsertKeepsConsistent(t, id, v);
      if id in visits {
        status := Rejected(DuplicateKey);
      } else if v.place !in places || v.user !in users {
        status := Rejected(MissingReference);
      } else if VisitPairTaken(visits, v.place, v.user) {
        status := Rejected(DuplicatePair);
      } else {
        visits := visits[id := v];
        status := Stored;
      }
      assert status == w.status && Snapshot() == w.after;
    }

    method AddUser(u: UserId) returns (status: Status)
      requires Valid()
      modifies this
      ensures Valid()
      ensures Write(status, Snapshot()) == InsertUser(old(Snapshot()), u)
    {
      ghost var t := Snapshot();
      ghost var w := InsertUser(t, u);
      UserInsertKeepsConsistent(t, u);
      if u in users {
        status := Rejected(DuplicateKey);
      } else {
        users := users + {u};
        status := Stored;
      }
      assert status == w.status && Snapshot() == w.after;
    }

    /** Delete a Place together with its Favorite and VisitedPlace rows. */
    method DeletePlace(p: PlaceId) returns (found: bool)
      requires Valid()
      modifies this
      ensures Valid()
      ensures found == (p in old(places))
      ensures Snapshot() == Cascade(old(Snapshot()), PlaceRoot(p))
    {
      var t := Snapshot();
      found := p in places;
      favorites := favorites - FavoritesOfPlace(t, p);
      visits := visits - VisitsOfPlace(t, p);
      places := places - {p};
      PlaceLeaf(t, p);
      assert Snapshot() == Cascade(t, PlaceRoot(p));
      CascadeKeepsConsistent(t, PlaceRoot(p));
    }

    /**
     * Delete every Place in `pending`, one at a time; the result is the cascade of all of
     * them together.
     */
    method DeletePlaces(pending: set<PlaceId>)
      requires Valid()
      modifies this
      ensures Valid()
      ensures Snapshot() == Cascade(old(Snapshot()), PlacesRoot(pending))
    {
      ghost var t0 := Snapshot();
      var left := pending;
      ghost var done: set<PlaceId> := {};
      CascadeNothing(t0);
      assert PlacesRoot({}) == NoRoots;
      while left != {}
        invariant Valid()
        invariant left !! done && left + done == pending
        invariant Snapshot() == Cascade(t0, PlacesRoot(done))
        decreases left
      {
        var p :| p in left;
        var gone := DeletePlace(p);
        CascadeMorePlaces(t0, done, p);
        done := done + {p};
        left := left - {p};
      }
    }

    /** Delete a Municipality: first its Places (and their rows), then its link rows and itself. */
    method DeleteMunicipality(m: MunicipalityId) returns (found: bool)
      requires Valid()
      modifies this
      ensures Valid()
      ensures found == (m in old(municipalities))
      ensures Snapshot() == Cascade(old(Snapshot()), MunicipalityRoot(m))
    {
      var t0 := Snapshot();
      found := m in municipalities;
      MunicipalityAfterItsPlaces(t0, m);
      DeletePlaces(PlacesOfMunicipality(t0, m));
      var t1 := Snapshot();
      links := links - LinksOfMunicipality(t1, m);
      municipalities := municipalities - {m};
      MunicipalityLeaf(t1, m);
      assert Snapshot() == Cascade(t1, MunicipalityRoot(m));
      CascadeKeepsConsistent(t1, MunicipalityRoot(m));
    }

    /** Delete every Municipality in `pending`, one at a time. */
    method DeleteMunicipalities(pending: set<MunicipalityId>)
      requires Valid()
      modifies this
      ensures Valid()
      ensures Snapshot() == Cascade(old(Snapshot()), MunicipalitiesRoot(pending))
    {
      ghost var t0 := Snapshot();
      var left := pending;
      ghost var done: set<MunicipalityId> := {};
      CascadeNothing(t0);
      assert MunicipalitiesRoot({}) == NoRoots;
      while left != {}
        invariant Valid()
        invariant left !! done && left + done == pending
        invariant Snapshot() == Cascade(t0, MunicipalitiesRoot(done))
        decreases left
      {
        var m :| m in left;
        var gone := DeleteMunicipality(m);
        CascadeMoreMunicipalities(t0, done, m);
        done := done + {m};
        left := left - {m};
      }
    }

    /** Delete a State: first its Municipalities, then the State itself. */
    method DeleteState(s: StateId) returns (found: bool)
      requires Valid()
      modifies this
      ensures Valid()
      ensures found == (s in old(states))
      ensures Snapshot() == Cascade(old(Snapshot()), StateRoot(s))
    {
      var t0 := Snapshot();
      found := s in states;
      StateAfterItsMunicipalities(t0, s);
      DeleteMunicipalities(MunicipalitiesOfState(t0, s));
      var t1 := Snapshot();
      states := states - {s};
      StateLeaf(t1, s);
      assert Snapshot() == Cascade(t1, StateRoot(s));
      CascadeKeepsConsistent(t1, StateRoot(s));
    }

    /** Delete a Category: first its Places, then the Category. */
    method DeleteCategory(c: CategoryId) returns (found: bool)
      requires Valid()
      modifies this
      ensures Valid()
      ensures found == (c in old(categories))
      ensures Snapshot() == Cascade(old(Snapshot()), CategoryRoot(c))
    {
      var t0 := Snapshot();
      found := c in categories;
      CategoryAfterItsPlaces(t0, c);
      DeletePlaces(PlacesOfCategory(t0, c));
      var t1 := Snapshot();
      categories := categories - {c};
      CategoryLeaf(t1, c);
      assert Snapshot() == Cascade(t1, CategoryRoot(c));
      CascadeKeepsConsistent(t1, CategoryRoot(c));
    }

    /** Delete a Route: first its Places, then its link rows and the Route. */
    method DeleteRoute(r: RouteId) returns (found: bool)
      requires Valid()
      modifies this
      ensures Valid()
      ensures found == (r in old(routes))
      ensures Snapshot() == Cascade(old(Snapshot()), RouteRoot(r))
    {
      var t0 := Snapshot();
      found := r in routes;
      RouteAfterItsPlaces(t0, r);
      DeletePlaces(PlacesOfRoute(t0, r));
      var t1 := Snapshot();
      links := links - LinksOfRoute(t1, r);
      routes := routes - {r};
      RouteLeaf(t1, r);
      assert Snapshot() == Cascade(t1, RouteRoot(r));
      CascadeKeepsConsistent(t1, RouteRoot(r));
    }

    /** Delete a User together with their Favorite and VisitedPlace rows. */
    method DeleteUser(u: UserId) returns (found: bool)
      requires Valid()
      modifies this
      ensures Valid()
      ensures found == (u in old(users))
      ensures Snapshot() == Cascade(old(Snapshot()), UserRoot(u))
    {
      var t := Snapshot();
      found := u in users;
      favorites := favorites - FavoritesOfUser(t, u);
      visits := visits - VisitsOfUser(t, u);
      users := users - {u};
      UserLeaf(t, u);
      assert Snapshot() == Cascade(t, UserRoot(u));
      CascadeKeepsConsistent(t, UserRoot(u));
    }

    /** Delete one Municipality_has_Route row. */
    method DeleteLink(l: LinkId) returns (found: bool)
      requires Valid()
      modifies this
      ensures Valid()
      ensures found == (l in old(links))
      ensures Snapshot() == Cascade(old(Snapshot()), LinkRoot(l))
    {
      var t := Snapshot();
      found := l in links;
      links := links - {l};
      LinkLeaf(t, l);
      assert Snapshot() == Cascade(t, LinkRoot(l));
      CascadeKeepsConsistent(t, LinkRoot(l));
    }

    /** Delete one Favorite row. */
    method DeleteFavorite(f: FavoriteId) returns (found: bool)
      requires Valid()
      modifies this
      ensures Valid()
      ensures found == (f in old(favorites))
      ensures Snapshot() == Cascade(old(Snapshot()), FavoriteRoot(f))
    {
      var t := Snapshot();
      found := f in favorites;
      favorites := favorites - {f};
      FavoriteLeaf(t, f);
      assert Snapshot() == Cascade(t, FavoriteRoot(f));
      CascadeKeepsConsistent(t, FavoriteRoot(f));
    }

    /** Delete one VisitedPlace row. */
    method DeleteVisit(v: VisitId) returns (found: bool)
      requires Valid()
      modifies this
      ensures Valid()
      ensures found == (v in old(visits))
      ensures Snapshot() == Cascade(old(Snapshot()), VisitRoot(v))
    {
      var t := Snapshot();
      found := v in visits;
      visits := visits - {v};
      VisitLeaf(t, v);
      assert Snapshot() == Cascade(t, VisitRoot(v));
      CascadeKeepsConsistent(t, VisitRoot(v));
    }
  }
}
