/**
 * The views of the places application: who may call the catalogue endpoints, and the
 * Favorite endpoint, which only ever shows, creates and deletes the requester's own rows.
 *
 * `CreateOutcomeAsWritten` is the Favorite create as written, which validates the body's
 * `user` and then stores the requester; `CreateOutcome` validates the pair it stores, and
 * the `Create` method and the rest of the model use it.
 */
module PlacesViews {
  import opened Wrappers
  import opened Fields
  import opened PlacesModels
  import opened RoutesModels
  import opened EntityStore
  import opened Representation
  import opened Ordering
  import opened PlacesSerializers
  import opened Requests
  import opened Db

  // ---------------------------------------------------------------------------------------
  // Permissions

  /** IsAdminUserOrReadOnly: anyone may read; only staff and superusers may write. */
  predicate AdminOrReadOnly(m: Method, u: User): (allowed: bool)
    ensures allowed <==> m in {Get, Head, Options} || (u.Authenticated? && (u.isStaff || u.isSuperuser))
  {
    if IsSafe(m) then true else IsStaff(u) || IsSuperuser(u)
  }

  /** Both halves of the rule, in terms of the request. */
  lemma AdminOrReadOnlyVerdict(m: Method, u: User)
    ensures IsSafe(m) ==> AdminOrReadOnly(m, u)
    ensures !IsSafe(m) ==> (AdminOrReadOnly(m, u) <==> u.Authenticated? && (u.isStaff || u.isSuperuser))
  {
  }

  /** The anonymous user, and a user with neither flag, may only read. */
  lemma OrdinaryUsersOnlyRead(m: Method, u: User)
    requires u.Anonymous? || (!u.isStaff && !u.isSuperuser)
    ensures AdminOrReadOnly(m, u) <==> m in {Get, Head, Options}
  {
  }

  datatype ViewSet = StateViewSet | MunicipalityViewSet | CategoryViewSet | PlaceViewSet | FavoriteViewSet

  /** The permission class each view set names. */
  predicate HasPermission(v: ViewSet, m: Method, u: User): (allowed: bool)
    ensures v == FavoriteViewSet ==> (allowed <==> u.Authenticated?)
    ensures v != FavoriteViewSet ==>
      (allowed <==> m in {Get, Head, Options} || (u.Authenticated? && (u.isStaff || u.isSuperuser)))
  {
    match v
    case FavoriteViewSet => IsAuthenticated(u)
    case _ => AdminOrReadOnly(m, u)
  }

  /** The four catalogue view sets share the admin-or-read-only rule. */
  lemma CatalogueViewSetsAdminOrReadOnly(v: ViewSet, m: Method, u: User)
    requires v != FavoriteViewSet
    ensures HasPermission(v, m, u) <==> IsSafe(m) || (u.Authenticated? && (u.isStaff || u.isSuperuser))
  {
  }

  /** Every Favorite operation, reads included, needs a signed-in user; any signed-in user may call them. */
  lemma FavoritesNeedAuthentication(m: Method, u: User)
    ensures HasPermission(FavoriteViewSet, m, u) <==> u.Authenticated?
  {
  }

  // ---------------------------------------------------------------------------------------
  // The Favorite endpoint

  datatype Response = Ok(body: Json) | Created(body: Json) | NoContent | BadRequest | NotFound | Denied | ServerError

  /** A response and the tables after the request. */
  datatype Reply = Reply(response: Response, after: Tables)

  /** What every Favorite listing needs: each Favorite's Place can be projected. */
  predicate FavoritesProjectable(t: Tables)
  {
    forall f :: f in t.favorites ==> PlaceResolves(t, t.favorites[f].place)
  }

  lemma ConsistentFavoritesProjectable(t: Tables)
    requires Consistent(t)
    ensures FavoritesProjectable(t)
  {
    ConsistentPlacesResolve(t);
  }

  /** The given Favorites in ascending id order, each in the detail projection. */
  function FavoriteListJson(t: Tables, fs: set<FavoriteId>): (items: seq<Json>)
    requires forall f :: f in fs ==> f in t.favorites && PlaceResolves(t, t.favorites[f].place)
    ensures |items| == |fs|
    ensures forall i :: 0 <= i < |items| ==>
      SortedIds(fs)[i] in fs && items[i] == FavoriteDetailJson(t, SortedIds(fs)[i])
  {
    var ids := SortedIds(fs);
    seq(|ids|, i requires 0 <= i < |ids| => FavoriteDetailJson(t, ids[i]))
  }

  /** `list`: the requester's Favorites (`get_queryset`), each with its Place. */
  function ListOutcome(t: Tables, session: User): (reply: Reply)
    requires FavoritesProjectable(t)
    ensures reply.after == t
  {
    var u := RequestUser(t, session);
    if !HasPermission(FavoriteViewSet, Get, u) then Reply(Denied, t)
    else Reply(Ok(JArr(FavoriteListJson(t, FavoritesOfUser(t, u.id)))), t)
  }

  /** An entry is in the listing of a set of Favorites exactly when its Favorite is in the set. */
  lemma FavoriteListMembers(t: Tables, fs: set<FavoriteId>, f: FavoriteId)
    requires forall g :: g in fs ==> g in t.favorites && PlaceResolves(t, t.favorites[g].place)
    requires f in t.favorites && PlaceResolves(t, t.favorites[f].place)
    ensures FavoriteDetailJson(t, f) in FavoriteListJson(t, fs) <==> f in fs
  {
    var ids, items := SortedIds(fs), FavoriteListJson(t, fs);
    if FavoriteDetailJson(t, f) in items {
      var i :| 0 <= i < |items| && items[i] == FavoriteDetailJson(t, f);
      assert items[i].fields[IdField] == JId(ids[i]);
    }
    if f in fs {
      var i :| 0 <= i < |ids| && ids[i] == f;
      assert items[i] == FavoriteDetailJson(t, f);
    }
  }

  /** Every entry of a listing of Favorites that all belong to `u` names `u`. */
  lemma FavoriteListNamesUser(t: Tables, fs: set<FavoriteId>, u: UserId)
    requires forall f :: f in fs ==> f in t.favorites && PlaceResolves(t, t.favorites[f].place) && t.favorites[f].user == u
    ensures var items := FavoriteListJson(t, fs);
      forall i :: 0 <= i < |items| ==> items[i].JObj? && UserField in items[i].fields && items[i].fields[UserField] == JId(u)
  {
  }

  /**
   * The listing of one user's Favorites holds one entry per Favorite of theirs, the entry
   * of a Favorite appears exactly when the Favorite is theirs, and every entry names them.
   */
  lemma UserFavoriteList(t: Tables, u: UserId)
    requires FavoritesProjectable(t)
    ensures var items := FavoriteListJson(t, FavoritesOfUser(t, u));
      && |items| == |FavoritesOfUser(t, u)|
      && (forall i :: 0 <= i < |items| ==> items[i].JObj? && UserField in items[i].fields && items[i].fields[UserField] == JId(u))
      && (forall f :: f in t.favorites ==> (FavoriteDetailJson(t, f) in items <==> t.favorites[f].user == u))
  {
    var fs := FavoritesOfUser(t, u);
    FavoriteListNamesUser(t, fs, u);
    forall f | f in t.favorites
      ensures FavoriteDetailJson(t, f) in FavoriteListJson(t, fs) <==> t.favorites[f].user == u
    {
      FavoriteListMembers(t, fs, f);
    }
  }

  /** A signed-in user is answered with the listing of their own Favorites. */
  lemma ListShowsOwnFavorites(t: Tables, session: User)
    requires FavoritesProjectable(t) && session.Authenticated? && session.id in t.users
    ensures ListOutcome(t, session) == Reply(Ok(JArr(FavoriteListJson(t, FavoritesOfUser(t, session.id)))), t)
  {
  }

  /** An anonymous request is refused before any Favorite is read. */
  lemma ListNeedsAuthentication(t: Tables)
    requires FavoritesProjectable(t)
    ensures ListOutcome(t, Anonymous) == Reply(Denied, t)
  {
  }

  /** A primary-key field of the body: present, an id, and naming an existing row. */
  function ReadPlaceKey(t: Tables, body: Json): (place: Option<PlaceId>)
    ensures place.Some? ==> place.value in t.places
  {
    var value :- Member(body, PlaceField);
    var id :- AsId(value);
    if id in t.places then Some(id) else None
  }

  function ReadUserKey(t: Tables, body: Json): (user: Option<UserId>)
    ensures user.Some? ==> user.value in t.users
  {
    var value :- Member(body, UserField);
    var id :- AsId(value);
    if id in t.users then Some(id) else None
  }

  /**
   * FavoriteSerializer validation as written: `place` and `user` are both required
   * primary keys of existing rows, and the pair they name must be new.
   */
  function ValidateFavoriteAsWritten(t: Tables, body: Json): (f: Option<Favorite>)
    ensures f.Some? ==>
      f.value.place in t.places && f.value.user in t.users && !FavoritePairTaken(t.favorites, f.value.place, f.value.user)
  {
    var place :- ReadPlaceKey(t, body);
    var user :- ReadUserKey(t, body);
    if FavoritePairTaken(t.favorites, place, user) then None else Some(Favorite(place, user))
  }

  /**
   * `create` as written: the body is validated for the pair (place, body's user), and the
   * row saved is (place, requester). When the requester already has that Place, the
   * unique constraint refuses the save and the request fails with a server error.
   */
  function CreateOutcomeAsWritten(t: Tables, session: User, body: Json): (reply: Reply)
    ensures !reply.response.Created? ==> reply.after == t
    ensures !(session.Authenticated? && session.id in t.users) ==> reply == Reply(Denied, t)
    ensures session.Authenticated? && session.id in t.users ==>
      var checked := ValidateFavoriteAsWritten(t, body);
      && (reply.response.Created? <==>
            checked.Some? && !FavoritePairTaken(t.favorites, checked.value.place, session.id))
      && (reply.response == ServerError <==>
            checked.Some? && FavoritePairTaken(t.favorites, checked.value.place, session.id))
      && (reply.response == BadRequest <==> checked.None?)
    ensures reply.response.Created? ==>
      && session.Authenticated? && ValidateFavoriteAsWritten(t, body).Some?
      && var row := Favorite(ValidateFavoriteAsWritten(t, body).value.place, session.id);
         && reply.after == t.(favorites := t.favorites[t.nextFavoriteId := row], nextFavoriteId := t.nextFavoriteId + 1)
         && reply.response.body == FavoriteJson(t.nextFavoriteId, row)
  {
    var u := RequestUser(t, session);
    if !HasPermission(FavoriteViewSet, Post, u) then Reply(Denied, t)
    else
      match ValidateFavoriteAsWritten(t, body)
      case None => Reply(BadRequest, t)
      case Some(checked) =>
        var row := Favorite(checked.place, u.id);
        var w := InsertFavorite(t, row);
        if w.status.Stored? then Reply(Created(FavoriteJson(t.nextFavoriteId, row)), w.after)
        else Reply(ServerError, t)
  }

  /** Validation of the row actually stored: the Place must exist and the requester must not have it yet. */
  function ValidateFavorite(t: Tables, requester: UserId, body: Json): (f: Option<Favorite>)
    ensures f.Some? ==> f.value.user == requester && f.value.place in t.places
    ensures f.Some? ==> !FavoritePairTaken(t.favorites, f.value.place, requester)
    ensures f.None? <==> ReadPlaceKey(t, body).None? || FavoritePairTaken(t.favorites, ReadPlaceKey(t, body).value, requester)
  {
    var place :- ReadPlaceKey(t, body);
    if FavoritePairTaken(t.favorites, place, requester) then None else Some(Favorite(place, requester))
  }

  /** `create`, validating the pair it stores: the Place from the body, the user from the request. */
  function CreateOutcome(t: Tables, session: User, body: Json): (reply: Reply)
    ensures !reply.response.Created? ==> reply.after == t
    ensures !(session.Authenticated? && session.id in t.users) ==> reply == Reply(Denied, t)
    ensures session.Authenticated? && session.id in t.users ==>
      && (reply.response.Created? || reply.response == BadRequest)
      && (reply.response.Created? <==>
            ReadPlaceKey(t, body).Some? && !FavoritePairTaken(t.favorites, ReadPlaceKey(t, body).value, session.id))
    ensures reply.response.Created? ==>
      && session.Authenticated? && ReadPlaceKey(t, body).Some?
      && var row := Favorite(ReadPlaceKey(t, body).value, session.id);
         && reply.after == t.(favorites := t.favorites[t.nextFavoriteId := row], nextFavoriteId := t.nextFavoriteId + 1)
         && reply.response.body == FavoriteJson(t.nextFavoriteId, row)
  {
    var u := RequestUser(t, session);
    if !HasPermission(FavoriteViewSet, Post, u) then Reply(Denied, t)
    else
      match ValidateFavorite(t, u.id, body)
      case None => Reply(BadRequest, t)
      case Some(row) =>
        var w := InsertFavorite(t, row);
        if w.status.Stored? then Reply(Created(FavoriteJson(t.nextFavoriteId, row)), w.after)
        else Reply(ServerError, t)
  }

  /**
   * A create that succeeds stores one new row under the next id, for the Place the body
   * names and the requester, and answers with that row.
   */
  lemma CreateStampsRequester(t: Tables, session: User, body: Json)
    ensures var reply := CreateOutcome(t, session, body);
      reply.response.Created? ==>
        && session.Authenticated? && session.id in t.users
        && ReadPlaceKey(t, body).Some?
        && var row := Favorite(ReadPlaceKey(t, body).value, session.id);
           && reply.after == t.(favorites := t.favorites[t.nextFavoriteId := row], nextFavoriteId := t.nextFavoriteId + 1)
           && reply.response.body == FavoriteJson(t.nextFavoriteId, row)
  {
  }

  /** A create that does not succeed changes nothing. */
  lemma CreateFailureChangesNothing(t: Tables, session: User, body: Json)
    ensures !CreateOutcome(t, session, body).response.Created? ==> CreateOutcome(t, session, body).after == t
  {
  }

  /**
   * A signed-in user's create answers 201 when the body names an existing Place the user
   * has not yet marked, and 400 otherwise; it never fails with a server error.
   */
  lemma CreateVerdict(t: Tables, session: User, body: Json)
    requires session.Authenticated? && session.id in t.users
    ensures var response := CreateOutcome(t, session, body).response;
      && (response.Created? || response == BadRequest)
      && (response.Created? <==>
            ReadPlaceKey(t, body).Some? && !FavoritePairTaken(t.favorites, ReadPlaceKey(t, body).value, session.id))
  {
  }

  /** Whatever user the body names, the outcome is the same. */
  lemma CreateIgnoresBodyUser(t: Tables, session: User, fields: map<Key, Json>, user: Json)
    ensures CreateOutcome(t, session, JObj(fields[UserField := user])) == CreateOutcome(t, session, JObj(fields))
  {
    assert ReadPlaceKey(t, JObj(fields[UserField := user])) == ReadPlaceKey(t, JObj(fields));
  }

  /** A second create for the same Place by the same user is refused and changes nothing. */
  lemma CreateTwiceRejected(t: Tables, session: User, body: Json)
    requires CreateOutcome(t, session, body).response.Created?
    ensures var after := CreateOutcome(t, session, body).after;
      CreateOutcome(after, session, body) == Reply(BadRequest, after)
  {
    var after := CreateOutcome(t, session, body).after;
    var row := Favorite(ReadPlaceKey(t, body).value, session.id);
    assert after.favorites[t.nextFavoriteId] == row;
    assert ReadPlaceKey(after, body) == ReadPlaceKey(t, body);
  }

  /** `destroy(pk)`: only the requester's own row with that id; otherwise not found, nothing removed. */
  function DestroyOutcome(t: Tables, session: User, pk: FavoriteId): (reply: Reply)
    ensures !(session.Authenticated? && session.id in t.users) ==> reply == Reply(Denied, t)
    ensures session.Authenticated? && session.id in t.users ==>
      && (reply.response == NoContent <==> pk in t.favorites && t.favorites[pk].user == session.id)
      && (reply.response == NoContent ==> reply.after == t.(favorites := t.favorites - {pk}))
      && (reply.response != NoContent ==> reply == Reply(NotFound, t))
  {
    var u := RequestUser(t, session);
    if !HasPermission(FavoriteViewSet, Delete, u) then Reply(Denied, t)
    else if pk in t.favorites && t.favorites[pk].user == u.id then
      FavoriteLeaf(t, pk);
      Reply(NoContent, Cascade(t, FavoriteRoot(pk)))
    else Reply(NotFound, t)
  }

  /**
   * A signed-in user's destroy removes the row exactly when it is theirs, and then that
   * row only; any other id, another user's row included, is not found and nothing changes.
   */
  lemma DestroyRemovesOnlyOwnRow(t: Tables, session: User, pk: FavoriteId)
    requires session.Authenticated? && session.id in t.users
    ensures var reply := DestroyOutcome(t, session, pk);
      && (reply.response == NoContent <==> pk in t.favorites && t.favorites[pk].user == session.id)
      && (reply.response == NoContent ==> reply.after == t.(favorites := t.favorites - {pk}))
      && (reply.response != NoContent ==> reply == Reply(NotFound, t))
  {
    FavoriteLeaf(t, pk);
  }

  /** An anonymous destroy is refused and changes nothing. */
  lemma DestroyNeedsAuthentication(t: Tables, pk: FavoriteId)
    ensures DestroyOutcome(t, Anonymous, pk) == Reply(Denied, t)
  {
  }

  /** A create changes no Favorite row already stored, whoever owns it. */
  lemma CreateKeepsStoredFavorites(t: Tables, session: User, body: Json)
    requires IdsIssued(t)
    ensures var after := CreateOutcome(t, session, body).after;
      forall f :: f in t.favorites ==> f in after.favorites && after.favorites[f] == t.favorites[f]
  {
    var u := RequestUser(t, session);
    if HasPermission(FavoriteViewSet, Post, u) && ValidateFavorite(t, u.id, body).Some? {
      FavoriteInsertKeepsRows(t, ValidateFavorite(t, u.id, body).value);
    }
  }

  /** A destroy changes no Favorite of another user. */
  lemma DestroyKeepsOthersFavorites(t: Tables, session: User, pk: FavoriteId, other: UserId)
    requires !(session.Authenticated? && session.id == other)
    ensures var after := DestroyOutcome(t, session, pk).after;
      forall f :: f in t.favorites && t.favorites[f].user == other ==> f in after.favorites && after.favorites[f] == t.favorites[f]
  {
    FavoriteLeaf(t, pk);
  }

  // ---------------------------------------------------------------------------------------
  // The create as written, against the corrected one

  /** Tables with one Place, two users, and a Favorite of that Place by user 1. */
  const SharedPlaceTables: Tables := Tables(
    map[1 := State("S", None)], map[1 := Municipality("M", None, 1)], map[1 := Category("C", None)],
    map[1 := Route("R", None, 0)],
    map[1 := Place("P", "", 0, 0, None, None, false, None, 1, 1, 1)],
    map[], map[1 := Favorite(1, 1)], map[], {1, 2}, 2, 1)

  /** User 1 asks to mark Place 1, naming user 2 in the body. */
  const OtherUserBody: Json := JObj(map[PlaceField := JId(1), UserField := JId(2)])

  lemma SharedPlaceTablesConsistent()
    ensures Consistent(SharedPlaceTables)
  {
    var t := SharedPlaceTables;
    assert FitsMaxLength("P", PlaceNameMaxLength);
    assert RowsValid(t);
    assert ReferencesResolve(t);
    assert PairsUnique(t);
    assert IdsIssued(t);
  }

  /**
   * As written, a body that names another user passes validation whenever that user has
   * not marked the Place; when the requester has, the save of (Place, requester) breaks
   * the unique constraint: a server error. The corrected create refuses it as a duplicate.
   */
  lemma CreateAsWrittenFailsOnOwnDuplicate(t: Tables, session: User, body: Json)
    requires session.Authenticated? && session.id in t.users
    requires ReadPlaceKey(t, body).Some? && ReadUserKey(t, body).Some?
    requires FavoritePairTaken(t.favorites, ReadPlaceKey(t, body).value, session.id)
    requires !FavoritePairTaken(t.favorites, ReadPlaceKey(t, body).value, ReadUserKey(t, body).value)
    ensures CreateOutcomeAsWritten(t, session, body) == Reply(ServerError, t)
    ensures CreateOutcome(t, session, body) == Reply(BadRequest, t)
  {
  }

  /** Such a request exists on consistent tables: user 1 naming user 2 for Place 1, which user 1 has. */
  lemma SharedPlaceSample()
    ensures Consistent(SharedPlaceTables)
    ensures CreateOutcomeAsWritten(SharedPlaceTables, Authenticated(1, false, false), OtherUserBody).response == ServerError
    ensures CreateOutcome(SharedPlaceTables, Authenticated(1, false, false), OtherUserBody).response == BadRequest
  {
    var t, b := SharedPlaceTables, OtherUserBody;
    assert ReadPlaceKey(t, b) == Some(1) by {
      assert Member(b, PlaceField) == Some(JId(1));
    }
    assert ReadUserKey(t, b) == Some(2) by {
      assert Member(b, UserField) == Some(JId(2));
    }
    assert FavoritePairTaken(t.favorites, 1, 1) by {
      assert t.favorites[1] == Favorite(1, 1);
    }
    CreateAsWrittenFailsOnOwnDuplicate(t, Authenticated(1, false, false), b);
    SharedPlaceTablesConsistent();
  }

  /** As written, a body without `user` is refused, though the request names the user. */
  lemma CreateAsWrittenNeedsBodyUser(t: Tables, session: User, place: PlaceId)
    requires session.Authenticated? && session.id in t.users && place in t.places
    requires !FavoritePairTaken(t.favorites, place, session.id)
    ensures CreateOutcomeAsWritten(t, session, JObj(map[PlaceField := JId(place)])).response == BadRequest
    ensures CreateOutcome(t, session, JObj(map[PlaceField := JId(place)])).response.Created?
  {
  }

  /**
   * As written, a body naming a user who already has the Place is refused by the
   * unique-together check on the body's pair, though the requester has not marked it;
   * the corrected create stores it.
   */
  lemma BodyPairTakenDiverges(t: Tables, session: User, body: Json)
    requires session.Authenticated? && session.id in t.users
    requires ReadPlaceKey(t, body).Some? && ReadUserKey(t, body).Some?
    requires FavoritePairTaken(t.favorites, ReadPlaceKey(t, body).value, ReadUserKey(t, body).value)
    requires !FavoritePairTaken(t.favorites, ReadPlaceKey(t, body).value, session.id)
    ensures CreateOutcomeAsWritten(t, session, body) == Reply(BadRequest, t)
    ensures CreateOutcome(t, session, body).response.Created?
  {
  }

  /**
   * As written, repeating a successful create is refused with 400 only when the body names
   * the requester; when it names another user, that user's pair is still free, and the
   * save of (Place, requester) breaks the unique constraint: a server error.
   */
  lemma CreateAsWrittenRepeat(t: Tables, session: User, body: Json)
    requires CreateOutcomeAsWritten(t, session, body).response.Created?
    ensures var after := CreateOutcomeAsWritten(t, session, body).after;
      && (ReadUserKey(t, body) == Some(session.id) ==> CreateOutcomeAsWritten(after, session, body) == Reply(BadRequest, after))
      && (ReadUserKey(t, body) != Some(session.id) ==> CreateOutcomeAsWritten(after, session, body) == Reply(ServerError, after))
  {
    var after := CreateOutcomeAsWritten(t, session, body).after;
    var checked := ValidateFavoriteAsWritten(t, body).value;
    assert after.favorites[t.nextFavoriteId] == Favorite(checked.place, session.id);
    assert ReadPlaceKey(after, body) == ReadPlaceKey(t, body);
    assert ReadUserKey(after, body) == ReadUserKey(t, body);
  }

  /** Whenever the create as written answers 201, the corrected create answers the same and stores the same row. */
  lemma CreateAsWrittenCreatedAgrees(t: Tables, session: User, body: Json)
    requires CreateOutcomeAsWritten(t, session, body).response.Created?
    ensures CreateOutcome(t, session, body) == CreateOutcomeAsWritten(t, session, body)
  {
  }

  // ---------------------------------------------------------------------------------------
  // The endpoint over the database

  /** `create` on the database: ends where `CreateOutcome` says. */
  method Create(db: Database, session: User, body: Json) returns (response: Response)
    requires db.Valid()
    modifies db
    ensures db.Valid()
    ensures Reply(response, db.Snapshot()) == CreateOutcome(old(db.Snapshot()), session, body)
  {
    var t := db.Snapshot();
    var u := RequestUser(t, session);
    if !HasPermission(FavoriteViewSet, Post, u) {
      return Denied;
    }
    var checked := ValidateFavorite(t, u.id, body);
    if checked.None? {
      return BadRequest;
    }
    var id := db.nextFavoriteId;
    var status := db.AddFavorite(checked.value);
    if status.Stored? {
      response := Created(FavoriteJson(id, checked.value));
    } else {
      response := ServerError;
    }
  }

  /** `destroy` on the database: ends where `DestroyOutcome` says. */
  method Destroy(db: Database, session: User, pk: FavoriteId) returns (response: Response)
    requires db.Valid()
    modifies db
    ensures db.Valid()
    ensures Reply(response, db.Snapshot()) == DestroyOutcome(old(db.Snapshot()), session, pk)
  {
    var t := db.Snapshot();
    var u := RequestUser(t, session);
    if !HasPermission(FavoriteViewSet, Delete, u) {
      return Denied;
    }
    if pk in db.favorites && db.favorites[pk].user == u.id {
      var _ := db.DeleteFavorite(pk);
      response := NoContent;
    } else {
      response := NotFound;
    }
  }
}
