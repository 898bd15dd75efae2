/**
 * The read projections of the routes application: a Route with the Places that follow it
 * and the Municipalities it is linked to, and a link row with its Route and Municipality.
 *
 * As declared, the two list fields of the Route projection name attributes a Route row
 * does not have, so they are dropped from the output (`RouteJsonAsWritten`). `RouteJson`
 * is the projection the declaration evidently intends, read through the reverse foreign
 * keys; the rest of the model uses it.
 */
module RoutesSerializers {
  import opened Wrappers
  import opened Fields
  import opened PlacesModels
  import opened RoutesModels
  import opened EntityStore
  import opened Representation
  import opened Ordering
  import opened PlacesSerializers

  /** The field tuple of RouteSerializer. */
  const RouteFields: set<Key> := {IdField, NameField, DescriptionField, DurationField, PlacesField, MunicipalitiesField}

  /** The nested link serializer inside RouteSerializer shows the Municipality only. */
  const LinkEntryFields: set<Key> := {MunicipalityField}

  /** The field tuple of MunicipalityHasRouteSerializer. */
  const LinkFields: set<Key> := {RouteField, MunicipalityField}

  // ---------------------------------------------------------------------------------------
  // The Route projection as declared

  /**
   * What a read-only field of RouteSerializer finds on a Route row. The columns are
   * there; `places` and `municipalities` are not attributes of a Route (its reverse
   * accessors are `place_set` and `municipality_has_route_set`), and a read-only field
   * whose attribute is missing is skipped.
   */
  function RouteAttributeAsWritten(r: RouteId, row: Route, k: Key): Option<Json>
  {
    match k
    case IdField => Some(JId(r))
    case NameField => Some(JStr(row.name))
    case DescriptionField => Some(OptionalText(row.description))
    case DurationField => Some(JTime(row.duration))
    case _ => None
  }

  /** RouteSerializer as written, on one row: each declared field whose attribute resolves. */
  function RouteObjectAsWritten(r: RouteId, row: Route): (j: Json)
    ensures j.JObj? && j.fields.Keys <= RouteFields
  {
    JObj(map k | k in RouteFields && RouteAttributeAsWritten(r, row, k).Some? :: RouteAttributeAsWritten(r, row, k).value)
  }

  function RouteJsonAsWritten(t: Tables, r: RouteId): (j: Json)
    requires r in t.routes
    ensures j.JObj? && j.fields.Keys <= RouteFields
  {
    RouteObjectAsWritten(r, t.routes[r])
  }

  /** On one row, only the four columns resolve. */
  lemma RouteObjectAsWrittenIsSummary(r: RouteId, row: Route)
    ensures RouteObjectAsWritten(r, row) == RouteSummaryObject(r, row)
  {
    var j, s := RouteObjectAsWritten(r, row), RouteSummaryObject(r, row);
    assert RouteAttributeAsWritten(r, row, PlacesField).None?;
    assert RouteAttributeAsWritten(r, row, MunicipalitiesField).None?;
    assert j.fields.Keys == RouteSummaryFields by {
      assert RouteSummaryFields == RouteFields - {PlacesField, MunicipalitiesField};
    }
    assert j.fields == s.fields;
  }

  /** As written, the Route projection is the Route summary: both lists are missing. */
  lemma RouteJsonAsWrittenIsSummary(t: Tables, r: RouteId)
    requires r in t.routes
    ensures RouteJsonAsWritten(t, r) == RouteSummaryJson(t, r)
    ensures PlacesField !in RouteJsonAsWritten(t, r).fields
    ensures MunicipalitiesField !in RouteJsonAsWritten(t, r).fields
  {
    RouteObjectAsWrittenIsSummary(r, t.routes[r]);
  }

  /** ... even for a Route that Places follow. */
  lemma RouteJsonAsWrittenOmitsItsPlaces(t: Tables, r: RouteId, p: PlaceId)
    requires RoutesProjectable(t) && p in t.places && t.places[p].route == r
    ensures r in t.routes && PlacesField !in RouteJsonAsWritten(t, r).fields
    ensures PlaceJson(t, p) in RouteJson(t, r).fields[PlacesField].items
  {
    RouteJsonAsWrittenIsSummary(t, r);
    RoutePlacesAreItsPlaces(t, r, p);
  }

  // ---------------------------------------------------------------------------------------
  // The Route projection as intended

  /** What projecting Routes and links needs of the tables; consistent tables have it. */
  predicate RoutesProjectable(t: Tables)
  {
    && (forall p :: p in t.places ==> PlaceResolves(t, p))
    && (forall l :: l in t.links ==>
          t.links[l].route in t.routes && MunicipalityResolves(t, t.links[l].municipality))
    && LinkPairsUnique(t.links)
  }

  lemma ConsistentRoutesProjectable(t: Tables)
    requires Consistent(t)
    ensures RoutesProjectable(t)
  {
    ConsistentPlacesResolve(t);
  }

  /** The given Places in ascending id order, each in the Place projection. */
  function PlaceListJson(t: Tables, ps: set<PlaceId>): (items: seq<Json>)
    requires forall p :: p in ps ==> PlaceResolves(t, p)
    ensures |items| == |ps|
    ensures forall i :: 0 <= i < |items| ==> SortedIds(ps)[i] in ps && items[i] == PlaceJson(t, SortedIds(ps)[i])
  {
    var ids := SortedIds(ps);
    seq(|ids|, i requires 0 <= i < |ids| => PlaceJson(t, ids[i]))
  }

  /** One entry of `municipalities`: the linked Municipality, with its State. */
  function LinkEntryJson(t: Tables, m: MunicipalityId): (j: Json)
    requires MunicipalityResolves(t, m)
    ensures j.JObj? && j.fields.Keys == LinkEntryFields
    ensures j.fields[MunicipalityField] == MunicipalityJson(t, m)
  {
    JObj(map[MunicipalityField := MunicipalityJson(t, m)])
  }

  /** The given link rows in ascending id order, each as its Municipality entry. */
  function LinkListJson(t: Tables, ls: set<LinkId>): (items: seq<Json>)
    requires forall l :: l in ls ==> l in t.links && MunicipalityResolves(t, t.links[l].municipality)
    ensures |items| == |ls|
    ensures forall i :: 0 <= i < |items| ==>
      SortedIds(ls)[i] in ls && items[i] == LinkEntryJson(t, t.links[SortedIds(ls)[i]].municipality)
  {
    var ids := SortedIds(ls);
    seq(|ids|, i requires 0 <= i < |ids| => LinkEntryJson(t, t.links[ids[i]].municipality))
  }

  function RouteObject(r: RouteId, row: Route, places: seq<Json>, municipalities: seq<Json>): (j: Json)
    ensures j.JObj? && j.fields.Keys == RouteFields
    ensures j.fields[IdField] == JId(r) && j.fields[NameField] == JStr(row.name)
    ensures j.fields[DescriptionField] == OptionalText(row.description)
    ensures j.fields[DurationField] == JTime(row.duration)
    ensures j.fields[PlacesField] == JArr(places)
    ensures j.fields[MunicipalitiesField] == JArr(municipalities)
  {
    JObj(map[IdField := JId(r), NameField := JStr(row.name), DescriptionField := OptionalText(row.description),
             DurationField := JTime(row.duration), PlacesField := JArr(places),
             MunicipalitiesField := JArr(municipalities)])
  }

  /** The Places that follow the Route and its link rows, each list in ascending id order. */
  function RouteJson(t: Tables, r: RouteId): (j: Json)
    requires RoutesProjectable(t) && r in t.routes
    ensures j.JObj? && j.fields.Keys == RouteFields
    ensures j.fields[PlacesField] == JArr(PlaceListJson(t, PlacesOfRoute(t, r)))
    ensures j.fields[MunicipalitiesField] == JArr(LinkListJson(t, LinksOfRoute(t, r)))
  {
    RouteObject(r, t.routes[r], PlaceListJson(t, PlacesOfRoute(t, r)), LinkListJson(t, LinksOfRoute(t, r)))
  }

  /** Besides the two lists, the Route projection is the Route summary. */
  lemma RouteJsonExtendsSummary(t: Tables, r: RouteId)
    requires RoutesProjectable(t) && r in t.routes
    ensures forall k :: k in RouteSummaryFields ==> RouteJson(t, r).fields[k] == RouteSummaryJson(t, r).fields[k]
    ensures RouteFields - RouteSummaryFields == {PlacesField, MunicipalitiesField}
  {
  }

  /** A Place is listed under a Route exactly when it follows that Route. */
  lemma RoutePlacesAreItsPlaces(t: Tables, r: RouteId, p: PlaceId)
    requires RoutesProjectable(t) && r in t.routes && PlaceResolves(t, p)
    ensures PlaceJson(t, p) in RouteJson(t, r).fields[PlacesField].items <==> t.places[p].route == r
  {
    var ps := PlacesOfRoute(t, r);
    var ids, items := SortedIds(ps), PlaceListJson(t, ps);
    if PlaceJson(t, p) in items {
      var i :| 0 <= i < |items| && items[i] == PlaceJson(t, p);
      PlaceJsonInjective(t, ids[i], p);
    }
    if t.places[p].route == r {
      assert p in ps;
      var i :| 0 <= i < |ids| && ids[i] == p;
      assert items[i] == PlaceJson(t, p);
    }
  }

  /** `places` lists each Place of the Route once ... */
  lemma RoutePlacesDistinct(t: Tables, r: RouteId)
    requires RoutesProjectable(t) && r in t.routes
    ensures var items := RouteJson(t, r).fields[PlacesField].items;
      && |items| == |PlacesOfRoute(t, r)|
      && forall i, k :: 0 <= i < k < |items| ==> items[i] != items[k]
  {
    var ps := PlacesOfRoute(t, r);
    var ids, items := SortedIds(ps), PlaceListJson(t, ps);
    forall i, k | 0 <= i < k < |items|
      ensures items[i] != items[k]
    {
      PlaceJsonInjective(t, ids[i], ids[k]);
    }
  }

  /** Listing Places that all follow `r`: every entry is one of them, carrying the summary of `r`. */
  lemma PlaceListFollows(t: Tables, ps: set<PlaceId>, r: RouteId)
    requires forall p :: p in ps ==> PlaceResolves(t, p) && t.places[p].route == r
    ensures var items := PlaceListJson(t, ps);
      forall i :: 0 <= i < |items| ==>
        && (exists p :: PlaceResolves(t, p) && t.places[p].route == r && items[i] == PlaceJson(t, p))
        && items[i].JObj? && RouteField in items[i].fields
        && items[i].fields[RouteField] == RouteSummaryJson(t, r)
  {
    var ids, items := SortedIds(ps), PlaceListJson(t, ps);
    forall i | 0 <= i < |items|
      ensures exists p :: PlaceResolves(t, p) && t.places[p].route == r && items[i] == PlaceJson(t, p)
      ensures items[i].JObj? && RouteField in items[i].fields && items[i].fields[RouteField] == RouteSummaryJson(t, r)
    {
      var p := ids[i];
      assert p in ps && items[i] == PlaceJson(t, p);
    }
  }

  /** ... every entry is the projection of one of them ... */
  lemma RoutePlacesEachFollowsIt(t: Tables, r: RouteId)
    requires RoutesProjectable(t) && r in t.routes
    ensures var items := RouteJson(t, r).fields[PlacesField].items;
      forall i :: 0 <= i < |items| ==>
        exists p :: PlaceResolves(t, p) && t.places[p].route == r && items[i] == PlaceJson(t, p)
  {
    PlaceListFollows(t, PlacesOfRoute(t, r), r);
  }

  /** ... and carries the Route summary, never the Route's own lists. */
  lemma RoutePlacesCarrySummary(t: Tables, r: RouteId)
    requires RoutesProjectable(t) && r in t.routes
    ensures var items := RouteJson(t, r).fields[PlacesField].items;
      forall i :: 0 <= i < |items| ==>
        && items[i].JObj? && RouteField in items[i].fields
        && items[i].fields[RouteField] == RouteSummaryJson(t, r)
        && PlacesField !in items[i].fields[RouteField].fields
  {
    PlaceListFollows(t, PlacesOfRoute(t, r), r);
  }

  /**
   * `municipalities` has one entry per link row of the Route, the entries are distinct
   * (the link table holds each pair once), and a Municipality appears exactly when it is
   * linked to the Route.
   */
  lemma RouteMunicipalitiesListed(t: Tables, r: RouteId)
    requires RoutesProjectable(t) && r in t.routes
    ensures var items := RouteJson(t, r).fields[MunicipalitiesField].items;
      && |items| == |LinksOfRoute(t, r)|
      && (forall i, k :: 0 <= i < k < |items| ==> items[i] != items[k])
      && (forall m :: MunicipalityResolves(t, m) ==> (LinkEntryJson(t, m) in items <==> LinkPairTaken(t.links, m, r)))
  {
    var ls := LinksOfRoute(t, r);
    var ids, items := SortedIds(ls), LinkListJson(t, ls);
    forall i, k | 0 <= i < k < |items|
      ensures items[i] != items[k]
    {
      var a, b := ids[i], ids[k];
      assert t.links[a] != t.links[b];
      MunicipalityJsonInjective(t, t.links[a].municipality, t.links[b].municipality);
      assert items[i].fields[MunicipalityField] != items[k].fields[MunicipalityField];
    }
    forall m | MunicipalityResolves(t, m)
      ensures LinkEntryJson(t, m) in items <==> LinkPairTaken(t.links, m, r)
    {
      LinkEntryListed(t, r, m);
    }
  }

  lemma LinkEntryListed(t: Tables, r: RouteId, m: MunicipalityId)
    requires RoutesProjectable(t) && r in t.routes && MunicipalityResolves(t, m)
    ensures LinkEntryJson(t, m) in LinkListJson(t, LinksOfRoute(t, r)) <==> LinkPairTaken(t.links, m, r)
  {
    var ls := LinksOfRoute(t, r);
    var ids, items := SortedIds(ls), LinkListJson(t, ls);
    if LinkEntryJson(t, m) in items {
      var i :| 0 <= i < |items| && items[i] == LinkEntryJson(t, m);
      var l := ids[i];
      MunicipalityJsonInjective(t, t.links[l].municipality, m);
      assert t.links[l] == MunicipalityHasRoute(m, r);
    }
    if LinkPairTaken(t.links, m, r) {
      var l :| l in t.links && t.links[l] == MunicipalityHasRoute(m, r);
      assert l in ls;
      var i :| 0 <= i < |ids| && ids[i] == l;
      assert items[i] == LinkEntryJson(t, m);
    }
  }

  /** A Route nests five levels: Route, list, Place, Municipality, State. */
  lemma RouteJsonDepth(t: Tables, r: RouteId)
    requires RoutesProjectable(t) && r in t.routes
    ensures DepthAtMost(RouteJson(t, r), 5)
  {
    var ps, ls := PlacesOfRoute(t, r), LinksOfRoute(t, r);
    PlaceListDepth(t, ps);
    LinkListDepth(t, ls);
    RouteObjectDepth(r, t.routes[r], PlaceListJson(t, ps), LinkListJson(t, ls), 4);
  }

  lemma PlaceListDepth(t: Tables, ps: set<PlaceId>)
    requires forall p :: p in ps ==> PlaceResolves(t, p)
    ensures DepthAtMost(JArr(PlaceListJson(t, ps)), 4)
  {
    var items := PlaceListJson(t, ps);
    forall i | 0 <= i < |items|
      ensures DepthAtMost(items[i], 3)
    {
      PlaceJsonDepth(t, SortedIds(ps)[i]);
    }
    ArrayDepth(items, 3);
  }

  lemma LinkListDepth(t: Tables, ls: set<LinkId>)
    requires forall l :: l in ls ==> l in t.links && MunicipalityResolves(t, t.links[l].municipality)
    ensures DepthAtMost(JArr(LinkListJson(t, ls)), 4)
  {
    var items := LinkListJson(t, ls);
    forall i | 0 <= i < |items|
      ensures DepthAtMost(items[i], 3)
    {
      LinkEntryDepth(t, t.links[SortedIds(ls)[i]].municipality);
    }
    ArrayDepth(items, 3);
  }

  lemma LinkEntryDepth(t: Tables, m: MunicipalityId)
    requires MunicipalityResolves(t, m)
    ensures DepthAtMost(LinkEntryJson(t, m), 3)
  {
    MunicipalityJsonDepth(t, m);
    ObjectDepth(LinkEntryJson(t, m).fields, 2);
  }

  lemma RouteObjectDepth(r: RouteId, row: Route, places: seq<Json>, municipalities: seq<Json>, n: nat)
    requires DepthAtMost(JArr(places), n) && DepthAtMost(JArr(municipalities), n)
    ensures DepthAtMost(RouteObject(r, row, places, municipalities), n + 1)
  {
    ObjectDepth(RouteObject(r, row, places, municipalities).fields, n);
  }

  // ---------------------------------------------------------------------------------------
  // The link projection

  function LinkObject(route: Json, municipality: Json): (j: Json)
    ensures j.JObj? && j.fields.Keys == LinkFields
    ensures j.fields[RouteField] == route && j.fields[MunicipalityField] == municipality
  {
    JObj(map[RouteField := route, MunicipalityField := municipality])
  }

  /** MunicipalityHasRouteSerializer: the full Route projection and the Municipality. */
  function MunicipalityHasRouteJson(t: Tables, l: LinkId): (j: Json)
    requires RoutesProjectable(t) && l in t.links
    ensures j.JObj? && j.fields.Keys == LinkFields
    ensures j.fields[RouteField] == RouteJson(t, t.links[l].route)
    ensures j.fields[MunicipalityField] == MunicipalityJson(t, t.links[l].municipality)
  {
    var row := t.links[l];
    LinkObject(RouteJson(t, row.route), MunicipalityJson(t, row.municipality))
  }

  /** The link projection as written embeds the Route as written, that is, its summary. */
  function MunicipalityHasRouteJsonAsWritten(t: Tables, l: LinkId): (j: Json)
    requires RoutesProjectable(t) && l in t.links
    ensures j.JObj? && j.fields.Keys == LinkFields
    ensures j.fields[RouteField] == RouteJsonAsWritten(t, t.links[l].route)
    ensures j.fields[MunicipalityField] == MunicipalityJson(t, t.links[l].municipality)
  {
    var row := t.links[l];
    LinkObject(RouteJsonAsWritten(t, row.route), MunicipalityJson(t, row.municipality))
  }

  /** A link nests six levels: the link, then everything a Route nests. */
  lemma MunicipalityHasRouteJsonDepth(t: Tables, l: LinkId)
    requires RoutesProjectable(t) && l in t.links
    ensures DepthAtMost(MunicipalityHasRouteJson(t, l), 6)
  {
    var row := t.links[l];
    var route, municipality := RouteJson(t, row.route), MunicipalityJson(t, row.municipality);
    RouteJsonDepth(t, row.route);
    MunicipalityJsonDepth(t, row.municipality);
    DepthAtMostGrows(municipality, 2, 5);
    LinkObjectDepth(route, municipality, 5);
  }

  lemma LinkObjectDepth(route: Json, municipality: Json, n: nat)
    requires DepthAtMost(route, n) && DepthAtMost(municipality, n)
    ensures DepthAtMost(LinkObject(route, municipality), n + 1)
  {
    ObjectDepth(LinkObject(route, municipality).fields, n);
  }
}
