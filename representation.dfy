/**
 * The rendered body of a response. Primary keys (UUIDs and auto-increment integers alike)
 * render as `JId`; a fixed-point decimal renders as its scaled integer and its number of
 * decimal places (on the wire it is the text of that number); dates and the route
 * duration render as their values; nested serializers render as nested objects.
 */
module Representation {
  import opened Wrappers

  /** The field names the serializers emit, as an enumeration. */
  datatype Key =
    | IdField | NameField | DescriptionField | LatitudeField | LongitudeField | ImageField | VideoField
    | IsVisitedField | VisitedDateField | MunicipalityField | CategoryField | RouteField | StateField
    | DurationField | PlacesField | MunicipalitiesField | PlaceField | UserField | NotesField

  /** Each key's name in the rendered body. */
  function KeyName(k: Key): (name: string)
    ensures |name| > 0
  {
    match k
    case IdField => "id"
    case NameField => "name"
    case DescriptionField => "description"
    case LatitudeField => "latitude"
    case LongitudeField => "longitude"
    case ImageField => "image"
    case VideoField => "video"
    case IsVisitedField => "is_visited"
    case VisitedDateField => "visited_date"
    case MunicipalityField => "municipality"
    case CategoryField => "category"
    case RouteField => "route"
    case StateField => "state"
    case DurationField => "duration"
    case PlacesField => "places"
    case MunicipalitiesField => "municipalities"
    case PlaceField => "place"
    case UserField => "user"
    case NotesField => "notes"
  }

  datatype Json =
    | JNull
    | JStr(text: string)
    | JId(id: nat)
    | JDecimal(units: int, places: nat)
    | JDate(day: nat)
    | JTime(time: nat)
    | JArr(items: seq<Json>)
    | JObj(fields: map<Key, Json>)

  /** Objects and arrays nest at most `n` levels deep; a scalar has depth 0. */
  predicate DepthAtMost(j: Json, n: nat)
    decreases n
  {
    match j
    case JArr(items) => n > 0 && forall i :: 0 <= i < |items| ==> DepthAtMost(items[i], n - 1)
    case JObj(fields) => n > 0 && forall k :: k in fields ==> DepthAtMost(fields[k], n - 1)
    case _ => true
  }

  /** A bound on the depth allows every larger bound. */
  lemma {:induction false} DepthAtMostGrows(j: Json, n: nat, m: nat)
    requires DepthAtMost(j, n) && n <= m
    ensures DepthAtMost(j, m)
    decreases n
  {
    match j
    case JArr(items) =>
      forall i | 0 <= i < |items|
        ensures DepthAtMost(items[i], m - 1)
      {
        DepthAtMostGrows(items[i], n - 1, m - 1);
      }
    case JObj(fields) =>
      forall k | k in fields
        ensures DepthAtMost(fields[k], m - 1)
      {
        DepthAtMostGrows(fields[k], n - 1, m - 1);
      }
    case _ =>
  }

  /** An object is one level deeper than the deepest of its members. */
  lemma ObjectDepth(fields: map<Key, Json>, n: nat)
    requires forall k :: k in fields ==> DepthAtMost(fields[k], n)
    ensures DepthAtMost(JObj(fields), n + 1)
  {
  }

  /** An array is one level deeper than the deepest of its items. */
  lemma ArrayDepth(items: seq<Json>, n: nat)
    requires forall i :: 0 <= i < |items| ==> DepthAtMost(items[i], n)
    ensures DepthAtMost(JArr(items), n + 1)
  {
  }

  /** A nullable text column: `null` or the text. */
  function OptionalText(o: Option<string>): (j: Json)
    ensures j == JNull <==> o.None?
    ensures o.Some? ==> j == JStr(o.value)
  {
    match o
    case None => JNull
    case Some(s) => JStr(s)
  }

  // ---------------------------------------------------------------------------------------
  // Reading a body back

  function Member(j: Json, key: Key): Option<Json>
  {
    if j.JObj? && key in j.fields then Some(j.fields[key]) else None
  }

  function AsText(j: Json): Option<string>
  {
    if j.JStr? then Some(j.text) else None
  }

  function AsOptionalText(j: Json): Option<Option<string>>
  {
    match j
    case JNull => Some(None)
    case JStr(s) => Some(Some(s))
    case _ => None
  }

  function AsId(j: Json): Option<nat>
  {
    if j.JId? then Some(j.id) else None
  }

  function AsDecimal(j: Json, places: nat): Option<int>
  {
    if j.JDecimal? && j.places == places then Some(j.units) else None
  }

  function AsTime(j: Json): Option<nat>
  {
    if j.JTime? then Some(j.time) else None
  }

  function AsDate(j: Json): Option<nat>
  {
    if j.JDate? then Some(j.day) else None
  }

  /** Reading a nullable text column back gives the column. */
  lemma OptionalTextRoundTrip(o: Option<string>)
    ensures AsOptionalText(OptionalText(o)) == Some(o)
  {
  }
}
