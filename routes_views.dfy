/**
 * The views of the routes application. They carry their own copy of the admin-or-read-only
 * permission class; the copy is stated here on its own and compared with the places one.
 */
module RoutesViews {
  import opened Requests
  import PlacesViews

  /** IsAdminUserOrReadOnly of the routes application. */
  predicate AdminOrReadOnly(m: Method, u: User): (allowed: bool)
    ensures allowed <==> m in {Get, Head, Options} || (u.Authenticated? && (u.isStaff || u.isSuperuser))
  {
    IsSafe(m) || IsStaff(u) || IsSuperuser(u)
  }

  /** Reads are open to every caller; a write needs a staff user or a superuser. */
  lemma AdminOrReadOnlyVerdict(m: Method, u: User)
    ensures IsSafe(m) ==> AdminOrReadOnly(m, u)
    ensures !IsSafe(m) ==> (AdminOrReadOnly(m, u) <==> u.Authenticated? && (u.isStaff || u.isSuperuser))
  {
  }

  /** The two copies answer alike on every request. */
  lemma SameVerdictAsPlaces(m: Method, u: User)
    ensures AdminOrReadOnly(m, u) == PlacesViews.AdminOrReadOnly(m, u)
  {
  }

  datatype ViewSet = RouteViewSet | MunicipalityHasRouteViewSet

  /** The permission class each view set names. */
  predicate HasPermission(v: ViewSet, m: Method, u: User): (allowed: bool)
    ensures allowed <==> m in {Get, Head, Options} || (u.Authenticated? && (u.isStaff || u.isSuperuser))
  {
    match v
    case RouteViewSet => AdminOrReadOnly(m, u)
    case MunicipalityHasRouteViewSet => AdminOrReadOnly(m, u)
  }

  /** Both view sets: reads for everyone, writes for staff users and superusers only. */
  lemma RouteViewSetsAdminOrReadOnly(v: ViewSet, m: Method, u: User)
    ensures HasPermission(v, m, u) <==> IsSafe(m) || (u.Authenticated? && (u.isStaff || u.isSuperuser))
  {
  }

  /** An anonymous caller may only read the routes endpoints. */
  lemma AnonymousOnlyReadsRoutes(v: ViewSet, m: Method)
    ensures HasPermission(v, m, Anonymous) <==> m in {Get, Head, Options}
  {
  }
}
