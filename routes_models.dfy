/** The rows of the routes application: Route and the Municipality-Route link. */
module RoutesModels {
  import opened Wrappers
  import opened Fields

  const RouteNameMaxLength: nat := 50

  /** A route; the description may be null, the duration may not. */
  datatype Route = Route(name: string, description: Option<string>, duration: Duration)

  /** One row of `Municipality_has_Route`. */
  datatype MunicipalityHasRoute = MunicipalityHasRoute(municipality: MunicipalityId, route: RouteId)

  predicate ValidRoute(r: Route)
  {
    FitsMaxLength(r.name, RouteNameMaxLength)
  }
}
