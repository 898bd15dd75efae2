/**
 * What a view sees of a request: its method and its user. The framing (headers, status
 * lines, content negotiation) is not modelled.
 */
module Requests {
  import opened Fields
  import opened EntityStore

  datatype Method = Get | Head | Options | Post | Put | Patch | Delete

  /** The read-only methods of the REST framework: GET, HEAD and OPTIONS. */
  predicate IsSafe(m: Method)
  {
    m == Get || m == Head || m == Options
  }

  /** The user of a request: the anonymous user, or a stored user with its two admin flags. */
  datatype User = Anonymous | Authenticated(id: UserId, isStaff: bool, isSuperuser: bool)

  /** The anonymous user answers false to `is_staff`, `is_superuser` and `is_authenticated`. */
  predicate IsStaff(u: User)
  {
    match u
    case Anonymous => false
    case Authenticated(_, staff, _) => staff
  }

  predicate IsSuperuser(u: User)
  {
    match u
    case Anonymous => false
    case Authenticated(_, _, superuser) => superuser
  }

  predicate IsAuthenticated(u: User)
  {
    u.Authenticated?
  }

  /**
   * The user a request carries: the session's user while that user's row exists, and the
   * anonymous user otherwise.
   */
  function RequestUser(t: Tables, session: User): (u: User)
    ensures u.Authenticated? <==> session.Authenticated? && session.id in t.users
    ensures u.Authenticated? ==> u == session
  {
    if session.Authenticated? && session.id in t.users then session else Anonymous
  }
}
