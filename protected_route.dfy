/**
 * The route guard (client/src/components/ProtectedRoute.tsx): while the
 * session loads it shows a spinner, without a user it redirects to the login
 * page carrying the requested location, and on an admin-only route it sends
 * customers to the catalogue.
 */
module ProtectedRoute {
  import opened Js
  import opened ClientTypes

  /** The router's location: the path and the query string. */
  datatype Location = Location(pathname: string, search: string)

  datatype Decision = Spinner | RedirectLogin(from: Location) | RedirectProducts | Render

  /** `requireAdmin = false`: the prop's default applies when it is not passed. */
  function RequireAdmin(prop: Option<bool>): bool {
    prop.GetOr(false)
  }

  /** The guard's early returns, in order. */
  function Decide(loading: bool, user: Option<User>, requireAdmin: Option<bool>, here: Location): (r: Decision)
    ensures loading ==> r == Spinner
    ensures !loading && user.None? ==> r == RedirectLogin(here)
    ensures r == RedirectProducts <==> !loading && user.Some? && RequireAdmin(requireAdmin) && !user.value.isAdmin
    ensures r == Render <==> !loading && user.Some? && (!RequireAdmin(requireAdmin) || user.value.isAdmin)
  {
    if loading then Spinner
    else if user.None? then RedirectLogin(here)
    else if RequireAdmin(requireAdmin) && !user.value.isAdmin then RedirectProducts
    else Render
  }

  /** Without the prop, every signed-in user gets the page; admins get every page. */
  lemma SignedInPasses(user: User, requireAdmin: Option<bool>, here: Location)
    ensures Decide(false, Some(user), None, here) == Render
    ensures Decide(false, Some(user), Some(false), here) == Render
    ensures user.isAdmin ==> Decide(false, Some(user), requireAdmin, here) == Render
  {
  }

  /** The spinner does not depend on who is signed in or where they are going. */
  lemma SpinnerIgnoresUser(a: Option<User>, b: Option<User>, ra: Option<bool>, rb: Option<bool>, x: Location, y: Location)
    ensures Decide(true, a, ra, x) == Decide(true, b, rb, y) == Spinner
  {
  }
}
