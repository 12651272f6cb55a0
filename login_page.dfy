/**
 * The login form (client/src/pages/LoginPage.tsx): where a successful login
 * leads, and which error a failed one shows. The login call itself and the
 * browser's storage are inputs.
 */
module LoginPage {
  import opened Js
  import opened ClientTypes
  import ProtectedRoute

  /** `location.state` as the guard leaves it: `{ from: location }`, with each level possibly missing. */
  datatype FromPath = FromPath(pathname: Option<string>)
  datatype LocationState = LocationState(from: Option<FromPath>)

  /** `locState?.from?.pathname || null`. */
  function From(st: Option<LocationState>): (r: Option<string>)
    ensures r.Some? <==> st.Some? && st.value.from.Some? && Truthy(st.value.from.value.pathname)
    ensures r.Some? ==> r.value == st.value.from.value.pathname.value && r.value != ""
  {
    if st.Some? && st.value.from.Some? && Truthy(st.value.from.value.pathname)
    then st.value.from.value.pathname
    else None
  }

  /** The state the guard's redirect hands over: the location's path, and not its query string. */
  function StateFrom(here: ProtectedRoute.Location): LocationState {
    LocationState(Some(FromPath(Some(here.pathname))))
  }

  /** `localStorage.getItem('user')` as `JSON.parse` reads it; an absent or empty entry reads as null. */
  datatype StoredUser = Absent | Unparseable | ParsedNull | Parsed(isAdmin: bool)

  /** `user && user.isAdmin`; a parse error leaves `user` null. */
  predicate StoredAdmin(u: StoredUser) {
    u.Parsed? && u.isAdmin
  }

  /** The redirect after a successful login. */
  function Redirect(admin: bool, from: Option<string>): (r: string)
    ensures admin ==> r == "/admin"
    ensures !admin && Truthy(from) && from.value != "/login" ==> r == from.value
    ensures !admin && !(Truthy(from) && from.value != "/login") ==> r == "/products"
  {
    if admin then "/admin"
    else if Truthy(from) && from.value != "/login" then from.value
    else "/products"
  }

  /** A login never leads back to the login page, nor to an empty path. */
  lemma NeverBackToLogin(u: StoredUser, st: Option<LocationState>)
    ensures Redirect(StoredAdmin(u), From(st)) != "/login"
    ensures Redirect(StoredAdmin(u), From(st)) != ""
  {
  }

  /** An unreadable stored user is treated as no user: the user goes back or to the catalogue, never to /admin. */
  lemma UnparseableIsNoUser(st: Option<LocationState>)
    ensures Redirect(StoredAdmin(Unparseable), From(st)) == Redirect(StoredAdmin(Absent), From(st))
    ensures Redirect(StoredAdmin(Unparseable), From(st)) != "/admin" || From(st) == Some("/admin")
  {
  }

  /**
   * A customer the guard sent to the login page comes back to the path they
   * asked for (its query string is dropped); an admin lands on /admin instead.
   */
  lemma GuardRoundTrip(here: ProtectedRoute.Location, ra: Option<bool>, u: StoredUser)
    requires here.pathname != "" && here.pathname != "/login"
    ensures ProtectedRoute.Decide(false, None, ra, here) == ProtectedRoute.RedirectLogin(here)
    ensures var to := Redirect(StoredAdmin(u), From(Some(StateFrom(ProtectedRoute.Decide(false, None, ra, here).from))));
      to == if StoredAdmin(u) then "/admin" else here.pathname
  {
  }

  /**
   * The checkout page's own redirect (`{ state: { from: location.pathname } }`)
   * passes a string, whose `pathname` is undefined, so the customer is sent to
   * the catalogue and not back to checkout.
   */
  lemma PlainStringFromIgnored(u: StoredUser)
    requires !StoredAdmin(u)
    ensures From(Some(LocationState(Some(FromPath(None))))).None?
    ensures Redirect(StoredAdmin(u), From(Some(LocationState(Some(FromPath(None)))))) == "/products"
  {
  }

  /** A customer who asked for an admin page returns to it after login and is then sent on to the catalogue. */
  lemma CustomerBouncedFromAdminRoute(here: ProtectedRoute.Location, customer: User)
    requires here.pathname != "" && here.pathname != "/login" && !customer.isAdmin
    ensures var to := Redirect(false, From(Some(StateFrom(here))));
      ProtectedRoute.Decide(false, Some(customer), Some(true), ProtectedRoute.Location(to, "")) == ProtectedRoute.RedirectProducts
  {
  }

  /** What `login` threw: an `Error` carries its message; anything else does not. */
  datatype Thrown = ErrorValue(message: string) | OtherValue

  function ErrorMessage(t: Thrown): (m: string)
    ensures t.ErrorValue? ==> m == t.message
    ensures t.OtherValue? ==> m == "Failed to login"
  {
    match t
    case ErrorValue(msg) => msg
    case OtherValue => "Failed to login"
  }

  class LoginForm {
    var error: string

    constructor ()
      ensures error == ""
    {
      error := "";
    }

    /**
     * handleSubmit: clear the error, log in (`outcome`: `None` when the call
     * resolves), read the stored user, navigate. A failed login navigates
     * nowhere and shows the error.
     */
    method HandleSubmit(outcome: Option<Thrown>, stored: StoredUser, st: Option<LocationState>)
      returns (navigateTo: Option<string>)
      modifies this
      ensures outcome.None? ==> error == "" && navigateTo == Some(Redirect(StoredAdmin(stored), From(st)))
      ensures outcome.Some? ==> error == ErrorMessage(outcome.value) && navigateTo.None?
    {
      error := "";
      if outcome.Some? {
        error := ErrorMessage(outcome.value);
        return None;
      }
      var admin := stored.Parsed? && stored.isAdmin;
      navigateTo := Some(Redirect(admin, From(st)));
    }
  }
}
