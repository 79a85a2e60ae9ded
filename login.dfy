/**
 * The admin login form: a fixed credential pair compared exactly, an error
 * message, and a redirect back to the page the guard turned the visitor away
 * from.
 */
module Login {
  import opened Wrappers
  import opened Storage
  import opened AccessGate

  const AdminUser := "admin"
  const AdminPass := "123456"
  const DefaultTarget := "/admin/dashboard"
  const InvalidCredentials := "Invalid username or password"

  /** `location.state?.from?.pathname ?? '/admin/dashboard'`. */
  function RedirectTarget(state: Option<RouteState>): (r: string)
    ensures state.Some? && state.value.from.Some? ==> r == state.value.from.value.pathname
    ensures state.None? || state.value.from.None? ==> r == DefaultTarget
  {
    match state
    case Some(RouteState(Some(from))) => from.pathname
    case _ => DefaultTarget
  }

  /** A guard redirect carries the requested path, and the login sends the visitor back to it. */
  lemma GuardRedirectReturnsToRequestedPage(location: Location)
    ensures Guard(false, location).Redirect?
    ensures RedirectTarget(Some(Guard(false, location).state)) == location.pathname
  {
  }

  datatype Navigation = Navigation(to: string, replace: bool)

  class LoginForm {
    var username: string
    var password: string
    var error: string
    /** The navigation state of the location the form was opened at. */
    const locationState: Option<RouteState>

    constructor (locationState: Option<RouteState>)
      ensures username == "" && password == "" && error == ""
      ensures this.locationState == locationState
    {
      username, password, error := "", "", "";
      this.locationState := locationState;
    }

    method ChangeUsername(v: string)
      modifies this
      ensures username == v && password == old(password) && error == old(error)
    {
      username := v;
    }

    method ChangePassword(v: string)
      modifies this
      ensures password == v && username == old(username) && error == old(error)
    {
      password := v;
    }

    /**
     * `handleSubmit`: the error is cleared first; exact credentials set the
     * admin flag and navigate to the redirect target; anything else (no
     * trimming, no case folding) sets the error and leaves the flag alone.
     */
    method HandleSubmit(storage: LocalStorage) returns (nav: Option<Navigation>)
      modifies this, storage
      ensures username == old(username) && password == old(password)
      ensures Submit(old(username), old(password), RedirectTarget(locationState)) == Granted(RedirectTarget(locationState))
              ==> error == "" && storage.items == WithAdmin(old(storage.items), true)
                  && nav == Some(Navigation(RedirectTarget(locationState), true))
      ensures Submit(old(username), old(password), RedirectTarget(locationState)) == Denied(InvalidCredentials)
              ==> error == InvalidCredentials && storage.items == old(storage.items) && nav == None
    {
      error := "";
      match Submit(username, password, RedirectTarget(locationState))
      case Granted(target) =>
        SetAdmin(storage, true);
        nav := Some(Navigation(target, true));
      case Denied(message) =>
        error := message;
        nav := None;
    }
  }

  /**
   * The outcome of a submit, as a value: access is granted iff both strings
   * equal the fixed pair exactly, and then the visitor is sent to `from`.
   */
  datatype Submitted = Granted(target: string) | Denied(error: string)

  function Submit(username: string, password: string, from: string): (r: Submitted)
    ensures r.Granted? <==> username == AdminUser && password == AdminPass
    ensures r.Granted? ==> r.target == from
    ensures r.Denied? ==> r.error == InvalidCredentials
  {
    if username == AdminUser && password == AdminPass then Granted(from) else Denied(InvalidCredentials)
  }

  /** Credentials are not trimmed: surrounding white space is a failed login. */
  lemma NoTrimming(from: string)
    ensures Submit(" admin", AdminPass, from).Denied?
    ensures Submit(AdminUser, "123456 ", from).Denied?
  {
  }

  /**
   * A successful login, then the guarded page: the flag written by the login
   * makes the guard render its children, from any prior store.
   */
  lemma LoginOpensGuard(items: map<string, string>, location: Location)
    ensures Guard(IsAdminIn(WithAdmin(items, true)), location) == RenderChildren
  {
  }
}
