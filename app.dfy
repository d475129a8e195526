/**
 * The application shell: the session flag and user, the sign-in and sign-up
 * modals with the e-mail carried over from the landing page, local storage,
 * and the guarded routes.
 */
module App {
  import opened Wrappers
  import opened Session

  /** What a route shows: a page, a redirect to the landing page, or nothing for an unknown path. */
  datatype View = Page(name: string) | RedirectHome | NoMatch

  class AppShell {
    var isAuthenticated: bool
    var showLogin: bool
    var showSignup: bool
    var user: Option<User>
    var prefilledEmail: string
    var storage: Storage

    /** A page load: the session is whatever local storage restores. */
    constructor (st: Storage)
      ensures storage == st
      ensures Restored(isAuthenticated, user) == Restore(st)
      ensures !showLogin && !showSignup && prefilledEmail == ""
    {
      storage := st;
      showLogin := false;
      showSignup := false;
      prefilledEmail := "";
      var r := Restore(st);
      isAuthenticated := r.authenticated;
      user := r.user;
    }

    /** `handleLogin`: the session is stored and adopted, and the sign-in modal closes. */
    method HandleLogin(token: string, userData: User)
      modifies this
      ensures storage == SaveSession(old(storage), token, userData)
      ensures isAuthenticated && user == Some(userData)
      ensures !showLogin && showSignup == old(showSignup) && prefilledEmail == ""
    {
      storage := SaveSession(storage, token, userData);
      isAuthenticated := true;
      user := Some(userData);
      showLogin := false;
      prefilledEmail := "";
    }

    /** `handleSignup`: the same, closing the sign-up modal instead. */
    method HandleSignup(token: string, userData: User)
      modifies this
      ensures storage == SaveSession(old(storage), token, userData)
      ensures isAuthenticated && user == Some(userData)
      ensures !showSignup && showLogin == old(showLogin) && prefilledEmail == ""
    {
      storage := SaveSession(storage, token, userData);
      isAuthenticated := true;
      user := Some(userData);
      showSignup := false;
      prefilledEmail := "";
    }

    /** `handleLogout`: the session entries are removed and the session dropped. */
    method HandleLogout()
      modifies this
      ensures storage == ClearSession(old(storage))
      ensures !isAuthenticated && user == None
      ensures showLogin == old(showLogin) && showSignup == old(showSignup)
      ensures prefilledEmail == old(prefilledEmail)
    {
      storage := ClearSession(storage);
      isAuthenticated := false;
      user := None;
    }

    /** `handleGetStarted`: the landing page's e-mail is carried into the sign-in modal. */
    method HandleGetStarted(email: string)
      modifies this`prefilledEmail, this`showLogin
      ensures prefilledEmail == email && showLogin
    {
      prefilledEmail := email;
      showLogin := true;
    }

    /** Closing the sign-in modal forgets the carried e-mail. */
    method HandleCloseLogin()
      modifies this`showLogin, this`prefilledEmail
      ensures !showLogin && prefilledEmail == ""
    {
      showLogin := false;
      prefilledEmail := "";
    }

    /** Closing the sign-up modal forgets the carried e-mail. */
    method HandleCloseSignup()
      modifies this`showSignup, this`prefilledEmail
      ensures !showSignup && prefilledEmail == ""
    {
      showSignup := false;
      prefilledEmail := "";
    }

    /** From sign-in to sign-up; the carried e-mail stays. */
    method HandleSwitchToSignup()
      modifies this`showLogin, this`showSignup
      ensures !showLogin && showSignup
    {
      showLogin := false;
      showSignup := true;
    }

    /** From sign-up to sign-in; the carried e-mail stays. */
    method HandleSwitchToLogin()
      modifies this`showLogin, this`showSignup
      ensures showLogin && !showSignup
    {
      showSignup := false;
      showLogin := true;
    }

    /** The navigation bar's "Login" button. */
    method OpenLogin()
      modifies this`showLogin
      ensures showLogin
    {
      showLogin := true;
    }

    /** The navigation bar's "Sign Up" button. */
    method OpenSignup()
      modifies this`showSignup
      ensures showSignup
    {
      showSignup := true;
    }

    /** The element each route renders for the current session. */
    function RouteView(path: string): (v: View)
      reads this
      ensures path == "/create-listing" ==>
        v == (if OwnerRouteAllowed(isAuthenticated, user) then Page("BusinessForm") else RedirectHome)
      ensures path == "/dashboard" ==>
        v == (if OwnerRouteAllowed(isAuthenticated, user) then Page("Dashboard") else RedirectHome)
      ensures path == "/admin" ==>
        v == (if AdminRouteAllowed(isAuthenticated, user) then Page("AdminDashboard") else RedirectHome)
      ensures v == RedirectHome ==> path in {"/create-listing", "/dashboard", "/admin"}
    {
      if path == "/create-listing" then
        if OwnerRouteAllowed(isAuthenticated, user) then Page("BusinessForm") else RedirectHome
      else if path == "/dashboard" then
        if OwnerRouteAllowed(isAuthenticated, user) then Page("Dashboard") else RedirectHome
      else if path == "/admin" then
        if AdminRouteAllowed(isAuthenticated, user) then Page("AdminDashboard") else RedirectHome
      else if path == "/" then Page("Home")
      else if path == "/browse" then Page("Browse")
      else if path == "/about" then Page("About")
      else if path == "/contact" then Page("Contact")
      else NoMatch
    }
  }

  /**
   * No session sees both the admin dashboard and the owner dashboard, and a
   * signed-out visitor is sent home from every protected route.
   */
  lemma DashboardsExclusive(app: AppShell)
    ensures !(app.RouteView("/admin") != RedirectHome && app.RouteView("/dashboard") != RedirectHome)
    ensures !app.isAuthenticated ==>
      forall path :: path in {"/create-listing", "/dashboard", "/admin"} ==> app.RouteView(path) == RedirectHome
  {
    RoutesPartitionSessions(app.isAuthenticated, app.user);
  }
}
