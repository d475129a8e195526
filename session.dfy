/**
 * The signed-in session as the browser keeps it: a token and the user record
 * in local storage, what a page load restores from them, and the role checks
 * that decide which protected routes render.
 */
module Session {
  import opened Wrappers

  /** The signed-in user as the server describes it. */
  datatype User = User(id: string, name: string, email: string, role: string)

  /**
   * A local-storage value: a plain string, or the JSON text of a user record.
   * `JSON.parse(JSON.stringify(u))` gives `u` back, so a stored user is kept
   * as the record itself; any other text does not parse to a user.
   */
  datatype Stored = Text(s: string) | Json(u: User)

  type Storage = map<string, Stored>

  const TokenKey := "token"
  const UserKey := "user"

  /** `localStorage.getItem(key)` is truthy: present and not the empty string. */
  predicate Truthy(st: Storage, key: string) {
    key in st && (st[key].Json? || st[key].s != "")
  }

  /** `JSON.parse(localStorage.getItem("user"))` when it yields a user record. */
  function StoredUser(st: Storage): Option<User> {
    if UserKey in st && st[UserKey].Json? then Some(st[UserKey].u) else None
  }

  /** What the app shell believes after a page load: signed in, and with which user. */
  datatype Restored = Restored(authenticated: bool, user: Option<User>)

  /**
   * The start-up effect: signed in when both the token and the user entry
   * are truthy. The flag is raised before the user text is parsed, so text
   * that is not a user record leaves a signed-in session with no user.
   */
  function Restore(st: Storage): (r: Restored)
    ensures r.authenticated <==> Truthy(st, TokenKey) && Truthy(st, UserKey)
    ensures r.user.Some? ==> r.authenticated && r.user == StoredUser(st)
  {
    if Truthy(st, TokenKey) && Truthy(st, UserKey) then Restored(true, StoredUser(st))
    else Restored(false, None)
  }

  /** `handleLogin` / `handleSignup`: the token and the user record are written. */
  function SaveSession(st: Storage, token: string, user: User): Storage {
    st[TokenKey := Text(token)][UserKey := Json(user)]
  }

  /** `handleLogout`: both entries are removed. */
  function ClearSession(st: Storage): Storage {
    st - {TokenKey, UserKey}
  }

  /**
   * A sign-in survives a reload: the same user is restored, provided the
   * server's token is non-empty (an empty token is falsy and restores nothing).
   */
  lemma SaveThenRestore(st: Storage, token: string, user: User)
    ensures Restore(SaveSession(st, token, user)) ==
      (if token != "" then Restored(true, Some(user)) else Restored(false, None))
  {
    var saved := SaveSession(st, token, user);
    assert saved[TokenKey] == Text(token) && saved[UserKey] == Json(user);
  }

  /** After a sign-out a reload restores no session, and every other entry is kept. */
  lemma ClearThenRestore(st: Storage)
    ensures Restore(ClearSession(st)) == Restored(false, None)
    ensures forall k :: k != TokenKey && k != UserKey ==>
      (k in ClearSession(st) <==> k in st) && (k in st ==> ClearSession(st)[k] == st[k])
  {
  }

  /** Signing in touches only the two session entries. */
  lemma SaveKeepsOthers(st: Storage, token: string, user: User)
    ensures forall k :: k != TokenKey && k != UserKey ==>
      (k in SaveSession(st, token, user) <==> k in st)
      && (k in st ==> SaveSession(st, token, user)[k] == st[k])
  {
  }

  /** `user?.role === 'admin'`: a missing user is not an admin. */
  predicate IsAdmin(user: Option<User>) {
    user.Some? && user.value.role == "admin"
  }

  /** `/create-listing` and `/dashboard`: signed in and not an admin. */
  predicate OwnerRouteAllowed(authenticated: bool, user: Option<User>) {
    authenticated && !IsAdmin(user)
  }

  /** `/admin`: signed in as an admin. */
  predicate AdminRouteAllowed(authenticated: bool, user: Option<User>) {
    authenticated && IsAdmin(user)
  }

  /**
   * The two kinds of protected route split the signed-in sessions: no session
   * reaches both, every signed-in session reaches one, and a signed-out one neither.
   */
  lemma RoutesPartitionSessions(authenticated: bool, user: Option<User>)
    ensures !(OwnerRouteAllowed(authenticated, user) && AdminRouteAllowed(authenticated, user))
    ensures OwnerRouteAllowed(authenticated, user) || AdminRouteAllowed(authenticated, user) <==> authenticated
  {
  }

  /** Role comparison is exact: "Admin" is not an admin. */
  lemma RoleIsCaseSensitive(u: User)
    requires u.role == "Admin"
    ensures OwnerRouteAllowed(true, Some(u)) && !AdminRouteAllowed(true, Some(u))
  {
    assert u.role[0] != "admin"[0];
  }
}
