/** The landing page of a signed-in non-admin user: a route guard run on mount and a logout button. */
module Welcome {
  import opened Wrappers
  import opened Session

  /** The guard of the welcome page. `roleOf` stands for `JSON.parse(user).role`. */
  function WelcomeGuard(st: Storage, roleOf: string -> string): (d: Decision)
    ensures d == Navigate(LoginRoute) <==> !HasSession(st)
    ensures d == Navigate(AdminRoute) <==> HasSession(st) && roleOf(st[UserKey]) == "admin"
    ensures d == Proceed <==> HasSession(st) && roleOf(st[UserKey]) != "admin"
  {
    if !HasSession(st) then Navigate(LoginRoute)
    else if roleOf(st[UserKey]) == "admin" then Navigate(AdminRoute)
    else Proceed
  }

  /** The mount effect: navigate when the guard says so, never touching storage. */
  method Guard(b: BrowserState, roleOf: string -> string)
    modifies b
    ensures b.storage == old(b.storage)
    ensures b.route == match WelcomeGuard(old(b.storage), roleOf)
                       case Navigate(p) => Some(p)
                       case Proceed => old(b.route)
  {
    var d := WelcomeGuard(b.storage, roleOf);
    if d.Navigate? {
      b.NavigateTo(d.path);
    }
  }

  /** Logout removes both keys, then goes to the login page. */
  method Logout(b: BrowserState)
    modifies b
    ensures b.storage == ClearSession(old(b.storage)) && b.route == Some(LoginRoute)
  {
    b.EndSession(LoginRoute);
  }

  /** After logging out, coming back to the welcome page always sends the user to log in. */
  lemma LogoutThenGuard(st: Storage, roleOf: string -> string)
    ensures WelcomeGuard(ClearSession(st), roleOf) == Navigate(LoginRoute)
  {
  }
}
