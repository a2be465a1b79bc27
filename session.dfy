/** The browser-side session: `localStorage` as a map from keys to strings, and the last
    navigation target (`navigate(...)` or `window.location.href = ...`). */
module Session {
  import opened Wrappers

  type Storage = map<string, string>

  const TokenKey := "adminToken"
  const UserKey := "adminUser"

  const LoginRoute := "/admin/dashboard"
  const AdminRoute := "/admin"
  const WelcomeRoute := "/welcome"

  /** `localStorage.getItem(key)`: null when the key is absent. */
  function GetItem(st: Storage, key: string): (r: Option<string>)
    ensures r.Some? <==> key in st
    ensures r.Some? ==> r.value == st[key]
  {
    if key in st then Some(st[key]) else None
  }

  /** JavaScript truthiness of a `getItem` result: neither null nor the empty string. */
  predicate Truthy(v: Option<string>)
  {
    v.Some? && v.value != ""
  }

  /** Both halves of a session are stored (the condition `token && user` of the route guards). */
  predicate HasSession(st: Storage)
  {
    Truthy(GetItem(st, TokenKey)) && Truthy(GetItem(st, UserKey))
  }

  /** The two `removeItem` calls made on logout and on a 401: both keys go, everything else stays. */
  function ClearSession(st: Storage): (r: Storage)
    ensures TokenKey !in r && UserKey !in r
    ensures !HasSession(r)
    ensures forall k :: k in r <==> k in st && k != TokenKey && k != UserKey
    ensures forall k :: k in r ==> r[k] == st[k]
  {
    st - {TokenKey, UserKey}
  }

  /** The two `setItem` calls made after a successful registration. */
  function StoreSession(st: Storage, token: string, userJson: string): (r: Storage)
    ensures GetItem(r, TokenKey) == Some(token) && GetItem(r, UserKey) == Some(userJson)
    ensures token != "" && userJson != "" ==> HasSession(r)
    ensures forall k :: k != TokenKey && k != UserKey ==> GetItem(r, k) == GetItem(st, k)
  {
    st[TokenKey := token][UserKey := userJson]
  }

  /** Clearing after storing leaves exactly what was there before, minus any earlier session. */
  lemma ClearUndoesStore(st: Storage, token: string, userJson: string)
    ensures ClearSession(StoreSession(st, token, userJson)) == ClearSession(st)
  {
    var a := ClearSession(StoreSession(st, token, userJson));
    var b := ClearSession(st);
    assert forall k :: k in a <==> k in b;
    assert forall k :: k in a ==> a[k] == b[k];
  }

  /** What a route guard decides: go somewhere else, or stay and carry on. */
  datatype Decision = Navigate(path: string) | Proceed

  /** Browser-global state shared by every component: storage and the last navigation target. */
  class BrowserState {
    var storage: Storage
    var route: Option<string>

    constructor (initial: Storage)
      ensures storage == initial && route == None
    {
      storage := initial;
      route := None;
    }

    /** `navigate(path)` or `window.location.href = path`. */
    method NavigateTo(path: string)
      modifies this
      ensures route == Some(path) && storage == old(storage)
    {
      route := Some(path);
    }

    /** Remove both session keys, then navigate to `path`. */
    method EndSession(path: string)
      modifies this
      ensures storage == ClearSession(old(storage)) && route == Some(path)
    {
      storage := ClearSession(storage);
      route := Some(path);
    }
  }
}
