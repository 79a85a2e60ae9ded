/**
 * The access flag and the route guard: a key `isAdmin` in local storage that
 * the login sets and the logout removes, and a guard that shows its children
 * only while the flag reads `"true"`.
 */
module AccessGate {
  import opened Wrappers
  import opened Storage

  const AdminKey := "isAdmin"
  const LoginPath := "/admin"

  /** `isAdmin()` on a store holding `items`. */
  predicate IsAdminIn(items: map<string, string>) {
    AdminKey in items && items[AdminKey] == "true"
  }

  /** The store after `setAdmin(value)`. */
  function WithAdmin(items: map<string, string>, value: bool): (r: map<string, string>)
    ensures forall k | k != AdminKey :: (k in r <==> k in items) && (k in items ==> r[k] == items[k])
    ensures value ==> AdminKey in r && r[AdminKey] == "true"
    ensures !value ==> AdminKey !in r
  {
    if value then items[AdminKey := "true"] else items - {AdminKey}
  }

  method IsAdmin(storage: LocalStorage) returns (b: bool)
    ensures b <==> AdminKey in storage.items && storage.items[AdminKey] == "true"
  {
    var v := storage.GetItem(AdminKey);
    b := v == Some("true");
  }

  method SetAdmin(storage: LocalStorage, value: bool)
    modifies storage
    ensures storage.items == WithAdmin(old(storage.items), value)
  {
    if value {
      storage.SetItem(AdminKey, "true");
    } else {
      storage.RemoveItem(AdminKey);
    }
  }

  /** `setAdmin(v)` followed by `isAdmin()` reads back `v`, from any prior store. */
  lemma SetAdminThenIsAdmin(items: map<string, string>, value: bool)
    ensures IsAdminIn(WithAdmin(items, value)) == value
  {
  }

  /** A value other than exactly `"true"` (`"1"`, `"TRUE"`, `"true "`) does not grant access. */
  lemma OnlyExactTrueGrants(items: map<string, string>)
    requires AdminKey in items && items[AdminKey] != "true"
    ensures !IsAdminIn(items)
  {
  }

  /** A react-router location, reduced to its path. */
  datatype Location = Location(pathname: string)

  /** The navigation state the guard attaches to its redirect: `{ from: location }`. */
  datatype RouteState = RouteState(from: Option<Location>)

  datatype Guarded =
    | RenderChildren
    | Redirect(to: string, state: RouteState, replace: bool)

  /** The `ProtectedRoute` decision, given what `isAdmin()` returned. */
  function Guard(admin: bool, location: Location): (r: Guarded)
    ensures r.RenderChildren? <==> admin
    ensures r.Redirect? ==> r.to == LoginPath && r.state.from == Some(location) && r.replace
  {
    if !admin then Redirect(LoginPath, RouteState(Some(location)), true) else RenderChildren
  }

  /** `ProtectedRoute`: renders its children iff the store grants access. */
  method ProtectedRoute(storage: LocalStorage, location: Location) returns (r: Guarded)
    ensures r.RenderChildren? <==> IsAdminIn(storage.items)
    ensures r == Guard(IsAdminIn(storage.items), location)
  {
    var admin := IsAdmin(storage);
    r := Guard(admin, location);
  }
}
