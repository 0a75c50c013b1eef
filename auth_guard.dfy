/**
 * The three route guards as one decision over the slice state, the token cookie,
 * the persisted workspace entry and the current location. A guard only reads;
 * it never changes the state or either storage slot.
 */
module AuthGuard {
  import opened Wrappers
  import opened Js
  import opened AuthSlice
  import opened AuthService
  import opened WorkspaceService

  /** Which guard wraps the route. */
  datatype Route = Protected | WorkspaceProtected | Public

  /** What the guard renders. `RenderFails` is the exception `hasSelectedWorkspace` throws on a
      stored entry that `JSON.parse` rejects. */
  datatype Decision =
    | Loading
    | RedirectLogin(from: string)
    | RedirectWorkspaceSelection
    | Allow
    | RenderFails

  /** A guard's notion of being signed in: a non-empty token cookie and a user in the state. */
  predicate SignedIn(s: AuthState, cookie: Option<string>) {
    Truthy(cookie) && s.user.Some?
  }

  /** The guard decision; `location` is the current location, passed on as `from`. */
  function Decide(route: Route, s: AuthState, cookie: Option<string>, entry: Option<StoredEntry>, location: string): (d: Decision)
    // nothing is decided before initialisation
    ensures d == Loading <==> !s.isInitialized
    // the two protected guards send everyone not signed in to the login page, carrying the location
    ensures s.isInitialized && route != Public && !SignedIn(s, cookie) ==> d == RedirectLogin(location)
    ensures d.RedirectLogin? ==> route != Public && d.from == location
    ensures route == Protected && s.isInitialized && SignedIn(s, cookie) ==> d == Allow
    // the workspace guard asks for a selection only when neither the state nor the storage has one
    ensures route == WorkspaceProtected && s.isInitialized && SignedIn(s, cookie) ==>
      (d == RedirectWorkspaceSelection <==> s.selectedWorkspace.None? && HasSelectionIn(entry) == Normal(false))
    ensures route == WorkspaceProtected && s.isInitialized && SignedIn(s, cookie) ==>
      (d == Allow <==> s.selectedWorkspace.Some? || HasSelectionIn(entry) == Normal(true))
    ensures d == RenderFails <==>
      route == WorkspaceProtected && s.isInitialized && SignedIn(s, cookie)
      && s.selectedWorkspace.None? && entry == Some(Corrupt)
    // the public guard sends signed-in users to the selection page and lets everyone else in
    ensures route == Public && s.isInitialized ==> (d == RedirectWorkspaceSelection <==> SignedIn(s, cookie))
    ensures route == Public && s.isInitialized ==> (d == Allow <==> !SignedIn(s, cookie))
  {
    if !s.isInitialized then Loading
    else match route
      case Protected =>
        if !Truthy(cookie) || s.user.None? then RedirectLogin(location) else Allow
      case WorkspaceProtected =>
        if !Truthy(cookie) || s.user.None? then RedirectLogin(location)
        else if s.selectedWorkspace.Some? then Allow
        else (match HasSelectionIn(entry)
          case Threw => RenderFails
          case Normal(has) => if !has then RedirectWorkspaceSelection else Allow)
      case Public =>
        if Truthy(cookie) && s.user.Some? then RedirectWorkspaceSelection else Allow
  }

  /** The state's own `isAuthenticated` flag never influences a guard. */
  lemma DecisionIgnoresIsAuthenticated(route: Route, s: AuthState, b: bool, cookie: Option<string>,
                                       entry: Option<StoredEntry>, location: string)
    ensures Decide(route, s.(isAuthenticated := b), cookie, entry, location) == Decide(route, s, cookie, entry, location)
  {
  }

  /** After a logout and a login as someone else, a workspace entry left in storage by the
      previous user still opens the workspace routes. */
  lemma LeftoverSelectionAdmitsNextUser(s: AuthState, u: Types.User, token: string, w: Types.Workspace, location: string)
    requires token != []
    ensures Decide(WorkspaceProtected, Reduce(Reduce(s, Logout), Login(u)), Some(token), Some(Saved(w)), location) == Allow
  {
  }
}
