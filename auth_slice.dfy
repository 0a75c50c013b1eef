/**
 * The `auth` slice of the Redux store: whether a user is signed in, who it is,
 * which workspace is selected, and whether start-up initialisation has run.
 * `Reduce` is the slice's reducer as a function of the state and the action;
 * `AuthStore` holds the state and applies actions to its fields in place.
 */
module AuthSlice {
  import opened Wrappers
  import opened Types

  datatype AuthState = AuthState(
    isAuthenticated: bool,
    user: Option<User>,
    selectedWorkspace: Option<Workspace>,
    isInitialized: bool)

  /** `Partial<User>`: each field is either supplied (`Some`) or left out. */
  datatype UserPatch = UserPatch(
    id: Option<string>,
    name: Option<string>,
    email: Option<string>,
    createdAt: Option<string>,
    updatedAt: Option<string>)

  /** The six actions of the slice. */
  datatype Action =
    | Login(user: User)
    | Logout
    | InitializeAuth(initUser: Option<User>, workspace: Option<Workspace>)
    | UpdateUser(patch: UserPatch)
    | SetSelectedWorkspace(ws: Workspace)
    | ClearSelectedWorkspace

  /** The state before any action: signed out, nothing selected, not initialised. */
  const InitialState: AuthState := AuthState(false, None, None, false)

  /** The invariant the slice keeps: signed in exactly when there is a user. */
  predicate Consistent(s: AuthState) {
    s.isAuthenticated == s.user.Some?
  }

  /** `{ ...user, ...patch }`: supplied fields override, the others are kept. */
  function Patched(u: User, p: UserPatch): (r: User)
    ensures p.name.Some? ==> r.name == p.name.value
    ensures p.name.None? ==> r.name == u.name
    ensures p.id.Some? ==> r.id == p.id
    ensures p.id.None? ==> r.id == u.id
    ensures p.email.Some? ==> r.email == p.email
    ensures p.email.None? ==> r.email == u.email
    ensures p.createdAt.Some? ==> r.createdAt == p.createdAt
    ensures p.createdAt.None? ==> r.createdAt == u.createdAt
    ensures p.updatedAt.Some? ==> r.updatedAt == p.updatedAt
    ensures p.updatedAt.None? ==> r.updatedAt == u.updatedAt
    ensures p == UserPatch(None, None, None, None, None) ==> r == u
  {
    User(
      if p.id.Some? then p.id else u.id,
      p.name.GetOr(u.name),
      if p.email.Some? then p.email else u.email,
      if p.createdAt.Some? then p.createdAt else u.createdAt,
      if p.updatedAt.Some? then p.updatedAt else u.updatedAt)
  }

  /** The slice reducer. */
  function Reduce(s: AuthState, a: Action): (r: AuthState)
    // isInitialized never goes back to false, and the three session actions set it
    ensures s.isInitialized ==> r.isInitialized
    ensures a.Login? || a.Logout? || a.InitializeAuth? ==> r.isInitialized
    // every action keeps "signed in exactly when there is a user"
    ensures Consistent(s) ==> Consistent(r)
    // login keeps the selected workspace; logout clears user and workspace
    ensures a.Login? ==> r.isAuthenticated && r.user == Some(a.user) && r.selectedWorkspace == s.selectedWorkspace
    ensures a.Logout? ==> !r.isAuthenticated && r.user.None? && r.selectedWorkspace.None?
    ensures a.InitializeAuth? ==>
      r.user == a.initUser && r.selectedWorkspace == a.workspace && r.isAuthenticated == a.initUser.Some?
    // updateUser touches only the user, and only when there is one
    ensures a.UpdateUser? ==>
      && r.isAuthenticated == s.isAuthenticated && r.selectedWorkspace == s.selectedWorkspace
      && r.isInitialized == s.isInitialized && r.user.Some? == s.user.Some?
    ensures a.UpdateUser? && s.user.None? ==> r == s
    ensures a.UpdateUser? && s.user.Some? ==> r.user == Some(Patched(s.user.value, a.patch))
    // the workspace actions touch only the selected workspace
    ensures a.SetSelectedWorkspace? || a.ClearSelectedWorkspace? ==>
      r.(selectedWorkspace := s.selectedWorkspace) == s
    ensures a.SetSelectedWorkspace? ==> r.selectedWorkspace == Some(a.ws)
    ensures a.ClearSelectedWorkspace? ==> r.selectedWorkspace.None?
  {
    match a
    case Login(u) => s.(isAuthenticated := true, user := Some(u), isInitialized := true)
    case Logout => s.(isAuthenticated := false, user := None, selectedWorkspace := None, isInitialized := true)
    case InitializeAuth(u, w) => AuthState(u.Some?, u, w, true)
    case UpdateUser(p) => if s.user.Some? then s.(user := Some(Patched(s.user.value, p))) else s
    case SetSelectedWorkspace(w) => s.(selectedWorkspace := Some(w))
    case ClearSelectedWorkspace => s.(selectedWorkspace := None)
  }

  /** The state after dispatching `actions` in order. */
  function Run(s: AuthState, actions: seq<Action>): AuthState
    decreases |actions|
  {
    if actions == [] then s else Run(Reduce(s, actions[0]), actions[1..])
  }

  /** From the initial state, every sequence of actions keeps the invariant, and once
      isInitialized is true no later action makes it false. */
  lemma {:induction false} RunKeepsInvariants(s: AuthState, actions: seq<Action>, k: nat)
    requires Consistent(s)
    requires k <= |actions|
    ensures Consistent(Run(s, actions))
    ensures Run(s, actions[..k]).isInitialized ==> Run(s, actions).isInitialized
    decreases |actions|
  {
    if actions != [] {
      var s' := Reduce(s, actions[0]);
      if k == 0 {
        assert actions[..k] == [];
        RunKeepsInvariants(s', actions[1..], 0);
        RunInitializedStays(s', actions[1..]);
      } else {
        assert actions[..k][1..] == actions[1..][..k - 1];
        RunKeepsInvariants(s', actions[1..], k - 1);
      }
    }
  }

  lemma {:induction false} RunInitializedStays(s: AuthState, actions: seq<Action>)
    ensures s.isInitialized ==> Run(s, actions).isInitialized
    decreases |actions|
  {
    if actions != [] {
      RunInitializedStays(Reduce(s, actions[0]), actions[1..]);
    }
  }

  /** Every state reachable from the initial state is consistent. */
  lemma ReachableConsistent(actions: seq<Action>)
    ensures Consistent(Run(InitialState, actions))
  {
    RunKeepsInvariants(InitialState, actions, 0);
  }

  /** The slice state, with the reducer applied to its fields in place. */
  class AuthStore {
    var isAuthenticated: bool
    var user: Option<User>
    var selectedWorkspace: Option<Workspace>
    var isInitialized: bool

    function State(): AuthState
      reads this
    {
      AuthState(isAuthenticated, user, selectedWorkspace, isInitialized)
    }

    ghost predicate Valid()
      reads this
    {
      Consistent(State())
    }

    constructor ()
      ensures State() == InitialState && Valid()
    {
      isAuthenticated := false;
      user := None;
      selectedWorkspace := None;
      isInitialized := false;
    }

    /** `dispatch(action)`. */
    method Dispatch(a: Action)
      modifies this
      ensures old(Valid()) ==> Valid()
      ensures State() == Reduce(old(State()), a)
    {
      match a
      case Login(u) =>
        isAuthenticated := true;
        user := Some(u);
        isInitialized := true;
      case Logout =>
        isAuthenticated := false;
        user := None;
        selectedWorkspace := None;
        isInitialized := true;
      case InitializeAuth(u, w) =>
        isAuthenticated := u.Some?;
        user := u;
        selectedWorkspace := w;
        isInitialized := true;
      case UpdateUser(p) =>
        if user.Some? {
          user := Some(Patched(user.value, p));
        }
      case SetSelectedWorkspace(w) =>
        selectedWorkspace := Some(w);
      case ClearSelectedWorkspace =>
        selectedWorkspace := None;
    }
  }
}
