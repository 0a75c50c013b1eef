/**
 * Start-up initialisation of the session. A query function reconciles the token
 * cookie and the persisted workspace into one result, cleaning the slots on the
 * way; an effect then dispatches `initializeAuth` once the query has settled and
 * the slice is not yet initialised.
 */
module AuthInitialization {
  import opened Wrappers
  import opened Types
  import opened Js
  import opened AuthSlice
  import opened AuthService
  import opened WorkspaceService

  /** What the query resolves to when there is a session. */
  datatype InitData = InitData(user: User, workspace: Option<Workspace>)

  /** The query's value together with the two slots it leaves behind. */
  datatype Reconciled = Reconciled(result: Option<InitData>, cookie: Option<string>, entry: Option<StoredEntry>)

  /** The user record built from a decoded token: `{ id: sub, name: name || 'Usuário', email }`. */
  function UserFrom(t: TokenData): (u: User)
    ensures u.id == t.sub && u.email == t.email
    ensures t.name != [] ==> u.name == t.name
    ensures t.name == [] ==> u.name == "Usuário"
    ensures u.name != [] && ' ' !in u.name <== ' ' !in t.name
  {
    User(t.sub, if t.name != [] then t.name else "Usuário", t.email, None, None)
  }

  /** The query function, on the cookie and the stored entry it starts from. */
  function Reconcile(cookie: Option<string>, entry: Option<StoredEntry>, parse: string -> Option<Claims>): (o: Reconciled)
    // no token: the workspace entry is removed, the cookie is left as it is, the result is null
    ensures !Truthy(cookie) ==> o == Reconciled(None, cookie, None)
    // an undecodable token: token and workspace entry are both removed
    ensures Truthy(cookie) && DecodeTokenIn(cookie, parse).None? ==> o == Reconciled(None, None, None)
    // a stored entry that JSON.parse rejects throws inside the try block: both removed
    ensures Truthy(cookie) && SelectedIn(entry).Threw? ==> o == Reconciled(None, None, None)
    // success: the user comes from the token, the workspace is whatever is stored, nothing is removed
    ensures o.result.Some? <==>
      Truthy(cookie) && DecodeTokenIn(cookie, parse).Some? && SelectedIn(entry).Normal?
    ensures o.result.Some? ==>
      && o.cookie == cookie && o.entry == entry
      && o.result.value == InitData(UserFrom(DecodeTokenIn(cookie, parse).value), SelectedIn(entry).value)
    // every null result leaves no persisted workspace
    ensures o.result.None? ==> o.entry.None?
    // the token is kept or removed, never replaced
    ensures o.cookie == cookie || o.cookie.None?
  {
    if !Truthy(cookie) then Reconciled(None, cookie, None)
    else
      var tokenData := DecodeTokenIn(cookie, parse);
      if tokenData.None? then Reconciled(None, None, None)
      else match SelectedIn(entry)
        case Threw => Reconciled(None, None, None)
        case Normal(w) => Reconciled(Some(InitData(UserFrom(tokenData.value), w)), cookie, entry)
  }

  /** The stored selection is handed to whichever user the token names: nothing ties it to
      the user who saved it. */
  lemma StoredSelectionIgnoresUser(cookie: Option<string>, w: Workspace, parse: string -> Option<Claims>)
    requires DecodeTokenIn(cookie, parse).Some?
    ensures Reconcile(cookie, Some(Saved(w)), parse).result.Some?
    ensures Reconcile(cookie, Some(Saved(w)), parse).result.value.workspace == Some(w)
  {
  }

  /** The owner check the initialiser's call `getSelectedWorkspace(tokenData.sub)` asks for and
      `getSelectedWorkspace` does not make: the stored selection is handed back only to the
      user who saved it. `savedBy` is the id of that user, kept beside the entry. */
  function SelectedForUser(entry: Option<StoredEntry>, savedBy: Option<string>, userId: Option<string>)
    : (r: Completion<Option<Workspace>>)
    ensures !Truthy(userId) || savedBy != userId ==> r == Normal(None)
    ensures r.Normal? && r.value.Some? ==> Truthy(userId) && savedBy == userId && entry == Some(Saved(r.value.value))
    ensures Truthy(userId) && savedBy == userId ==> r == SelectedIn(entry)
  {
    if Truthy(userId) && savedBy == userId then SelectedIn(entry) else Normal(None)
  }

  /** The query function with the owner check in place: the same branches as `Reconcile`, the
      workspace read through `SelectedForUser`. */
  function ReconcileOwnerChecked(cookie: Option<string>, entry: Option<StoredEntry>, savedBy: Option<string>,
                                 parse: string -> Option<Claims>): (o: Reconciled)
    // a workspace is only ever handed to the user who saved it
    ensures o.result.Some? && o.result.value.workspace.Some? ==>
      Truthy(savedBy) && o.result.value.user.id == savedBy && entry == Some(Saved(o.result.value.workspace.value))
    ensures o.result.None? ==> o.entry.None?
  {
    if !Truthy(cookie) then Reconciled(None, cookie, None)
    else
      var tokenData := DecodeTokenIn(cookie, parse);
      if tokenData.None? then Reconciled(None, None, None)
      else match SelectedForUser(entry, savedBy, tokenData.value.sub)
        case Threw => Reconciled(None, None, None)
        case Normal(w) => Reconciled(Some(InitData(UserFrom(tokenData.value), w)), cookie, entry)
  }

  /** For the user who saved the selection the check changes nothing. */
  lemma {:induction false} OwnerCheckedAgreesForOwner(cookie: Option<string>, entry: Option<StoredEntry>,
                                                     parse: string -> Option<Claims>)
    requires DecodeTokenIn(cookie, parse).Some? && Truthy(DecodeTokenIn(cookie, parse).value.sub)
    ensures ReconcileOwnerChecked(cookie, entry, DecodeTokenIn(cookie, parse).value.sub, parse)
      == Reconcile(cookie, entry, parse)
  {
    var sub := DecodeTokenIn(cookie, parse).value.sub;
    assert SelectedForUser(entry, sub, sub) == SelectedIn(entry);
  }

  /** A selection saved by someone else is not handed to the next user: the session starts
      without a workspace, where the program as written returns the previous user's. */
  lemma {:induction false} OwnerCheckedIgnoresOthersSelection(cookie: Option<string>, w: Workspace,
                                                             savedBy: Option<string>, parse: string -> Option<Claims>)
    requires DecodeTokenIn(cookie, parse).Some? && DecodeTokenIn(cookie, parse).value.sub != savedBy
    ensures ReconcileOwnerChecked(cookie, Some(Saved(w)), savedBy, parse).result.Some?
    ensures ReconcileOwnerChecked(cookie, Some(Saved(w)), savedBy, parse).result.value.workspace.None?
    ensures Reconcile(cookie, Some(Saved(w)), parse).result.value.workspace == Some(w)
  {
    var t := DecodeTokenIn(cookie, parse).value;
    assert SelectedForUser(Some(Saved(w)), savedBy, t.sub) == Normal(None);
    StoredSelectionIgnoresUser(cookie, w, parse);
  }

  /** The query function (`queryFn`), acting on the cookie and the workspace entry. */
  method QueryFn(auth: TokenStore, selection: SelectionStore, parse: string -> Option<Claims>)
    returns (r: Option<InitData>)
    modifies auth, selection
    ensures Reconcile(old(auth.cookie), old(selection.entry), parse) == Reconciled(r, auth.cookie, selection.entry)
  {
    if !auth.IsAuthenticated() {
      selection.RemoveSelectedWorkspace();
      return None;
    }
    var tokenData := auth.DecodeToken(parse);
    if tokenData.None? {
      auth.RemoveToken();
      selection.RemoveSelectedWorkspace();
      return None;
    }
    var validWorkspace := selection.GetSelectedWorkspace();
    if validWorkspace.Threw? {
      // the catch block
      auth.RemoveToken();
      selection.RemoveSelectedWorkspace();
      return None;
    }
    r := Some(InitData(UserFrom(tokenData.value), validWorkspace.value));
  }

  /** The query is enabled only while the slice is not initialised. */
  function QueryEnabled(isInitialized: bool): (b: bool)
    ensures b <==> !isInitialized
  {
    !isInitialized
  }

  /** The action the effect dispatches, if any, given the slice flag and the query status. */
  function EffectAction(isInitialized: bool, isLoading: bool, userData: Option<InitData>): (a: Option<Action>)
    ensures a.Some? <==> !isInitialized && !isLoading
    ensures a.Some? && userData.None? ==> a.value == InitializeAuth(None, None)
    ensures a.Some? && userData.Some? ==>
      a.value == InitializeAuth(Some(userData.value.user), userData.value.workspace)
  {
    if !isInitialized && !isLoading then
      Some(match userData
        case None => InitializeAuth(None, None)
        case Some(d) => InitializeAuth(Some(d.user), d.workspace))
    else None
  }

  /** One run of the effect. */
  method RunEffect(store: AuthStore, isLoading: bool, userData: Option<InitData>)
    modifies store
    ensures EffectAction(old(store.isInitialized), isLoading, userData).None? ==> store.State() == old(store.State())
    ensures EffectAction(old(store.isInitialized), isLoading, userData).Some? ==>
      store.State() == Reduce(old(store.State()), EffectAction(old(store.isInitialized), isLoading, userData).value)
    ensures !old(store.isInitialized) && !isLoading ==> store.isInitialized
  {
    if !store.isInitialized && !isLoading {
      var user := if userData.Some? then Some(userData.value.user) else None;
      var workspace := if userData.Some? then userData.value.workspace else None;
      store.Dispatch(InitializeAuth(user, workspace));
    }
  }

  /** One event during a page load: the effect runs with the query's status of the moment,
      or some other action reaches the slice. */
  datatype Step = EffectRun(isLoading: bool, userData: Option<InitData>) | Other(action: Action)

  /** How many times the effect dispatches `initializeAuth` over a sequence of steps. */
  function EffectDispatches(s: AuthState, steps: seq<Step>): nat
    decreases |steps|
  {
    if steps == [] then 0
    else match steps[0]
      case EffectRun(l, d) =>
        var a := EffectAction(s.isInitialized, l, d);
        if a.Some? then 1 + EffectDispatches(Reduce(s, a.value), steps[1..])
        else EffectDispatches(s, steps[1..])
      case Other(a) => EffectDispatches(Reduce(s, a), steps[1..])
  }

  /** Once initialised, the effect never dispatches again. */
  lemma {:induction false} NoDispatchOnceInitialized(s: AuthState, steps: seq<Step>)
    requires s.isInitialized
    ensures EffectDispatches(s, steps) == 0
    decreases |steps|
  {
    if steps != [] {
      match steps[0]
      case EffectRun(l, d) => NoDispatchOnceInitialized(s, steps[1..]);
      case Other(a) => NoDispatchOnceInitialized(Reduce(s, a), steps[1..]);
    }
  }

  /** Whatever happens during a load, `initializeAuth` is dispatched by the effect at most once. */
  lemma {:induction false} EffectFiresAtMostOnce(s: AuthState, steps: seq<Step>)
    ensures EffectDispatches(s, steps) <= 1
    decreases |steps|
  {
    if steps != [] {
      match steps[0]
      case EffectRun(l, d) =>
        var a := EffectAction(s.isInitialized, l, d);
        if a.Some? {
          NoDispatchOnceInitialized(Reduce(s, a.value), steps[1..]);
        } else {
          EffectFiresAtMostOnce(s, steps[1..]);
        }
      case Other(a) => EffectFiresAtMostOnce(Reduce(s, a), steps[1..]);
    }
  }
}
