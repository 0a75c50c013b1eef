/**
 * The session transitions behind the login, sign-up and logout actions: each is an
 * ordered list of side effects on the token cookie, the auth slice and the router.
 */
module UseAuth {
  import opened Wrappers
  import opened Types
  import opened Js
  import opened AuthSlice
  import opened AuthService
  import opened Effects

  const SignUpMessage: string := "Conta criada com sucesso! Faça login para continuar."

  /** The placeholder user the login dispatches until the next start-up reads the token. */
  function TempUser(email: string): (u: User)
    ensures u.id == Some("temp-id") && u.name == "Usuário" && u.email == Some(email)
  {
    User(Some("temp-id"), "Usuário", Some(email), None, None)
  }

  /** `location.state?.from?.pathname || '/dashboard'`. */
  function LoginTarget(from: Option<string>): (path: string)
    ensures Truthy(from) ==> path == from.value
    ensures !Truthy(from) ==> path == "/dashboard"
    ensures path != []
  {
    if Truthy(from) then from.value else "/dashboard"
  }

  /** `useLogin`'s `onSuccess`: store the token, sign the placeholder user in, redirect. */
  method OnLoginSuccess(auth: TokenStore, store: AuthStore, accessToken: string, email: string, from: Option<string>)
    returns (effects: seq<Effect>)
    modifies auth, store
    ensures auth.cookie == Some(accessToken)
    ensures store.State() == Reduce(old(store.State()), Login(TempUser(email)))
    ensures store.isAuthenticated && store.user == Some(TempUser(email))
    ensures store.selectedWorkspace == old(store.selectedWorkspace)
    ensures effects == [SaveToken(accessToken), Dispatch(Login(TempUser(email))), Navigate(LoginTarget(from), true, None)]
  {
    auth.SaveToken(accessToken);
    var user := TempUser(email);
    store.Dispatch(Login(user));
    effects := [SaveToken(accessToken), Dispatch(Login(user)), Navigate(LoginTarget(from), true, None)];
  }

  /** `useSignUp`'s `onSuccess`: no session state is touched, only a redirect with a message. */
  method OnSignUpSuccess() returns (effects: seq<Effect>)
    ensures |effects| == 1 && effects[0].Navigate?
    ensures effects[0] == Navigate("/auth/login", true, Some(SignUpMessage))
  {
    effects := [Navigate("/auth/login", true, Some(SignUpMessage))];
  }

  /** The `useLogout` callback. The persisted workspace selection is not among what it changes. */
  method Logout(auth: TokenStore, store: AuthStore) returns (effects: seq<Effect>)
    modifies auth, store
    ensures auth.cookie.None? && !auth.IsAuthenticated()
    ensures store.State() == Reduce(old(store.State()), Action.Logout)
    ensures !store.isAuthenticated && store.user.None? && store.selectedWorkspace.None? && store.isInitialized
    ensures effects == [RemoveToken, Dispatch(Action.Logout), Navigate("/auth/login", true, None)]
  {
    auth.RemoveToken();
    store.Dispatch(Action.Logout);
    effects := [RemoveToken, Dispatch(Action.Logout), Navigate("/auth/login", true, None)];
  }
}
