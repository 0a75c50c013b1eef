# finmoni-frontend: a Dafny model of the client's logic

finmoni-frontend is a React/Redux client for a personal-finance service. Users
sign in, pick a workspace, and keep credit cards and bank accounts in it. Its
user interface rests on many small pieces of deterministic logic, and this
project models those pieces and proves their properties:

- **Session.** The `auth` slice of the Redux store, the `auth_token` cookie,
  the persisted workspace selection, reading a JSON Web Token's payload, the
  start-up initialisation, the login/sign-up/logout transitions and the three
  route guards. The theme slice is a second small state machine.
- **Validators and payload builders.** The zod schemas of the credit-card,
  bank-account, login/register, workspace-creation and invite forms, written
  as predicates over the form's strings. The submit handlers, written as
  functions that build the optional-field request body.
- **Formatting helpers.** Cents ↔ "1234,56" conversion, card-number masking,
  holder and label selection, the BrasilAPI bank option list, and the user's
  initials.
- **Policies and small state machines.** The query client's retry and back-off
  policy, the TanStack Query key builders and what each mutation does to the
  cache, and the modal and confirm-dialog state of the two list pages.

Every browser facility is a parameter or a field:

- Cookies and local storage are fields of small classes.
- `matchMedia` and the presence of `window` are an `Env` value.
- `atob` followed by `JSON.parse` is a partial function passed in.
- zod's `.email()` check is a predicate passed in.
- `localeCompare` is a comparison passed in.

Where the program has a side-effect sequence (the login callback, the
initialisation query), the model records it as an explicit list of effects,
or as the new contents of the slots.

JavaScript's semantics are written out where they matter (module `Js`):

- truthiness and `||` on optional strings;
- `trim`, `split`, `padStart`, `replace` of the first match, ASCII `toUpperCase`;
- `parseInt` (skip leading whitespace, read an optional sign, then the longest digit prefix);
- the reading `parseFloat` makes of a decimal prefix, with exact decimals in
  place of binary floating point.

The modules follow the source files:

| module | source |
|---|---|
| `AuthSlice` | src/store/slices/authSlice.ts |
| `AuthService` | src/services/auth.ts |
| `WorkspaceService` | src/services/workspace.ts |
| `AuthInitialization` | src/hooks/use-auth-initialization.ts |
| `UseAuth` | src/hooks/use-auth.ts |
| `AuthGuard` | src/components/guards/auth-guard.tsx |
| `ThemeSlice` | src/store/slices/themeSlice.ts |
| `CardSchemas` | src/services/credit-cards/schemas.ts |
| `AccountSchemas` | src/services/accounts/schemas.ts |
| `AuthValidation` | src/lib/validations.ts |
| `WorkspaceSelection` | src/pages/workspace-selection.tsx |
| `InviteMember` | src/components/invite-member-modal.tsx |
| `CreditCardModal` | src/components/credit-card-modal.tsx |
| `BankAccountForm` | src/hooks/use-bank-account-form.ts |
| `AccountsUtils` | src/services/accounts/index.ts |
| `CardUtils` | src/lib/credit-card-utils.ts |
| `BrasilApi` | src/services/brasilapi.ts |
| `QueryClient` | src/lib/query-client.ts |
| `CardsList` | src/hooks/use-credit-cards-list.ts |
| `BankAccountsList` | src/components/bank-accounts-list.tsx |
| `DashboardHeader` | src/components/layouts/dashboard-header.tsx |
| `CardHooks`, `AccountHooks` | src/services/credit-cards/hooks.ts, src/services/accounts/hooks.ts |
| `QueryCache` | the part of the TanStack query cache those hooks use |
| `Types`, `Wrappers`, `Js`, `Effects` | the shared records, `Option`/`Completion`, JavaScript built-ins, the effect log |

## Model

| member | source | states |
|---|---|---|
| AuthSlice.Reduce | src/store/slices/authSlice.ts:23-51 | login signs the user in and keeps the selected workspace. logout clears user and workspace. initializeAuth sets user and workspace from its payload, with isAuthenticated exactly when there is a user. updateUser does nothing without a user, and otherwise replaces the user by the patched user. The two workspace actions change only the selection. Every action keeps `isAuthenticated == (user != null)`, and none sets isInitialized back to false |
| AuthSlice.Patched | src/store/slices/authSlice.ts:41-45 | `{...user, ...patch}`: each of the five fields (id, name, email, createdAt, updatedAt) takes the patch's value when supplied and keeps the user's otherwise; an empty patch changes nothing |
| AuthSlice.RunKeepsInvariants | src/store/slices/authSlice.ts:12-51 | over any sequence of actions the invariant `isAuthenticated == (user != null)` holds, and once isInitialized is true at some prefix it stays true |
| AuthSlice.RunInitializedStays | src/store/slices/authSlice.ts:12-51 | isInitialized is monotone along any sequence of actions |
| AuthSlice.ReachableConsistent | src/store/slices/authSlice.ts:12-17 | every state reachable from the initial state (signed out, no user, no workspace, not initialised) satisfies the invariant |
| AuthSlice.AuthStore.constructor | src/store/slices/authSlice.ts:12-17 | the store starts in the initial state |
| AuthSlice.AuthStore.Dispatch | src/store/slices/authSlice.ts:23-51 | updating the fields in place gives exactly the reducer's new state and keeps the invariant |
| AuthService.TokenOf | src/services/auth.ts:53-55 | `Cookies.get(...) \|\| null`: a missing or empty cookie reads as no token, any other as itself |
| AuthService.FullName | src/services/auth.ts:78-82 | the first truthy of the claims name, displayName and given_name, else username |
| AuthService.FromClaims | src/services/auth.ts:83-89 | name is the text before the first ' ' of the full name, or 'Usuário'; sub is the first truthy of sub, userId, id; email is email, else username, else email |
| AuthService.DecodeTokenIn | src/services/auth.ts:66-93 | null when no token is stored, when the token does not split on '.' into exactly three parts with a non-empty middle part, when the payload is outside `atob`'s alphabet, or when decoding or parsing fails; a well-formed token whose payload decodes always yields the record built from its claims. The name it returns holds no ' ' |
| AuthService.UrlSafePayloadNeverDecodes | src/services/auth.ts:75 | a payload segment with base64url's '-' or '_' (section 5 of RFC 4648) makes `atob` throw, so the result is null |
| AuthService.TokenStore.SaveToken | src/services/auth.ts:44-51 | the cookie holds the token; a non-empty token reads back, and an empty one does not count as signed in |
| AuthService.TokenStore.GetToken | src/services/auth.ts:53-55 | null exactly when the cookie is missing or empty, otherwise the cookie |
| AuthService.TokenStore.RemoveToken | src/services/auth.ts:57-59 | the cookie is gone; getToken is null and isAuthenticated false |
| AuthService.TokenStore.IsAuthenticated | src/services/auth.ts:61-63 | holds exactly when a non-empty token is stored |
| AuthService.TokenStore.DecodeToken | src/services/auth.ts:66-93 | returns null when no token is stored, and otherwise what `DecodeTokenIn` gives for the stored cookie; it writes nothing |
| WorkspaceService.SelectedIn | src/services/workspace.ts:142-145 | null for no entry or an empty one, the saved workspace for a saved one, and a thrown exception exactly for unparsable text |
| WorkspaceService.HasSelectionIn | src/services/workspace.ts:153-155 | true exactly when getSelectedWorkspace returns a workspace; throws when it throws |
| WorkspaceService.SelectionStore.GetSelectedWorkspace | src/services/workspace.ts:142-145 | only reads the entry: null for no entry or an empty one, the saved workspace for a saved one, and a throw exactly for text `JSON.parse` rejects |
| WorkspaceService.SelectionStore.SaveSelectedWorkspace | src/services/workspace.ts:137-139 | overwrites the entry; getSelectedWorkspace then returns exactly that workspace |
| WorkspaceService.SelectionStore.RemoveSelectedWorkspace | src/services/workspace.ts:148-150 | the entry is gone and getSelectedWorkspace returns null |
| WorkspaceService.SelectionStore.HasSelectedWorkspace | src/services/workspace.ts:153-155 | true exactly when getSelectedWorkspace returns a workspace |
| AuthInitialization.UserFrom | src/hooks/use-auth-initialization.ts:40-44 | id is sub and email is email; the name is the decoded name, or 'Usuário' when that is empty |
| AuthInitialization.Reconcile | src/hooks/use-auth-initialization.ts:17-53 | without a token the workspace entry is removed and the result is null. An undecodable token or a corrupt entry removes both token and entry, with result null. Otherwise the result is the decoded user with the stored selection, and the token is kept |
| AuthInitialization.StoredSelectionIgnoresUser | src/hooks/use-auth-initialization.ts:37 | whatever user the token names, a stored selection is handed back unchecked |
| AuthInitialization.SelectedForUser | src/hooks/use-auth-initialization.ts:35-37 | the read the call asks for: no workspace unless the user id is truthy and equals the id of the user who saved the entry, and then exactly what `getSelectedWorkspace` reads |
| AuthInitialization.ReconcileOwnerChecked | src/hooks/use-auth-initialization.ts:15-52 | the query function with the owner check: a workspace is only handed to the user who saved it, and a null result leaves no entry |
| AuthInitialization.OwnerCheckedAgreesForOwner | src/hooks/use-auth-initialization.ts:35-46 | for the user who saved the selection, the owner-checked query gives what the program gives |
| AuthInitialization.OwnerCheckedIgnoresOthersSelection | src/hooks/use-auth-initialization.ts:35-46 | a selection saved by another user starts the session without a workspace under the check, and with that workspace in the program as written |
| AuthInitialization.QueryFn | src/hooks/use-auth-initialization.ts:17-53 | the step-by-step query function leaves the cookie and entry, and returns the result, exactly as `Reconcile` says |
| AuthInitialization.QueryEnabled | src/hooks/use-auth-initialization.ts:54 | the query runs only while the slice is not initialised |
| AuthInitialization.EffectAction | src/hooks/use-auth-initialization.ts:59-67 | the effect dispatches exactly when not initialised and not loading; it dispatches initializeAuth with the result's user and workspace, or with nulls when the result is null |
| AuthInitialization.RunEffect | src/hooks/use-auth-initialization.ts:59-67 | one run of the effect either changes nothing or applies exactly that action, after which the slice is initialised |
| AuthInitialization.NoDispatchOnceInitialized | src/hooks/use-auth-initialization.ts:59-60 | once isInitialized is true, no later effect run dispatches |
| AuthInitialization.EffectFiresAtMostOnce | src/hooks/use-auth-initialization.ts:54-67 | over any interleaving of effect runs and other actions, initializeAuth is dispatched by the effect at most once |
| UseAuth.TempUser | src/hooks/use-auth.ts:20-24 | the placeholder user: id 'temp-id', name 'Usuário' and the submitted email |
| UseAuth.LoginTarget | src/hooks/use-auth.ts:26 | the pathname the user came from when there is one, else '/dashboard' |
| UseAuth.OnLoginSuccess | src/hooks/use-auth.ts:17-28 | saves the access token, then dispatches login with the placeholder user, then navigates with replace, in that order. The state is the login reducer's, and the selected workspace is unchanged |
| UseAuth.OnSignUpSuccess | src/hooks/use-auth.ts:40-45 | only navigates to '/auth/login' with the success message; no session state changes |
| UseAuth.Logout | src/hooks/use-auth.ts:54-58 | removes the token, dispatches logout and navigates to '/auth/login', in that order. The persisted selection is not among what it modifies |
| AuthGuard.Decide | src/components/guards/auth-guard.tsx:14-86 | loading exactly while not initialised. Protected routes send a signed-out user (no cookie token, or no user) to '/auth/login' carrying the location. The workspace guard redirects to selection only when neither the state nor storage holds one. The public guard redirects signed-in users and renders the rest |
| AuthGuard.DecisionIgnoresIsAuthenticated | src/components/guards/auth-guard.tsx:16-17 | the state's isAuthenticated flag never changes a decision |
| AuthGuard.LeftoverSelectionAdmitsNextUser | src/components/guards/auth-guard.tsx:57-61 | after logout and a login as anyone, a selection left in storage lets the workspace guard through |
| ThemeSlice.SystemPrefersDark | src/store/slices/themeSlice.ts:11-16 | the media query's answer, or dark when there is no window |
| ThemeSlice.ThemeNamed | src/store/slices/themeSlice.ts:18-26 | recognises exactly 'light', 'dark' and 'system' |
| ThemeSlice.InitialTheme | src/store/slices/themeSlice.ts:18-26 | the saved value when it names a theme, else dark |
| ThemeSlice.IsDark | src/store/slices/themeSlice.ts:28-39 | dark is dark, light is not, and system follows the system preference |
| ThemeSlice.Toggled | src/store/slices/themeSlice.ts:78-80 | light goes to dark; dark and system go to light |
| ThemeSlice.SavedThemeIsRestored | src/store/slices/themeSlice.ts:18-26 | a theme that was saved is the one the next start-up restores |
| ThemeSlice.ToggleTwice | src/store/slices/themeSlice.ts:78-80 | toggling twice returns to the start exactly when the start is not system |
| ThemeSlice.ThemeStore.constructor | src/store/slices/themeSlice.ts:53-63 | the initial theme and its darkness, applied to the page when there is a window |
| ThemeSlice.ThemeStore.SetTheme | src/store/slices/themeSlice.ts:69-76 | theme is the new value and isDark is its darkness; with a window exactly that value is saved and applied |
| ThemeSlice.ThemeStore.ToggleTheme | src/store/slices/themeSlice.ts:78-86 | theme is the toggled value and dark exactly when it was light; with a window it is saved and applied |
| ThemeSlice.ThemeStore.InitializeTheme | src/store/slices/themeSlice.ts:88-92 | theme, isDark and the saved value are unchanged; only the page is updated |
| CardSchemas.CardTypeNamed | src/services/credit-cards/schemas.ts:11-13 | accepts exactly 'HOLDER' and 'THIRD_PARTY', as the card type of that name |
| CardSchemas.BrandNamed | src/services/credit-cards/schemas.ts:15 | accepts exactly the six brands VISA, MASTERCARD, ELO, AMEX, HIPERCARD and DINERS |
| CardSchemas.EnumNamesRoundTrip | src/services/credit-cards/schemas.ts:11-15 | every card type and brand reads back as itself from its enum string |
| CardSchemas.Flag | src/services/credit-cards/schemas.ts:63-94 | `ctx.addIssue` under a condition: the field is flagged exactly when the condition holds |
| CardSchemas.HolderChecks | src/services/credit-cards/schemas.ts:63-94 | flags the member, the bank and the limit exactly when each is blank, and the holder name exactly when it is not blank |
| CardSchemas.HolderIssues | src/services/credit-cards/schemas.ts:62-96 | the HOLDER checks for a HOLDER card, no issue for any other card type |
| CardSchemas.Accepts | src/services/credit-cards/schemas.ts:3-96 | acceptance implies every field check: name length 3..100, last digits blank or four digits, due day readable as 1..31, limit blank or non-negative. A HOLDER card is accepted exactly when it has a member, a bank and a limit and no holder name. A THIRD_PARTY card is accepted exactly when its fields pass |
| CardSchemas.TrailingLetterAccepted | src/services/credit-cards/schemas.ts:52-56 | '5x' is a valid due day, since `parseInt` reads only the leading number |
| CardSchemas.DayZeroRejected | src/services/credit-cards/schemas.ts:55 | '0' is not a valid due day |
| CardSchemas.RenderedDayValidIff | src/services/credit-cards/schemas.ts:47-60 | a day written in decimal is a valid due day exactly when it lies in 1..31, so '32' is rejected like '0' |
| CardSchemas.FourDigitsAccepted | src/services/credit-cards/schemas.ts:23-32 | any four-digit string is valid last digits |
| AccountSchemas.BankCodeValidIff | src/services/accounts/schemas.ts:11-17 | a bank code is accepted exactly when it is non-empty, all digits, and not all zeros |
| AccountSchemas.DigitsValuePositive | src/services/accounts/schemas.ts:16 | a digit string with a non-zero digit reads as a positive number |
| AccountSchemas.BlankToNone | src/services/accounts/schemas.ts:34-37 | blank values become undefined, and any other becomes its trimmed, non-empty form |
| AccountSchemas.BlankToNoneIdempotent | src/services/accounts/schemas.ts:47-50 | applying the transform to its own output changes nothing |
| AccountSchemas.LeadingBlankRejected | src/services/accounts/schemas.ts:42-46 | agency ' 12' is rejected, because the pattern is matched against the untrimmed value |
| AccountSchemas.Parse | src/services/accounts/schemas.ts:4-64 | succeeds exactly when all of these pass: the name length check, the bank code check, the initial balance (blank or a non-negative number), and agency and account (blank, or digits and hyphens). It then passes name, bank code and owner through, and transforms the three optional fields |
| AccountSchemas.OwnerUnconstrained | src/services/accounts/schemas.ts:19-22 | the owner never decides acceptance: absent, empty or any value gives the same verdict |
| AuthValidation.LoginIssues | src/lib/validations.ts:4-7 | flags the e-mail exactly when it is not an address and the password exactly when it is shorter than 8 |
| AuthValidation.RegisterIssues | src/lib/validations.ts:9-17 | flags an empty name, a bad e-mail, a password shorter than 8, and a confirmation that differs from the password (attached to confirmPassword), each exactly when it happens |
| AuthValidation.RegisterAcceptsIff | src/lib/validations.ts:3-17 | a registration passes exactly when the login form with the same e-mail and password passes, the name is non-empty and the confirmation repeats the password |
| WorkspaceSelection.CreatePayload | src/pages/workspace-selection.tsx:63-67 | the name always; the description exactly when it is non-empty |
| WorkspaceSelection.PayloadOfValidFormIsValid | src/pages/workspace-selection.tsx:20-23 | the payload of a valid form satisfies the same schema |
| WorkspaceSelection.SelectionPage.HandleSelectWorkspace | src/pages/workspace-selection.tsx:57-61 | persists the workspace, selects it in the slice (nothing else in the slice changes), then navigates to '/dashboard' |
| WorkspaceSelection.SelectionPage.CreateSettled | src/pages/workspace-selection.tsx:47-55 | on success: the same steps with the server's workspace, plus a form reset. On failure the store, the slice and the form are unchanged |
| InviteMember.InvitableRole | src/components/invite-member-modal.tsx:45-47 | accepts exactly ADMIN, MEMBER and VIEWER; never OWNER |
| InviteMember.ParseInvite | src/components/invite-member-modal.tsx:39-52 | succeeds exactly when the e-mail is non-empty, an address and at most 255 characters, the role is invitable and the message is at most 500 characters |
| InviteMember.DefaultRoleIsMember | src/components/invite-member-modal.tsx:81-85 | the form's default role is MEMBER, which the schema accepts |
| InviteMember.Payload | src/components/invite-member-modal.tsx:96-100 | e-mail and role always; the message exactly when it is non-empty |
| InviteMember.NeverInvitesOwner | src/components/invite-member-modal.tsx:45-47 | no invitation that passes the schema grants OWNER |
| InviteMember.InviteModal.StartSubmit | src/components/invite-member-modal.tsx:88-101 | without a selected workspace: one alert, no request, loading flag untouched. Otherwise the loading flag goes up and the payload is sent to that workspace |
| InviteMember.InviteModal.FinishSubmit | src/components/invite-member-modal.tsx:101-113 | success alerts, resets the form and closes the dialog; failure alerts the error's message (or the generic one) and changes nothing else; in both the loading flag ends false |
| InviteMember.InviteModal.HandleOpenChange | src/components/invite-member-modal.tsx:116-121 | the dialog follows the request; closing it also resets the form |
| CreditCardModal.OrEmpty | src/components/credit-card-modal.tsx:60-63 | `x \|\| ''`: the value when truthy, '' otherwise |
| CreditCardModal.Prefill | src/components/credit-card-modal.tsx:56-78 | a new card: HOLDER, due day '10', every text field ''. An edited card: its name, type and due day, its brand's name or none, its holder, member and last digits or '', its own bank code or its account's or ''. The limit is 'X,YY' when non-zero and '' otherwise |
| CreditCardModal.PrefilledDueDateReadsBack | src/components/credit-card-modal.tsx:67 | the due day written by `String(card.dueDate)` reads back through `parseInt` as the card's day |
| CreditCardModal.LastFourMask | src/components/credit-card-modal.tsx:256 | the first four of the input's digits: all of them when there are fewer than four, exactly four otherwise |
| CreditCardModal.LastFourMaskValidIff | src/components/credit-card-modal.tsx:345 | what the mask leaves passes the schema's last-digits check exactly when it is empty or four digits long |
| CreditCardModal.CreditLimitMask | src/components/credit-card-modal.tsx:287-296 | '' when the input has no digits, otherwise the digits read as cents and written as 'X,YY' |
| Js.KeepDigits | src/components/credit-card-modal.tsx:256 | `replace(/\D/g, '')`: only digits remain, never more characters than the input, and a digit string is left alone |
| Js.KeepDigitsKeepsEveryDigit | src/components/credit-card-modal.tsx:256 | drops nothing else: every digit of the input is kept, as often as it occurs, and in the same order |
| CreditCardModal.DigitsOfAmount | src/components/credit-card-modal.tsx:375-384 | the digits of a non-negative amount's text spell the amount |
| CreditCardModal.CreditLimitMaskIdempotent | src/components/credit-card-modal.tsx:375-384 | masking an already masked limit changes nothing |
| CreditCardModal.CreditLimitMaskAccepted | src/components/credit-card-modal.tsx:287-296 | a masked limit passes the schema's limit check and reads back through `currencyToCents` as the cents typed |
| CreditCardModal.BuildSubmitData | src/components/credit-card-modal.tsx:108-139 | builds the payload `IsSubmitDataOf` describes. Name, type and due day (`parseInt`, always in 1..31) always. The brand only when set. The holder name only for a THIRD_PARTY card with a non-empty one. Member, bank code, last digits and limit each exactly when non-empty, as entered |
| CreditCardModal.SubmitDataDetermined | src/components/credit-card-modal.tsx:108-139 | `IsSubmitDataOf` fixes the payload: two payloads that both fit the same form data are equal |
| CreditCardModal.IsLoading | src/components/credit-card-modal.tsx:163 | true exactly when either mutation is pending; the bank-account form's flag (src/hooks/use-bank-account-form.ts:85) is the same function |
| CreditCardModal.CardTypeRule | src/components/credit-card-modal.tsx:85-93 | a HOLDER card's holder name is cleared; any other form is left as it is |
| CreditCardModal.CardModal.constructor | src/components/credit-card-modal.tsx:54-93 | the form starts from the prefill, after the card-type rule has run |
| CreditCardModal.CardModal.SetLastFourDigits | src/components/credit-card-modal.tsx:255-258 | the last-digits field becomes the mask of the input and nothing else changes |
| CreditCardModal.CardModal.SetCreditLimit | src/components/credit-card-modal.tsx:286-297 | the limit field becomes the mask of the input and nothing else changes |
| CreditCardModal.CardModal.SetCardType | src/components/credit-card-modal.tsx:82-93 | choosing HOLDER clears the holder name; choosing THIRD_PARTY keeps it |
| CreditCardModal.CardModal.Submit | src/components/credit-card-modal.tsx:108-156 | nothing is sent unless the schema accepts the form. An accepted form goes to the update mutation of the edited card, or to create for a new card, and the body sent is the payload built from the form's values |
| CreditCardModal.CardModal.Close | src/components/credit-card-modal.tsx:158-161 | the dialog closes and the form returns to the prefill |
| BankAccountForm.Text | src/hooks/use-bank-account-form.ts:45-51 | `x \|\| ''`: the value when truthy, '' otherwise |
| BankAccountForm.BalanceText | src/hooks/use-bank-account-form.ts:47-49 | the balance in 'X,YY' form when it is non-zero, '' when it is zero or missing |
| BankAccountForm.Prefill | src/hooks/use-bank-account-form.ts:41-62 | an edited account gives its name and its other fields, with null or absent values as ''. Without an account every field is '' |
| BankAccountForm.PrefilledBalanceReadsBack | src/hooks/use-bank-account-form.ts:47-49 | a non-zero stored balance reads back from the prefilled text through `currencyToCents` as the same cents |
| BankAccountForm.BalanceTextValidIff | src/hooks/use-bank-account-form.ts:47-49 | the prefilled balance passes the schema's balance check exactly when the stored balance is missing or not negative |
| BankAccountForm.PrefilledAccountAcceptedIff | src/hooks/use-bank-account-form.ts:41-52 | the prefilled form of an account passes the schema exactly when its name, bank code, agency and account pass and its balance is not negative. An account with a negative balance cannot be saved again as it is |
| BankAccountForm.BlankFormRejected | src/hooks/use-bank-account-form.ts:53-62 | the blank form of a new account is rejected |
| BankAccountForm.Payload | src/hooks/use-bank-account-form.ts:65-73 | name and bank code always; owner, balance, agency and account each exactly when truthy, and then unchanged |
| BankAccountForm.SubmittedPayload | src/hooks/use-bank-account-form.ts:65-73 | after the schema's transforms the payload holds balance, agency and account trimmed exactly when they are not blank, and the owner exactly when it is not empty |
| BankAccountForm.TrimmedBalanceSubmitted | src/hooks/use-bank-account-form.ts:65-73 | an accepted form whose balance text has no surrounding blanks sends that text unchanged |
| BankAccountForm.RequestFor | src/hooks/use-bank-account-form.ts:24-27 | the update mutation of the account exactly when one is edited, else create; the body is the payload |
| BankAccountForm.AccountFormHook.constructor | src/hooks/use-bank-account-form.ts:29-63 | the form ends up holding the prefill; nothing has been sent |
| BankAccountForm.AccountFormHook.SetValues | src/hooks/use-bank-account-form.ts:29-39 | typing changes only the values |
| BankAccountForm.AccountFormHook.Submit | src/hooks/use-bank-account-form.ts:65-83 | nothing is sent unless the schema accepts the values; otherwise exactly one request, to the mutation `RequestFor` chooses |
| BankAccountForm.AccountFormHook.Settled | src/hooks/use-bank-account-form.ts:77-82 | only a success calls `onSuccess` (once) and resets the form to the prefill; a failure changes nothing |
| AccountsUtils.TwoDigits | src/services/accounts/index.ts:16 | two digits spelling `n mod 100` |
| AccountsUtils.CentsToCurrency | src/services/accounts/index.ts:15-17 | '-' for a negative amount, then the whole part of the absolute value, ',', and exactly two digits; never a '.' or a thousands separator |
| AccountsUtils.FormatCurrency | src/services/accounts/index.ts:30-32 | 'R$ ' followed by the amount's text |
| AccountsUtils.KeepNumeric | src/services/accounts/index.ts:23 | keeps only digits, '.' and '-', and leaves text made of them alone |
| AccountsUtils.KeepNumericKeepsEveryNumericChar | src/services/accounts/index.ts:23 | drops nothing else: every digit, '.' and '-' of the input is kept, as often as it occurs, and in the same order |
| AccountsUtils.CleanedAmount | src/services/accounts/index.ts:23-24 | the text handed to `parseFloat` is never empty and holds only digits, '.' and '-' |
| AccountsUtils.CurrencyToCents | src/services/accounts/index.ts:22-25 | NaN exactly when the cleaned text has no decimal reading; otherwise that reading times 100, rounded half up |
| AccountsUtils.CleanedNeverInfinite | src/services/accounts/index.ts:23-24 | the cleaned text never reads as Infinity |
| AccountsUtils.NoNumberIsZero | src/services/accounts/index.ts:24 | a value with no digit, '.' or '-' reads as zero cents, through the `\|\| '0'` fallback |
| AccountsUtils.ParseDecimalText | src/services/accounts/index.ts:24 | digits, '.', digits read as the decimal they spell |
| AccountsUtils.ParseNegativeDecimalText | src/services/accounts/index.ts:24 | the same with a leading '-' |
| AccountsUtils.CentsTextCleaned | src/services/accounts/index.ts:23 | cleaning an amount's text only turns its ',' into '.' |
| AccountsUtils.PositiveCurrencyTrimmed | src/services/accounts/index.ts:15-17 | the text of a positive amount begins and ends with a digit, so trimming it changes nothing |
| AccountsUtils.DecimalCentsOfAmount | src/services/accounts/index.ts:24 | the rounding step returns exactly the amount the text was written from |
| AccountsUtils.CurrencyRoundTrip | src/services/accounts/index.ts:12-25 | `currencyToCents(centsToCurrency(c)) == c` for every integer number of cents, negative ones included |
| AccountsUtils.ReplaceFirstAfter | src/services/accounts/index.ts:23 | only the first ',' is replaced |
| AccountsUtils.UnsignedAmountTextAccepted | src/services/accounts/schemas.ts:27-33 | the unsigned text of an amount passes the amount fields' check |
| AccountsUtils.SignedAmountTextRejected | src/services/accounts/schemas.ts:27-33 | the signed text of an amount with a non-zero digit fails it |
| AccountsUtils.AmountTextValidIff | src/services/accounts/schemas.ts:27-33 | the text of an amount passes the amount fields' check exactly when the amount is not negative |
| AccountsUtils.AmountCheckOfReading | src/services/accounts/schemas.ts:27-33 | for text without surrounding blanks the check is a test of the sign of its `parseFloat` reading |
| CardUtils.GetBrandIcon | src/lib/credit-card-utils.ts:14-24 | null exactly for an absent or empty brand. A known brand's icon exactly for that brand's name. undefined exactly for any other string (names inherited from `Object.prototype` aside, see Left out) |
| CardUtils.FormatCardNumber | src/lib/credit-card-utils.ts:27-32 | '**** **** **** ' followed by the digits when they are non-empty, or by '****' otherwise |
| CardUtils.GetHolderName | src/lib/credit-card-utils.ts:35-43 | the owner's name for a HOLDER card with an owner, the holder name for a THIRD_PARTY card with a non-empty one, 'Titular' otherwise |
| CardUtils.HolderNameSources | src/lib/credit-card-utils.ts:36-41 | a HOLDER card's holder name is never shown, and a THIRD_PARTY card's owner never is |
| CardUtils.CardTypeLabel | src/lib/credit-card-utils.ts:46-48 | 'Titular' for HOLDER, 'Terceiros' for THIRD_PARTY |
| BrasilApi.OptionOf | src/services/brasilapi.ts:50-55 | value is the code in decimal. The label is at least 3 characters of code, then ' - ', then ending with the name. Code and ispb are copied |
| BrasilApi.UsableOptions | src/services/brasilapi.ts:48-55 | never more options than banks |
| BrasilApi.Insert | src/services/brasilapi.ts:56 | inserting adds exactly that option: the result is the input plus one, as a multiset |
| BrasilApi.SortByLabel | src/services/brasilapi.ts:56 | a permutation of its input |
| BrasilApi.FormatBanksForSelect | src/services/brasilapi.ts:43-57 | [] for a null or empty input; otherwise a permutation of the options of the usable banks |
| BrasilApi.InsertKeepsSorted | src/services/brasilapi.ts:56 | inserting into a list ordered by label keeps it ordered, for any total and transitive comparison |
| BrasilApi.SortByLabelSorted | src/services/brasilapi.ts:56 | the sorted list is ordered by label |
| BrasilApi.FormattedSorted | src/services/brasilapi.ts:56 | the options come out ordered by label |
| BrasilApi.UsableOptionsCount | src/services/brasilapi.ts:48-55 | one option per usable bank |
| BrasilApi.SourceOf | src/services/brasilapi.ts:49-55 | every option is the option of a usable bank of the input |
| BrasilApi.FormattedCount | src/services/brasilapi.ts:43-57 | the output has as many options as the input has usable banks (a non-null code and a non-empty name; code 0 counts) |
| BrasilApi.FormattedSource | src/services/brasilapi.ts:43-57 | every option of the output is built from a usable bank of the input |
| BrasilApi.UsableOptionPresent | src/services/brasilapi.ts:48-55 | every usable bank's option survives the filter and map |
| BrasilApi.UsableBankListed | src/services/brasilapi.ts:43-57 | every usable bank of the input has its option in the output |
| BrasilApi.OptionValueReadsBack | src/services/brasilapi.ts:51 | an option's value reads back through `parseInt` as the bank's code |
| QueryClient.QueryRetry | src/lib/query-client.ts:7-14 | never for a truthy status in 400..499; otherwise exactly while fewer than 2 failures |
| QueryClient.MutationRetry | src/lib/query-client.ts:30-37 | never for a truthy status in 400..499; otherwise exactly while fewer than 1 failure |
| QueryClient.QueryRetriedAtMostTwice | src/lib/query-client.ts:7-14 | a query that keeps failing is retried exactly twice, or never on a 4xx error (a missing or zero status is retried) |
| QueryClient.MutationRetriedAtMostOnce | src/lib/query-client.ts:30-37 | a mutation that keeps failing is retried exactly once, or never on a 4xx error |
| QueryClient.RetryDelay | src/lib/query-client.ts:15 | the smaller of `1000 * 2^k` and 30000 milliseconds |
| QueryClient.FirstDelay | src/lib/query-client.ts:15 | the first delay is 1000 |
| QueryClient.RetryDelayMonotone | src/lib/query-client.ts:15 | the delay never decreases from one attempt to the next |
| QueryClient.RetryDelayCapped | src/lib/query-client.ts:15 | from attempt index 5 on the delay is exactly 30000 |
| QueryClient.RetryDelayDoubles | src/lib/query-client.ts:15 | below the cap the delay doubles each time |
| CardsList.Apply | src/hooks/use-credit-cards-list.ts:12-61 | handleEdit opens the modal on that card. The raw `setConfirmDialog` replaces the dialog's open flag and card. handleDelete opens the dialog holding that card. confirmDelete closes and empties the dialog. handleModalClose closes the modal and clears the card. handleNewCard opens the modal with no card. The dialog handlers leave the modal alone, and the modal handlers leave the dialog alone |
| CardsList.Requests | src/hooks/use-credit-cards-list.ts:32-49 | a delete is requested only by confirmDelete with a card held, and then exactly for that card's id |
| CardsList.EditingOnlyWhenOpenKept | src/hooks/use-credit-cards-list.ts:12-61 | from any state where a card is edited only while the modal is open, every sequence of handlers keeps that so |
| CardsList.DeleteThenConfirm | src/hooks/use-credit-cards-list.ts:28-51 | delete then confirm requests exactly that card's id and ends with the dialog closed and empty and the modal as it was |
| CardsList.CardsListHook.constructor | src/hooks/use-credit-cards-list.ts:12-17 | modal closed, no card edited, dialog closed and empty, nothing requested |
| CardsList.CardsListHook.HandleEdit | src/hooks/use-credit-cards-list.ts:23-26 | the state becomes `Apply` of handleEdit; no request |
| CardsList.CardsListHook.HandleDelete | src/hooks/use-credit-cards-list.ts:28-30 | the state becomes `Apply` of handleDelete; no request |
| CardsList.CardsListHook.ConfirmDelete | src/hooks/use-credit-cards-list.ts:32-51 | the state becomes `Apply` of confirmDelete, and the requests grow by exactly `Requests` of it |
| CardsList.CardsListHook.HandleModalClose | src/hooks/use-credit-cards-list.ts:53-56 | the state becomes `Apply` of handleModalClose; no request |
| CardsList.CardsListHook.HandleNewCard | src/hooks/use-credit-cards-list.ts:58-61 | the state becomes `Apply` of handleNewCard; no request |
| CardsList.CardsListHook.SetConfirmDialog | src/hooks/use-credit-cards-list.ts:75 | the raw setter replaces the dialog state; no request |
| BankAccountsList.FindIndex | src/components/bank-accounts-list.tsx:79 | the index of the first option whose value is the code, or none exactly when no option has it |
| BankAccountsList.FindBank | src/components/bank-accounts-list.tsx:79 | the option at that first index |
| BankAccountsList.GetBankName | src/components/bank-accounts-list.tsx:77-81 | 'Banco não informado' for an empty or missing code. The label of the first option with that value when there is one. 'Banco ' + code otherwise |
| BankAccountsList.ListedCodeShowsLabel | src/components/bank-accounts-list.tsx:79-80 | a code listed first at index i shows the label of option i |
| BankAccountsList.Apply | src/components/bank-accounts-list.tsx:41-74 | as for the card list, except that the "new account" buttons only open the modal and keep the edited account, and the dialog's onOpenChange keeps the held account |
| BankAccountsList.Requests | src/components/bank-accounts-list.tsx:50-67 | a delete is requested only by confirmDelete with an account held, and then exactly for its id |
| BankAccountsList.EditingOnlyWhenOpenKept | src/components/bank-accounts-list.tsx:41-118 | every sequence of handlers keeps "an account is edited only while the modal is open" |
| BankAccountsList.EditCloseThenNew | src/components/bank-accounts-list.tsx:71-74 | edit, close, then "new account" opens the modal with nothing to edit |
| BankAccountsList.DeleteThenConfirm | src/components/bank-accounts-list.tsx:46-69 | delete then confirm requests exactly that account's id and leaves the dialog closed and empty |
| BankAccountsList.DismissKeepsHeldAccount | src/components/bank-accounts-list.tsx:215 | dismissing the dialog sends nothing and keeps the account it held |
| BankAccountsList.BankAccountsListState.constructor | src/components/bank-accounts-list.tsx:28-33 | modal closed, no account edited, dialog closed and empty, nothing requested |
| BankAccountsList.BankAccountsListState.HandleEdit | src/components/bank-accounts-list.tsx:41-44 | the state becomes `Apply` of handleEdit; no request |
| BankAccountsList.BankAccountsListState.HandleDelete | src/components/bank-accounts-list.tsx:46-48 | the state becomes `Apply` of handleDelete; no request |
| BankAccountsList.BankAccountsListState.ConfirmDelete | src/components/bank-accounts-list.tsx:50-69 | the state becomes `Apply` of confirmDelete, and the requests grow by exactly `Requests` of it |
| BankAccountsList.BankAccountsListState.HandleModalClose | src/components/bank-accounts-list.tsx:71-74 | the state becomes `Apply` of handleModalClose; no request |
| BankAccountsList.BankAccountsListState.OpenNewAccount | src/components/bank-accounts-list.tsx:99 | the state becomes `Apply` of the button; no request |
| BankAccountsList.BankAccountsListState.DialogOpenChange | src/components/bank-accounts-list.tsx:215 | the state becomes `Apply` of onOpenChange; no request |
| DashboardHeader.FirstChars | src/components/layouts/dashboard-header.tsx:22-23 | one character at most per word |
| DashboardHeader.NonEmptyWords | src/components/layouts/dashboard-header.tsx:21 | the words that are not empty, none of them empty |
| DashboardHeader.GetUserInitials | src/components/layouts/dashboard-header.tsx:19-26 | at most two characters |
| DashboardHeader.FirstCharsOfWords | src/components/layouts/dashboard-header.tsx:22-23 | the first characters are those of the non-empty words, in order; empty words contribute nothing |
| DashboardHeader.InitialsOfWords | src/components/layouts/dashboard-header.tsx:19-26 | the initials are the upper-cased first characters of the first two non-empty ' '-separated words |
| DashboardHeader.ThreeWords | src/components/layouts/dashboard-header.tsx:19-26 | with three words only the first two initials appear |
| DashboardHeader.ThreeWordExample | src/components/layouts/dashboard-header.tsx:19-26 | 'ana maria silva' shows 'AM' |
| DashboardHeader.SplitThreeWords | src/components/layouts/dashboard-header.tsx:21 | three space-free words joined by single spaces split back into those words |
| DashboardHeader.AvatarText | src/components/layouts/dashboard-header.tsx:93 | 'U' when there is no user or the name is empty, the initials otherwise |
| DashboardHeader.NonBlankNameShowsInitial | src/components/layouts/dashboard-header.tsx:93 | a name with some character other than ' ' always shows an initial |
| DashboardHeader.SpacesOnlyNameShowsNothing | src/components/layouts/dashboard-header.tsx:93 | a name of spaces only is truthy, so it shows an empty avatar and not 'U' |
| QueryCache.Cache.Invalidate | src/services/credit-cards/hooks.ts:57-59 | afterwards a key is stale exactly when it was stale before or the filter is a prefix of it; cached data is unchanged |
| QueryCache.Cache.SetQueryData | src/services/credit-cards/hooks.ts:78-81 | exactly that key's entry is written |
| CardHooks.AllIsPrefix | src/services/credit-cards/hooks.ts:8-15 | `all` is a prefix of every key except the members key |
| CardHooks.KeysDistinct | src/services/credit-cards/hooks.ts:8-15 | different builder calls give different keys: a list key is never a detail key, and lists of different workspaces differ |
| CardHooks.ListFilterHitsOnlyThatList | src/services/credit-cards/hooks.ts:11 | invalidating `list(ws)` hits that list and no other key the builders make |
| CardHooks.ListEnabled | src/services/credit-cards/hooks.ts:23 | the list and members queries run exactly for a non-empty workspace id |
| CardHooks.DetailEnabled | src/services/credit-cards/hooks.ts:35 | the detail query runs exactly when both the workspace id and the card id are non-empty |
| CardHooks.DetailQueryKey | src/services/credit-cards/hooks.ts:30 | the detail key of the card id, or of '' without one |
| CardHooks.DetailQueryFn | src/services/credit-cards/hooks.ts:31-34 | throws exactly without a card id; otherwise asks for that card |
| CardHooks.EnabledDetailNeverThrows | src/services/credit-cards/hooks.ts:30-35 | whenever the detail query is enabled it does not throw, and it asks for the card its key names |
| CardHooks.OnCreateSuccess | src/services/credit-cards/hooks.ts:55-60 | invalidates exactly `list(ws)`: among builder keys exactly that list becomes stale; no data is written |
| CardHooks.OnUpdateSuccess | src/services/credit-cards/hooks.ts:71-82 | invalidates exactly `list(ws)` and writes the returned card under `detail(ws, cardId)` |
| CardHooks.OnDeleteSuccess | src/services/credit-cards/hooks.ts:92-97 | invalidates exactly `list(ws)`; no data is written |
| AccountHooks.AllIsPrefix | src/services/accounts/hooks.ts:8-15 | `all` is a prefix of every key except the members key |
| AccountHooks.KeysDistinct | src/services/accounts/hooks.ts:8-15 | different builder calls give different keys; lists of different workspaces differ |
| AccountHooks.ListFilterHitsOnlyThatList | src/services/accounts/hooks.ts:11 | invalidating `list(ws)` hits that list and no other key the builders make |
| AccountHooks.MembersKeyShared | src/services/accounts/hooks.ts:15 | the members key is the credit-card hooks' members key, and no other card key |
| AccountHooks.OnlyMembersKeyShared | src/services/accounts/hooks.ts:8-15 | the only key the two builders share is the members key of one workspace |
| AccountHooks.ListEnabled | src/services/accounts/hooks.ts:23 | the list and members queries run exactly for a non-empty workspace id |
| AccountHooks.DetailEnabled | src/services/accounts/hooks.ts:35 | the detail query runs exactly when both ids are non-empty |
| AccountHooks.DetailQueryKey | src/services/accounts/hooks.ts:30 | the detail key of the account id, or of '' without one |
| AccountHooks.DetailQueryFn | src/services/accounts/hooks.ts:31-34 | throws exactly without an account id; otherwise asks for that account |
| AccountHooks.EnabledDetailNeverThrows | src/services/accounts/hooks.ts:30-35 | an enabled detail query never throws |
| AccountHooks.OnCreateSuccess | src/services/accounts/hooks.ts:55-60 | invalidates exactly `list(ws)`; no data is written |
| AccountHooks.OnUpdateSuccess | src/services/accounts/hooks.ts:71-82 | invalidates exactly `list(ws)` and writes the returned account under `detail(ws, accountId)` |
| AccountHooks.OnDeleteSuccess | src/services/accounts/hooks.ts:93-98 | invalidates exactly `list(ws)`; no data is written |

## Session behaviour as the code has it

- **No owner check.** The initialiser reads the stored selection "only if the token is valid and belongs to the same user", as its comment says (src/hooks/use-auth-initialization.ts:35-36). It also passes `tokenData.sub` to the read (src/hooks/use-auth-initialization.ts:37). But `getSelectedWorkspace` takes no argument, and the entry holds the bare workspace with no owner id (src/services/workspace.ts:137-145). Any user therefore gets whatever selection is stored. See "## Findings".
- **Corrupt entry.** Corrupt text in the workspace entry makes `getSelectedWorkspace` throw, and the read leaves the entry in place. The initialiser's `catch` then removes both the token and the entry. Outside the initialiser, a guard that reads the entry fails to render (`AuthGuard.Decide` returns `RenderFails`).
- **Stores on logout.** The logout callback removes the token but not the persisted selection (src/hooks/use-auth.ts:54-58). The `login` reducer keeps whatever selection the state held (src/store/slices/authSlice.ts:23-27).
- **What a guard reads.** The guards check that a cookie token is present and that there is a user in the state (src/components/guards/auth-guard.tsx:17, 28). They never read the state's `isAuthenticated` flag.
- **Start-up runs once.** The start-up query and its effect are gated only by `isInitialized` and `isLoading`; there is no separate in-flight marker. `AuthInitialization.EffectFiresAtMostOnce` shows that the effect's dispatch still happens at most once per load.

## Findings

| source | as written | input that shows it | evidently intended | confidence | as-written member | corrected member |
|---|---|---|---|---|---|---|
| src/hooks/use-auth-initialization.ts:35-37, src/services/workspace.ts:142-145 | `getSelectedWorkspace(tokenData.sub)` ignores the user id: the stored workspace goes to whichever user the token names | user A selects workspace W, logs out (the entry stays), user B logs in; on the next load B starts in W | the stored selection is returned only to the user who saved it, as the comment above the call says | not executed | AuthInitialization.StoredSelectionIgnoresUser | AuthInitialization.ReconcileOwnerChecked |

`AuthGuard.LeftoverSelectionAdmitsNextUser` shows the same gap at the workspace guard. The owner-checked version keeps the id of the saving user beside the entry, which the program's storage does not. `AuthInitialization.OwnerCheckedIgnoresOthersSelection` runs the input above through both definitions. `AuthInitialization.OwnerCheckedAgreesForOwner` shows that the check changes nothing for the user who saved the selection. Everywhere else the model keeps the program's behaviour, because that is what runs.

## Left out

- HTTP plumbing: `makeRequest`/`fetch` and every request to the server (login, sign-up, workspace, card, account and bank-list calls). The server's behaviour is not visible; a request's outcome is an input (`Option` of the returned record, or an `Outcome`).
- src/services/accounts.ts, the older duplicate client, is not part of this model. Its formatting depends on `toLocaleString('pt-BR')`.
- Floating point. `toFixed(2)` and `Math.round(parseFloat(...) * 100)` are computed on exact decimals. The model agrees with the program only for amounts of at most 10^15 cents in absolute value, written with at most two fraction digits. Every text `centsToCurrency` produces for such an amount is of that kind. Within that bound a double is within 2^-10 of the two-decimal value, so `toFixed(2)` and the rounding in `currencyToCents` return the exact cents. Above it the program can differ well below 2^53. `centsToCurrency(7036874417766401)` prints '70368744177664,02', because the nearest double is 70368744177664.015625, where `AccountsUtils.CentsToCurrency` gives '70368744177664,01'. `currencyToCents('70368744177664,01')` returns 7036874417766402, where the model gives 7036874417766401. So `AccountsUtils.CurrencyRoundTrip` holds of the program only within the bound. With a third fraction digit the program rounds a binary double and can differ at any size: for '1,005' it computes `Math.round(100.49999999999999) = 100`, where the model gives 101.
- Js.ParseFloat: the exponent part (`e`/`E` and digits) is not read; the reading stops before it. `currencyToCents` never meets one, because `AccountsUtils.KeepNumeric` leaves no letters. The amount checks, however, read the user's raw text. There a negative number whose exponent underflows to zero, such as '-1e-400', reads as `-0`, and `-0 >= 0` holds, so the program accepts it. The model reads only '-1' and rejects it (`Js.BlankOrNonNegativeAmount`). A negative zero written without an exponent, such as '-0,00', is accepted by both.
- CreditCardModal.CreditLimitMask: `parseInt` of the digit string and the division by 100 are taken as exact. The program agrees only while the digits' value is at most 10^15. Above that it can differ even below 2^53: for the digits '7036874417766401' it shows '70368744177664,02', where the model shows '70368744177664,01'.
- String lengths count Dafny characters, not UTF-16 code units; `toUpperCase` is modelled on ASCII letters only; `localeCompare` is a comparison parameter, assumed total and transitive where sortedness is proved.
- `atob` and `JSON.parse` are one partial function parameter (with `atob`'s alphabet checked explicitly); zod's `.email()` is a predicate parameter; JSON of the stored workspace is a datatype (`Saved`, `EmptyText`, `Corrupt`).
- Cookie attributes (expiry, path, SameSite, Secure) and the DOM `dark` class beyond a boolean are not modelled.
- React and TanStack runtime behaviour: rendering, effect scheduling, re-fetching, staleness timers and garbage collection. `isLoading` and `isInitialized` are inputs, and the query cache is reduced to the invalidated filters and the entries written by `setQueryData`.
- The retry loop itself: `QueryClient.Retries` counts retries of a request that keeps failing with one status; the timing of the retries is `RetryDelay` alone.
- Toasts, alerts other than the invite dialog's, and navigation details beyond the target path, `replace` and the state message.
- AuthSlice.Patched: an explicit `undefined` in an `updateUser` patch, which overwrites a field with `undefined` in JavaScript, is treated as an omitted field.
- CardSchemas.Accepts: zod's issue messages and the order in which it reports issues are not modelled, only whether the form is accepted and, for the HOLDER rule, which fields are flagged.
- UseAuth.OnLoginSuccess: the `catch` that turns an exception from the success steps into a generic error is not modelled; none of the modelled steps can throw.
- AuthService.DecodeTokenIn: the token's claims are modelled as strings only (`Claims` maps names to strings). In the program a claim may be any JSON value. A truthy non-string name, as in `{"name": 42}`, makes `fullName.split(' ')` throw, and the `catch` at src/services/auth.ts:89-91 turns that into null. The model, which cannot express such a payload, promises a user for every payload that parses. A non-string `sub` or `email` is passed on into the user unchanged by the program; the model has no such value either.
- CardUtils.GetBrandIcon: the brand is looked up in an object literal, so a name inherited from `Object.prototype` (such as 'toString' or 'constructor') returns that inherited member; the model returns `undefined` for every string other than the six brands.
- BrasilApi.OptionOf: the label is stated by its length and its ending in the bank's name; the padding of the code is left to `Js.PadStart`.
- Other presentation components, pages and layouts, routing, configuration and the bootstrap files are not part of this model. Of the presentation code, the model covers only the logic of the workspace-selection page, the dashboard header, the invite-member dialog, the credit-card dialog and the bank-account list. Their markup and styling are not modelled.
