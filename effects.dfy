/**
 * The side effects the session handlers perform, recorded in order: writes to the
 * two storage slots, dispatches to the auth slice, form resets and navigation.
 */
module Effects {
  import opened Wrappers
  import opened Types
  import opened AuthSlice

  datatype Effect =
    | SaveToken(token: string)
    | RemoveToken
    | SaveSelection(workspace: Workspace)
    | Dispatch(action: Action)
    | ResetForm
    | Navigate(path: string, replace: bool, message: Option<string>)
}
