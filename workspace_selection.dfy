/**
 * The workspace selection page: the create-workspace schema and payload, and the two
 * ways a workspace becomes the selected one (picking an existing one, or creating one).
 */
module WorkspaceSelection {
  import opened Wrappers
  import opened Types
  import opened Js
  import opened AuthSlice
  import opened WorkspaceService
  import opened Effects

  /** The create form's values; `description` is `None` when the field is absent. */
  datatype CreateForm = CreateForm(name: string, description: Option<string>)

  /** The request body sent to create a workspace. */
  datatype CreateRequest = CreateRequest(name: string, description: Option<string>)

  /** `createWorkspaceSchema`: a name of 1..100 characters, an optional description of at most 500. */
  predicate CreateFormValid(f: CreateForm) {
    1 <= |f.name| <= 100 && (f.description.None? || |f.description.value| <= 500)
  }

  /** The payload of `handleCreateWorkspace`: the name, and the description only when non-empty. */
  function CreatePayload(f: CreateForm): (r: CreateRequest)
    ensures r.name == f.name
    ensures r.description.Some? <==> Truthy(f.description)
    ensures r.description.Some? ==> r.description == f.description
  {
    CreateRequest(f.name, if Truthy(f.description) then f.description else None)
  }

  /** A valid form yields a payload that the same schema accepts again. */
  lemma PayloadOfValidFormIsValid(f: CreateForm)
    requires CreateFormValid(f)
    ensures CreateFormValid(CreateForm(CreatePayload(f).name, CreatePayload(f).description))
  {
  }

  /** The page, with the create form's current values. */
  class SelectionPage {
    var form: CreateForm

    /** The form starts with an empty name and an empty description. */
    constructor ()
      ensures form == CreateForm("", Some(""))
    {
      form := CreateForm("", Some(""));
    }

    /** `handleSelectWorkspace(w)`: persist, select in the slice, go to the dashboard. */
    method HandleSelectWorkspace(selection: SelectionStore, store: AuthStore, w: Workspace)
      returns (effects: seq<Effect>)
      modifies selection, store
      ensures selection.GetSelectedWorkspace() == Normal(Some(w))
      ensures store.State() == old(store.State()).(selectedWorkspace := Some(w))
      ensures effects == [SaveSelection(w), Dispatch(SetSelectedWorkspace(w)), Navigate("/dashboard", true, None)]
    {
      selection.SaveSelectedWorkspace(w);
      store.Dispatch(SetSelectedWorkspace(w));
      effects := [SaveSelection(w), Dispatch(SetSelectedWorkspace(w)), Navigate("/dashboard", true, None)];
    }

    /** The create mutation once it settles: on success (`Some` of the server's workspace) the same
        steps as a selection plus a form reset; on failure nothing changes. */
    method CreateSettled(selection: SelectionStore, store: AuthStore, created: Option<Workspace>)
      returns (effects: seq<Effect>)
      modifies this, selection, store
      ensures created.None? ==>
        effects == [] && form == old(form) && selection.entry == old(selection.entry) && store.State() == old(store.State())
      ensures created.Some? ==>
        && selection.GetSelectedWorkspace() == Normal(Some(created.value))
        && store.State() == old(store.State()).(selectedWorkspace := created)
        && form == CreateForm("", Some(""))
        && effects == [SaveSelection(created.value), Dispatch(SetSelectedWorkspace(created.value)), ResetForm,
                       Navigate("/dashboard", true, None)]
    {
      effects := [];
      if created.Some? {
        var w := created.value;
        selection.SaveSelectedWorkspace(w);
        store.Dispatch(SetSelectedWorkspace(w));
        form := CreateForm("", Some(""));
        effects := [SaveSelection(w), Dispatch(SetSelectedWorkspace(w)), ResetForm, Navigate("/dashboard", true, None)];
      }
    }
  }
}
