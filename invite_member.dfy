/**
 * The invite-member dialog: its schema, the invite payload, and the dialog's state
 * (open, loading, the form's values and the alerts shown) across a submission.
 * The request itself is split in two: it starts, and later it settles.
 */
module InviteMember {
  import opened Wrappers
  import opened Types
  import opened Js

  /** The form's raw values. */
  datatype InviteForm = InviteForm(email: string, role: string, message: Option<string>)

  /** The values the schema hands to the submit handler. */
  datatype InviteValues = InviteValues(email: string, role: WorkspaceRole, message: Option<string>)

  /** The request body of an invitation. */
  datatype InviteRequest = InviteRequest(email: string, role: WorkspaceRole, message: Option<string>)

  /** How the invitation request ended: sent, or failed with an `Error`'s message (`None` when
      the thing thrown was not an `Error`). */
  datatype Outcome = Sent | Failed(errorMessage: Option<string>)

  /** The form the dialog opens with and returns to on reset. */
  const DefaultForm: InviteForm := InviteForm("", "MEMBER", Some(""))

  const NoWorkspaceAlert: string := "Nenhum workspace selecionado"
  const GenericErrorAlert: string := "Erro ao enviar convite. Tente novamente."

  /** The roles an invitation can grant; `OWNER` is not among them. */
  function InvitableRole(s: string): (r: Option<WorkspaceRole>)
    ensures r.Some? <==> s == "ADMIN" || s == "MEMBER" || s == "VIEWER"
    ensures r.Some? ==> r.value != Owner && r.value.Name() == s
  {
    if s == "ADMIN" then Some(Admin)
    else if s == "MEMBER" then Some(Member)
    else if s == "VIEWER" then Some(Viewer)
    else None
  }

  /** `inviteFormSchema`: the values, or `None` when a check fails. */
  function ParseInvite(f: InviteForm, isEmail: string -> bool): (r: Option<InviteValues>)
    ensures r.Some? <==>
      && 1 <= |f.email| <= 255 && isEmail(f.email)
      && InvitableRole(f.role).Some?
      && (f.message.None? || |f.message.value| <= 500)
    ensures r.Some? ==> r.value.email == f.email && r.value.message == f.message
    ensures r.Some? ==> r.value.role != Owner && r.value.role.Name() == f.role
  {
    if 1 <= |f.email| <= 255 && isEmail(f.email) && InvitableRole(f.role).Some?
       && (f.message.None? || |f.message.value| <= 500)
    then Some(InviteValues(f.email, InvitableRole(f.role).value, f.message))
    else None
  }

  /** The default role is `MEMBER`, which the schema accepts. */
  lemma DefaultRoleIsMember()
    ensures InvitableRole(DefaultForm.role) == Some(Member)
  {
  }

  /** The invitation body: email and role, and the message only when it is non-empty. */
  function Payload(v: InviteValues): (r: InviteRequest)
    ensures r.email == v.email && r.role == v.role
    ensures r.message.Some? <==> Truthy(v.message)
    ensures r.message.Some? ==> r.message == v.message
  {
    InviteRequest(v.email, v.role, if Truthy(v.message) then v.message else None)
  }

  /** No invitation ever grants ownership. */
  lemma NeverInvitesOwner(f: InviteForm, isEmail: string -> bool)
    requires ParseInvite(f, isEmail).Some?
    ensures Payload(ParseInvite(f, isEmail).value).role != Owner
  {
  }

  /** The dialog's state. */
  class InviteModal {
    var open: bool
    var isLoading: bool
    var form: InviteForm
    /** The alerts shown so far, oldest first. */
    var alerts: seq<string>

    constructor ()
      ensures !open && !isLoading && form == DefaultForm && alerts == []
    {
      open := false;
      isLoading := false;
      form := DefaultForm;
      alerts := [];
    }

    /** The start of `onSubmit(values)`: without a selected workspace, an alert and nothing else;
        otherwise the loading flag goes up and the request (workspace id, body) is sent. */
    method StartSubmit(selectedWorkspace: Option<Workspace>, v: InviteValues)
      returns (request: Option<(string, InviteRequest)>)
      modifies this
      ensures selectedWorkspace.None? ==>
        && request.None? && alerts == old(alerts) + [NoWorkspaceAlert]
        && isLoading == old(isLoading) && open == old(open) && form == old(form)
      ensures selectedWorkspace.Some? ==>
        && request == Some((selectedWorkspace.value.id, Payload(v)))
        && isLoading && alerts == old(alerts) && open == old(open) && form == old(form)
    {
      if selectedWorkspace.None? {
        alerts := alerts + [NoWorkspaceAlert];
        return None;
      }
      isLoading := true;
      request := Some((selectedWorkspace.value.id, Payload(v)));
    }

    /** The rest of `onSubmit` once the request settles: success resets the form and closes the
        dialog, failure only alerts; in both cases the loading flag goes down. */
    method FinishSubmit(v: InviteValues, outcome: Outcome)
      modifies this
      ensures !isLoading
      ensures outcome.Sent? ==>
        alerts == old(alerts) + ["Convite enviado para " + v.email] && form == DefaultForm && !open
      ensures outcome.Failed? ==>
        && alerts == old(alerts) + [outcome.errorMessage.GetOr(GenericErrorAlert)]
        && form == old(form) && open == old(open)
    {
      match outcome {
        case Sent =>
          alerts := alerts + ["Convite enviado para " + v.email];
          form := DefaultForm;
          open := false;
        case Failed(message) =>
          alerts := alerts + [message.GetOr(GenericErrorAlert)];
      }
      // the finally block
      isLoading := false;
    }

    /** `handleOpenChange(newOpen)`: closing the dialog also resets the form. */
    method HandleOpenChange(newOpen: bool)
      modifies this
      ensures open == newOpen
      ensures !newOpen ==> form == DefaultForm
      ensures newOpen ==> form == old(form)
      ensures isLoading == old(isLoading) && alerts == old(alerts)
    {
      open := newOpen;
      if !newOpen {
        form := DefaultForm;
      }
    }
  }
}
