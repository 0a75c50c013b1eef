/**
 * The bank-account list: the bank name shown for each account, and the state
 * of the account modal and of the delete confirmation dialog. `Apply` gives
 * the effect of each handler; `BankAccountsListState` holds the state and
 * applies the handlers to its fields, recording every delete request.
 */
module BankAccountsList {
  import opened Wrappers
  import opened Js
  import opened Types
  import opened BrasilApi

  const NoBankText := "Banco não informado"

  /** The index `banks.find(b => b.value === code)` stops at: the first option with that value. */
  function FindIndex(banks: seq<BankOption>, code: string): (r: Option<nat>)
    ensures r.Some? ==> r.value < |banks| && banks[r.value].value == code
    ensures r.Some? ==> forall j :: 0 <= j < r.value ==> banks[j].value != code
    ensures r.None? <==> forall i :: 0 <= i < |banks| ==> banks[i].value != code
  {
    if banks == [] then None
    else if banks[0].value == code then Some(0)
    else match FindIndex(banks[1..], code)
      case None => None
      case Some(i) => Some(i + 1)
  }

  /** `banks.find(b => b.value === code)`. */
  function FindBank(banks: seq<BankOption>, code: string): (r: Option<BankOption>)
    ensures r.None? <==> FindIndex(banks, code).None?
    ensures r.Some? ==> r.value == banks[FindIndex(banks, code).value]
  {
    match FindIndex(banks, code)
    case None => None
    case Some(i) => Some(banks[i])
  }

  /** `getBankName(bankCode)`. */
  function GetBankName(bankCode: Option<string>, banks: seq<BankOption>): (name: string)
    ensures !Truthy(bankCode) ==> name == NoBankText
    ensures Truthy(bankCode) && FindBank(banks, bankCode.value).Some? ==>
      name == FindBank(banks, bankCode.value).value.labelText
    ensures Truthy(bankCode) && FindBank(banks, bankCode.value).None? ==> name == "Banco " + bankCode.value
  {
    if !Truthy(bankCode) then NoBankText
    else match FindBank(banks, bankCode.value)
      case Some(b) => b.labelText
      case None => "Banco " + bankCode.value
  }

  /** A code listed in the options shows the label of the first option with that value. */
  lemma ListedCodeShowsLabel(bankCode: string, banks: seq<BankOption>, i: nat)
    requires bankCode != [] && i < |banks| && banks[i].value == bankCode
    requires forall j :: 0 <= j < i ==> banks[j].value != bankCode
    ensures GetBankName(Some(bankCode), banks) == banks[i].labelText
  {
    var k := FindIndex(banks, bankCode);
    assert k.Some?;
  }

  datatype ListState = ListState(
    modalOpen: bool,
    editingAccount: Option<BankAccount>,
    confirmOpen: bool,
    confirmAccount: Option<BankAccount>)

  const Initial: ListState := ListState(false, None, false, None)

  /** The handlers, the "new account" buttons (`setModalOpen(true)`) and the dialog's
      `onOpenChange(open)`, which keeps the held account. */
  datatype Event =
    | Edit(account: BankAccount)
    | Delete(account: BankAccount)
    | ConfirmDelete
    | ModalClose
    | OpenNew
    | DialogOpenChange(open: bool)

  function Apply(s: ListState, e: Event): (r: ListState)
    ensures e.Edit? ==> r == s.(modalOpen := true, editingAccount := Some(e.account))
    ensures e.Delete? ==> r == s.(confirmOpen := true, confirmAccount := Some(e.account))
    ensures e.ConfirmDelete? ==> r == s.(confirmOpen := false, confirmAccount := None)
    ensures e.ModalClose? ==> r == s.(modalOpen := false, editingAccount := None)
    // the "new account" buttons do not clear the account being edited
    ensures e.OpenNew? ==> r == s.(modalOpen := true)
    // closing the dialog keeps the account it holds
    ensures e.DialogOpenChange? ==> r == s.(confirmOpen := e.open)
    ensures e.Delete? || e.ConfirmDelete? || e.DialogOpenChange? ==>
      r.modalOpen == s.modalOpen && r.editingAccount == s.editingAccount
    ensures e.Edit? || e.ModalClose? || e.OpenNew? ==>
      r.confirmOpen == s.confirmOpen && r.confirmAccount == s.confirmAccount
  {
    match e
    case Edit(a) => s.(editingAccount := Some(a), modalOpen := true)
    case Delete(a) => s.(confirmOpen := true, confirmAccount := Some(a))
    case ConfirmDelete => s.(confirmOpen := false, confirmAccount := None)
    case ModalClose => s.(modalOpen := false, editingAccount := None)
    case OpenNew => s.(modalOpen := true)
    case DialogOpenChange(open) => s.(confirmOpen := open)
  }

  function Requests(s: ListState, e: Event): (ids: seq<string>)
    ensures |ids| <= 1
    ensures ids != [] <==> e.ConfirmDelete? && s.confirmAccount.Some?
    ensures ids != [] ==> ids == [s.confirmAccount.value.id]
  {
    if e.ConfirmDelete? && s.confirmAccount.Some? then [s.confirmAccount.value.id] else []
  }

  function RunState(s: ListState, events: seq<Event>): ListState
    decreases |events|
  {
    if events == [] then s else RunState(Apply(s, events[0]), events[1..])
  }

  function RunRequests(s: ListState, events: seq<Event>): seq<string>
    decreases |events|
  {
    if events == [] then [] else Requests(s, events[0]) + RunRequests(Apply(s, events[0]), events[1..])
  }

  predicate EditingOnlyWhenOpen(s: ListState) {
    s.editingAccount.Some? ==> s.modalOpen
  }

  /** An account is edited only while the modal is open, whatever the handlers do. */
  lemma {:induction false} EditingOnlyWhenOpenKept(s: ListState, events: seq<Event>)
    requires EditingOnlyWhenOpen(s)
    ensures EditingOnlyWhenOpen(RunState(s, events))
    decreases |events|
  {
    if events != [] {
      EditingOnlyWhenOpenKept(Apply(s, events[0]), events[1..]);
    }
  }

  /** Editing, closing, then pressing "new account" opens the modal with nothing to edit. */
  lemma EditCloseThenNew(s: ListState, a: BankAccount)
    ensures RunState(s, [Edit(a), ModalClose, OpenNew]).modalOpen
    ensures RunState(s, [Edit(a), ModalClose, OpenNew]).editingAccount.None?
  {
    assert [Edit(a), ModalClose, OpenNew][1..] == [ModalClose, OpenNew];
    assert [ModalClose, OpenNew][1..] == [OpenNew];
    assert [OpenNew][1..] == [];
  }

  /** Delete then confirm requests exactly that account's id and leaves the dialog closed
      and empty. */
  lemma DeleteThenConfirm(s: ListState, a: BankAccount)
    ensures RunRequests(s, [Delete(a), ConfirmDelete]) == [a.id]
    ensures RunState(s, [Delete(a), ConfirmDelete]) == s.(confirmOpen := false, confirmAccount := None)
  {
    var s1 := Apply(s, Delete(a));
    assert [Delete(a), ConfirmDelete][1..] == [ConfirmDelete];
    assert [ConfirmDelete][1..] == [];
    assert RunRequests(s1, [ConfirmDelete]) == [a.id] + RunRequests(Apply(s1, ConfirmDelete), []);
  }

  /** Dismissing the dialog sends nothing and keeps the account it held. */
  lemma DismissKeepsHeldAccount(s: ListState)
    ensures RunRequests(s, [DialogOpenChange(false)]) == []
    ensures RunState(s, [DialogOpenChange(false)]).confirmAccount == s.confirmAccount
  {
    assert [DialogOpenChange(false)][1..] == [];
  }

  /** The component's state, updated in place by its handlers. */
  class BankAccountsListState {
    var modalOpen: bool
    var editingAccount: Option<BankAccount>
    var confirmOpen: bool
    var confirmAccount: Option<BankAccount>
    var deleteRequests: seq<string>

    function State(): ListState
      reads this
    {
      ListState(modalOpen, editingAccount, confirmOpen, confirmAccount)
    }

    constructor ()
      ensures State() == Initial && deleteRequests == []
    {
      modalOpen := false;
      editingAccount := None;
      confirmOpen := false;
      confirmAccount := None;
      deleteRequests := [];
    }

    method HandleEdit(account: BankAccount)
      modifies this
      ensures State() == Apply(old(State()), Edit(account)) && deleteRequests == old(deleteRequests)
    {
      editingAccount := Some(account);
      modalOpen := true;
    }

    method HandleDelete(account: BankAccount)
      modifies this
      ensures State() == Apply(old(State()), Delete(account)) && deleteRequests == old(deleteRequests)
    {
      confirmOpen := true;
      confirmAccount := Some(account);
    }

    /** `confirmDelete()`: the mutation's toasts are not modelled. */
    method ConfirmDelete()
      modifies this
      ensures State() == Apply(old(State()), Event.ConfirmDelete)
      ensures deleteRequests == old(deleteRequests) + Requests(old(State()), Event.ConfirmDelete)
    {
      if confirmAccount.Some? {
        deleteRequests := deleteRequests + [confirmAccount.value.id];
      }
      confirmOpen := false;
      confirmAccount := None;
    }

    method HandleModalClose()
      modifies this
      ensures State() == Apply(old(State()), ModalClose) && deleteRequests == old(deleteRequests)
    {
      modalOpen := false;
      editingAccount := None;
    }

    /** The "Nova Conta" and "Criar Primeira Conta" buttons. */
    method OpenNewAccount()
      modifies this
      ensures State() == Apply(old(State()), OpenNew) && deleteRequests == old(deleteRequests)
    {
      modalOpen := true;
    }

    /** The dialog's `onOpenChange(open)`: `setConfirmDialog({ ...confirmDialog, open })`. */
    method DialogOpenChange(open: bool)
      modifies this
      ensures State() == Apply(old(State()), Event.DialogOpenChange(open)) && deleteRequests == old(deleteRequests)
    {
      confirmOpen := open;
    }
  }
}
