/**
 * The state behind the credit-card list: whether the card modal is open, which
 * card it edits, and the delete confirmation dialog with the card it holds.
 * `Apply` gives the effect of each handler on that state; `CardsListHook`
 * holds the state and applies the handlers to its fields, recording every
 * delete request it sends.
 */
module CardsList {
  import opened Wrappers
  import opened Types

  datatype ListState = ListState(
    modalOpen: bool,
    editingCard: Option<CreditCard>,
    confirmOpen: bool,
    confirmCard: Option<CreditCard>)

  /** Modal closed, nothing edited, dialog closed and empty. */
  const Initial: ListState := ListState(false, None, false, None)

  /** The handlers the hook returns, and its raw `setConfirmDialog`. */
  datatype Event =
    | Edit(card: CreditCard)
    | Delete(card: CreditCard)
    | ConfirmDelete
    | ModalClose
    | NewCard
    | SetConfirmDialog(open: bool, held: Option<CreditCard>)

  /** The state after one handler. */
  function Apply(s: ListState, e: Event): (r: ListState)
    ensures e.Edit? ==> r == s.(modalOpen := true, editingCard := Some(e.card))
    ensures e.Delete? ==> r == s.(confirmOpen := true, confirmCard := Some(e.card))
    ensures e.ConfirmDelete? ==> r == s.(confirmOpen := false, confirmCard := None)
    ensures e.ModalClose? ==> r == s.(modalOpen := false, editingCard := None)
    ensures e.NewCard? ==> r == s.(modalOpen := true, editingCard := None)
    ensures e.SetConfirmDialog? ==> r == s.(confirmOpen := e.open, confirmCard := e.held)
    // the dialog handlers leave the modal alone, and the modal handlers leave the dialog alone
    ensures e.Delete? || e.ConfirmDelete? || e.SetConfirmDialog? ==>
      r.modalOpen == s.modalOpen && r.editingCard == s.editingCard
    ensures e.Edit? || e.ModalClose? || e.NewCard? ==>
      r.confirmOpen == s.confirmOpen && r.confirmCard == s.confirmCard
  {
    match e
    case Edit(c) => s.(editingCard := Some(c), modalOpen := true)
    case Delete(c) => s.(confirmOpen := true, confirmCard := Some(c))
    case ConfirmDelete => s.(confirmOpen := false, confirmCard := None)
    case ModalClose => s.(modalOpen := false, editingCard := None)
    case NewCard => s.(editingCard := None, modalOpen := true)
    case SetConfirmDialog(open, c) => s.(confirmOpen := open, confirmCard := c)
  }

  /** The card ids a handler asks the server to delete. */
  function Requests(s: ListState, e: Event): (ids: seq<string>)
    ensures |ids| <= 1
    ensures ids != [] <==> e.ConfirmDelete? && s.confirmCard.Some?
    ensures ids != [] ==> ids == [s.confirmCard.value.id]
  {
    if e.ConfirmDelete? && s.confirmCard.Some? then [s.confirmCard.value.id] else []
  }

  /** The state after a sequence of handlers, and the delete requests they send. */
  function RunState(s: ListState, events: seq<Event>): ListState
    decreases |events|
  {
    if events == [] then s else RunState(Apply(s, events[0]), events[1..])
  }

  function RunRequests(s: ListState, events: seq<Event>): seq<string>
    decreases |events|
  {
    if events == [] then [] else Requests(s, events[0]) + RunRequests(Apply(s, events[0]), events[1..])
  }

  /** A card is edited only while the modal is open. */
  predicate EditingOnlyWhenOpen(s: ListState) {
    s.editingCard.Some? ==> s.modalOpen
  }

  /** Every handler keeps the invariant, so every reachable state satisfies it. */
  lemma {:induction false} EditingOnlyWhenOpenKept(s: ListState, events: seq<Event>)
    requires EditingOnlyWhenOpen(s)
    ensures EditingOnlyWhenOpen(RunState(s, events))
    decreases |events|
  {
    if events != [] {
      EditingOnlyWhenOpenKept(Apply(s, events[0]), events[1..]);
    }
  }

  /** Delete then confirm: exactly that card's id is requested, the dialog ends closed and
      empty, and the modal is as it was. */
  lemma DeleteThenConfirm(s: ListState, c: CreditCard)
    ensures RunRequests(s, [Delete(c), ConfirmDelete]) == [c.id]
    ensures RunState(s, [Delete(c), ConfirmDelete]) == s.(confirmOpen := false, confirmCard := None)
  {
    var s1 := Apply(s, Delete(c));
    assert [Delete(c), ConfirmDelete][1..] == [ConfirmDelete];
    assert [ConfirmDelete][1..] == [];
    assert RunRequests(s1, [ConfirmDelete]) == [c.id] + RunRequests(Apply(s1, ConfirmDelete), []);
  }

  /** The hook's state, updated in place by its handlers. */
  class CardsListHook {
    var modalOpen: bool
    var editingCard: Option<CreditCard>
    var confirmOpen: bool
    var confirmCard: Option<CreditCard>
    /** The ids passed to the delete mutation, in order. */
    var deleteRequests: seq<string>

    function State(): ListState
      reads this
    {
      ListState(modalOpen, editingCard, confirmOpen, confirmCard)
    }

    constructor ()
      ensures State() == Initial && deleteRequests == []
    {
      modalOpen := false;
      editingCard := None;
      confirmOpen := false;
      confirmCard := None;
      deleteRequests := [];
    }

    /** `handleEdit(card)`. */
    method HandleEdit(card: CreditCard)
      modifies this
      ensures State() == Apply(old(State()), Edit(card)) && deleteRequests == old(deleteRequests)
    {
      editingCard := Some(card);
      modalOpen := true;
    }

    /** `handleDelete(card)`. */
    method HandleDelete(card: CreditCard)
      modifies this
      ensures State() == Apply(old(State()), Delete(card)) && deleteRequests == old(deleteRequests)
    {
      confirmOpen := true;
      confirmCard := Some(card);
    }

    /** `confirmDelete()`: the mutation's toasts are not modelled. */
    method ConfirmDelete()
      modifies this
      ensures State() == Apply(old(State()), Event.ConfirmDelete)
      ensures deleteRequests == old(deleteRequests) + Requests(old(State()), Event.ConfirmDelete)
    {
      if confirmCard.Some? {
        deleteRequests := deleteRequests + [confirmCard.value.id];
      }
      confirmOpen := false;
      confirmCard := None;
    }

    /** `handleModalClose()`. */
    method HandleModalClose()
      modifies this
      ensures State() == Apply(old(State()), ModalClose) && deleteRequests == old(deleteRequests)
    {
      modalOpen := false;
      editingCard := None;
    }

    /** `handleNewCard()`. */
    method HandleNewCard()
      modifies this
      ensures State() == Apply(old(State()), NewCard) && deleteRequests == old(deleteRequests)
    {
      editingCard := None;
      modalOpen := true;
    }

    /** `setConfirmDialog({ open, card })`. */
    method SetConfirmDialog(open: bool, card: Option<CreditCard>)
      modifies this
      ensures State() == Apply(old(State()), Event.SetConfirmDialog(open, card)) && deleteRequests == old(deleteRequests)
    {
      confirmOpen := open;
      confirmCard := card;
    }
  }
}
