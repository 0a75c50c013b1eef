/**
 * The credit-card queries and mutations: their cache keys, when each query
 * runs, and what each mutation does to the cache once the server has answered.
 */
module CardHooks {
  import opened Wrappers
  import opened Js
  import opened Types
  import opened QueryCache

  const AllKey: QueryKey := ["credit-cards"]
  const ListsKey: QueryKey := AllKey + ["list"]
  const DetailsKey: QueryKey := AllKey + ["detail"]

  /** The builders of `creditCardsKeys`. */
  datatype CardsKey =
    | All
    | Lists
    | List(workspaceId: string)
    | Details
    | Detail(workspaceId: string, cardId: string)
    | Members(workspaceId: string)
  {
    function Key(): QueryKey {
      match this
      case All => AllKey
      case Lists => ListsKey
      case List(ws) => ListsKey + [ws]
      case Details => DetailsKey
      case Detail(ws, id) => DetailsKey + [ws, id]
      case Members(ws) => ["workspace-members", ws]
    }
  }

  /** `all` is a prefix of every key but the members key. */
  lemma AllIsPrefix(k: CardsKey)
    ensures Matches(All.Key(), k.Key()) <==> !k.Members?
  {
    if k.Members? {
      assert k.Key()[0] != AllKey[0];
    }
  }

  /** Different builder calls give different keys: in particular a list key is never a
      detail key, and lists of different workspaces are kept apart. */
  lemma KeysDistinct(k1: CardsKey, k2: CardsKey)
    requires k1.Key() == k2.Key()
    ensures k1 == k2
  {
    var a, b := k1.Key(), k2.Key();
    assert a[0] == b[0] && |a| == |b|;
    if |a| >= 2 {
      assert a[1] == b[1];
    }
    if |a| >= 3 {
      assert a[2] == b[2];
    }
    if |a| >= 4 {
      assert a[3] == b[3];
    }
  }

  /** Invalidating `list(ws)` marks that list and no other key the builders make. */
  lemma ListFilterHitsOnlyThatList(ws: string)
    ensures forall k: CardsKey :: Matches(List(ws).Key(), k.Key()) <==> k == List(ws)
  {
    var f := List(ws).Key();
    forall k: CardsKey | Matches(f, k.Key())
      ensures k == List(ws)
    {
      assert k.Key()[0] == f[0] && k.Key()[1] == f[1] && k.Key()[2] == f[2];
    }
  }

  /** `enabled: !!workspaceId` of the list and members queries. */
  function ListEnabled(workspaceId: string): (b: bool)
    ensures b <==> workspaceId != []
  {
    Truthy(Some(workspaceId))
  }

  /** `enabled: !!workspaceId && !!cardId` of the detail query. */
  function DetailEnabled(workspaceId: string, cardId: Option<string>): (b: bool)
    ensures b <==> workspaceId != [] && cardId.Some? && cardId.value != []
  {
    Truthy(Some(workspaceId)) && Truthy(cardId)
  }

  /** The key of the detail query: `detail(workspaceId, cardId || '')`. */
  function DetailQueryKey(workspaceId: string, cardId: Option<string>): (k: CardsKey)
    ensures k.Detail? && k.workspaceId == workspaceId
    ensures Truthy(cardId) ==> k.cardId == cardId.value
    ensures !Truthy(cardId) ==> k.cardId == []
  {
    Detail(workspaceId, if Truthy(cardId) then cardId.value else "")
  }

  /** The request the detail query would send. */
  datatype GetById = GetById(workspaceId: string, cardId: string)

  /** The detail query function: throws without a card id. */
  function DetailQueryFn(workspaceId: string, cardId: Option<string>): (r: Completion<GetById>)
    ensures r.Threw? <==> !Truthy(cardId)
    ensures r.Normal? ==> r.value == GetById(workspaceId, cardId.value)
  {
    if !Truthy(cardId) then Threw else Normal(GetById(workspaceId, cardId.value))
  }

  /** Whenever the detail query is enabled its function does not throw, and it asks for
      the card its key names. */
  lemma EnabledDetailNeverThrows(workspaceId: string, cardId: Option<string>)
    requires DetailEnabled(workspaceId, cardId)
    ensures DetailQueryFn(workspaceId, cardId).Normal?
    ensures DetailQueryFn(workspaceId, cardId).value.cardId == DetailQueryKey(workspaceId, cardId).cardId
  {
  }

  /** `onSuccess` of the create mutation. */
  method OnCreateSuccess(cache: Cache, workspaceId: string)
    modifies cache
    ensures cache.invalidated == old(cache.invalidated) + [List(workspaceId).Key()]
    ensures cache.data == old(cache.data)
    ensures forall k: CardsKey :: cache.Stale(k.Key()) <==> old(cache.Stale(k.Key())) || k == List(workspaceId)
  {
    cache.Invalidate(List(workspaceId).Key());
    ListFilterHitsOnlyThatList(workspaceId);
  }

  /** `onSuccess` of the update mutation of card `cardId`. */
  method OnUpdateSuccess(cache: Cache, workspaceId: string, cardId: string, updated: CreditCard)
    modifies cache
    ensures cache.invalidated == old(cache.invalidated) + [List(workspaceId).Key()]
    ensures cache.data == old(cache.data)[Detail(workspaceId, cardId).Key() := CardValue(updated)]
    ensures forall k: CardsKey :: cache.Stale(k.Key()) <==> old(cache.Stale(k.Key())) || k == List(workspaceId)
  {
    cache.Invalidate(List(workspaceId).Key());
    ListFilterHitsOnlyThatList(workspaceId);
    cache.SetQueryData(Detail(workspaceId, cardId).Key(), CardValue(updated));
  }

  /** `onSuccess` of the delete mutation. */
  method OnDeleteSuccess(cache: Cache, workspaceId: string)
    modifies cache
    ensures cache.invalidated == old(cache.invalidated) + [List(workspaceId).Key()]
    ensures cache.data == old(cache.data)
    ensures forall k: CardsKey :: cache.Stale(k.Key()) <==> old(cache.Stale(k.Key())) || k == List(workspaceId)
  {
    cache.Invalidate(List(workspaceId).Key());
    ListFilterHitsOnlyThatList(workspaceId);
  }
}
