/**
 * The bank-account queries and mutations: their cache keys, when each query
 * runs, and what each mutation does to the cache once the server has answered.
 */
module AccountHooks {
  import opened Wrappers
  import opened Js
  import opened Types
  import opened QueryCache
  import CardHooks

  const AllKey: QueryKey := ["bank-accounts"]
  const ListsKey: QueryKey := AllKey + ["list"]
  const DetailsKey: QueryKey := AllKey + ["detail"]

  /** The builders of `accountsKeys`. */
  datatype AccountsKey =
    | All
    | Lists
    | List(workspaceId: string)
    | Details
    | Detail(workspaceId: string, accountId: string)
    | Members(workspaceId: string)
  {
    function Key(): QueryKey {
      match this
      case All => AllKey
      case Lists => ListsKey
      case List(ws) => ListsKey + [ws]
      case Details => DetailsKey
      case Detail(ws, id) => DetailsKey + [ws, id]
      case Members(ws) => ["workspace-members", ws]
    }
  }

  /** `all` is a prefix of every key but the members key. */
  lemma AllIsPrefix(k: AccountsKey)
    ensures Matches(All.Key(), k.Key()) <==> !k.Members?
  {
    if k.Members? {
      assert k.Key()[0] != AllKey[0];
    }
  }

  /** Different builder calls give different keys: in particular a list key is never a
      detail key, and lists of different workspaces are kept apart. */
  lemma KeysDistinct(k1: AccountsKey, k2: AccountsKey)
    requires k1.Key() == k2.Key()
    ensures k1 == k2
  {
    var a, b := k1.Key(), k2.Key();
    assert a[0] == b[0] && |a| == |b|;
    if |a| >= 2 {
      assert a[1] == b[1];
    }
    if |a| >= 3 {
      assert a[2] == b[2];
    }
    if |a| >= 4 {
      assert a[3] == b[3];
    }
  }

  /** Invalidating `list(ws)` marks that list and no other key the builders make. */
  lemma ListFilterHitsOnlyThatList(ws: string)
    ensures forall k: AccountsKey :: Matches(List(ws).Key(), k.Key()) <==> k == List(ws)
  {
    var f := List(ws).Key();
    forall k: AccountsKey | Matches(f, k.Key())
      ensures k == List(ws)
    {
      assert k.Key()[0] == f[0] && k.Key()[1] == f[1] && k.Key()[2] == f[2];
    }
  }

  /** `enabled: !!workspaceId` of the list and members queries. */
  function ListEnabled(workspaceId: string): (b: bool)
    ensures b <==> workspaceId != []
  {
    Truthy(Some(workspaceId))
  }

  /** `enabled: !!workspaceId && !!accountId` of the detail query. */
  function DetailEnabled(workspaceId: string, accountId: Option<string>): (b: bool)
    ensures b <==> workspaceId != [] && accountId.Some? && accountId.value != []
  {
    Truthy(Some(workspaceId)) && Truthy(accountId)
  }

  /** The key of the detail query: `detail(workspaceId, accountId || '')`. */
  function DetailQueryKey(workspaceId: string, accountId: Option<string>): (k: AccountsKey)
    ensures k.Detail? && k.workspaceId == workspaceId
    ensures Truthy(accountId) ==> k.accountId == accountId.value
    ensures !Truthy(accountId) ==> k.accountId == []
  {
    Detail(workspaceId, if Truthy(accountId) then accountId.value else "")
  }

  /** The request the detail query would send. */
  datatype GetById = GetById(workspaceId: string, accountId: string)

  /** The detail query function: throws without an account id. */
  function DetailQueryFn(workspaceId: string, accountId: Option<string>): (r: Completion<GetById>)
    ensures r.Threw? <==> !Truthy(accountId)
    ensures r.Normal? ==> r.value == GetById(workspaceId, accountId.value)
  {
    if !Truthy(accountId) then Threw else Normal(GetById(workspaceId, accountId.value))
  }

  /** Whenever the detail query is enabled its function does not throw, and it asks for
      the account its key names. */
  lemma EnabledDetailNeverThrows(workspaceId: string, accountId: Option<string>)
    requires DetailEnabled(workspaceId, accountId)
    ensures DetailQueryFn(workspaceId, accountId).Normal?
    ensures DetailQueryFn(workspaceId, accountId).value.accountId == DetailQueryKey(workspaceId, accountId).accountId
  {
  }

  /** `onSuccess` of the create mutation. */
  method OnCreateSuccess(cache: Cache, workspaceId: string)
    modifies cache
    ensures cache.invalidated == old(cache.invalidated) + [List(workspaceId).Key()]
    ensures cache.data == old(cache.data)
    ensures forall k: AccountsKey :: cache.Stale(k.Key()) <==> old(cache.Stale(k.Key())) || k == List(workspaceId)
  {
    cache.Invalidate(List(workspaceId).Key());
    ListFilterHitsOnlyThatList(workspaceId);
  }

  /** `onSuccess` of the update mutation of account `accountId`. */
  method OnUpdateSuccess(cache: Cache, workspaceId: string, accountId: string, updated: BankAccount)
    modifies cache
    ensures cache.invalidated == old(cache.invalidated) + [List(workspaceId).Key()]
    ensures cache.data == old(cache.data)[Detail(workspaceId, accountId).Key() := AccountValue(updated)]
    ensures forall k: AccountsKey :: cache.Stale(k.Key()) <==> old(cache.Stale(k.Key())) || k == List(workspaceId)
  {
    cache.Invalidate(List(workspaceId).Key());
    ListFilterHitsOnlyThatList(workspaceId);
    cache.SetQueryData(Detail(workspaceId, accountId).Key(), AccountValue(updated));
  }

  /** `onSuccess` of the delete mutation. */
  method OnDeleteSuccess(cache: Cache, workspaceId: string)
    modifies cache
    ensures cache.invalidated == old(cache.invalidated) + [List(workspaceId).Key()]
    ensures cache.data == old(cache.data)
    ensures forall k: AccountsKey :: cache.Stale(k.Key()) <==> old(cache.Stale(k.Key())) || k == List(workspaceId)
  {
    cache.Invalidate(List(workspaceId).Key());
    ListFilterHitsOnlyThatList(workspaceId);
  }

  /** Both pages build the same members key, so they share one cache entry. */
  lemma MembersKeyShared(workspaceId: string)
    ensures Members(workspaceId).Key() == CardHooks.Members(workspaceId).Key()
    ensures forall k: CardHooks.CardsKey :: k.Key() == Members(workspaceId).Key() ==> k == CardHooks.Members(workspaceId)
  {
    forall k: CardHooks.CardsKey | k.Key() == Members(workspaceId).Key()
      ensures k == CardHooks.Members(workspaceId)
    {
      CardHooks.KeysDistinct(k, CardHooks.Members(workspaceId));
    }
  }

  /** Apart from the members key, no bank-account key is a credit-card key. */
  lemma OnlyMembersKeyShared(a: AccountsKey, c: CardHooks.CardsKey)
    requires a.Key() == c.Key()
    ensures a.Members? && c.Members? && a.workspaceId == c.workspaceId
  {
    assert a.Key()[0] == c.Key()[0];
    assert a.Key()[1] == c.Key()[1];
  }
}
