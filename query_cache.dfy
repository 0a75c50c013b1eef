/**
 * The part of the query cache the mutation callbacks touch: the filters passed
 * to `invalidateQueries` and the entries written by `setQueryData`. A filter
 * matches every key it is a prefix of, as query filters do by default.
 */
module QueryCache {
  import opened Types

  type QueryKey = seq<string>

  /** What a callback writes under a key: the record the server returned. */
  datatype CachedValue = CardValue(card: CreditCard) | AccountValue(account: BankAccount)

  /** Whether the filter `f` matches the key `k`. */
  predicate Matches(f: QueryKey, k: QueryKey) {
    f <= k
  }

  class Cache {
    /** The filters invalidated so far, in order. */
    var invalidated: seq<QueryKey>
    /** The entries written by `setQueryData`. */
    var data: map<QueryKey, CachedValue>

    constructor ()
      ensures invalidated == [] && data == map[]
    {
      invalidated := [];
      data := map[];
    }

    /** A key is stale once some invalidated filter matches it. */
    predicate Stale(k: QueryKey)
      reads this
    {
      exists i :: 0 <= i < |invalidated| && Matches(invalidated[i], k)
    }

    /** `queryClient.invalidateQueries({ queryKey: f })`. */
    method Invalidate(f: QueryKey)
      modifies this
      ensures invalidated == old(invalidated) + [f] && data == old(data)
      ensures forall k :: Stale(k) <==> old(Stale(k)) || Matches(f, k)
    {
      invalidated := invalidated + [f];
      forall k
        ensures Stale(k) <==> old(Stale(k)) || Matches(f, k)
      {
        if old(Stale(k)) {
          var i :| 0 <= i < |old(invalidated)| && Matches(old(invalidated)[i], k);
          assert invalidated[i] == old(invalidated)[i];
        }
        if Matches(f, k) {
          assert invalidated[|invalidated| - 1] == f;
        }
        if Stale(k) {
          var i :| 0 <= i < |invalidated| && Matches(invalidated[i], k);
          if i < |old(invalidated)| {
            assert invalidated[i] == old(invalidated)[i];
          }
        }
      }
    }

    /** `queryClient.setQueryData(k, v)`. */
    method SetQueryData(k: QueryKey, v: CachedValue)
      modifies this
      ensures data == old(data)[k := v] && invalidated == old(invalidated)
    {
      data := data[k := v];
    }
  }
}
