/**
 * The react-query client shared by all pages, reduced to what the pages do
 * with it: which queries are in the cache and which of them are stale.
 * `invalidateQueries(filters)` marks every cached query matching the filters stale.
 */
module QueryCache {

  /** The query keys the client uses, each a one-element array in the source. */
  datatype QueryKey = AuthUserKey | FriendsKey | UsersKey | OutgoingFriendReqsKey | FriendRequestsKey | StreamTokenKey

  /**
   * The first argument of `invalidateQueries`: `{ queryKey: [k] }`, or an
   * object that has no `queryKey` property, which filters nothing out.
   */
  datatype QueryFilters = KeyFilter(queryKey: QueryKey) | NoKeyFilter

  /** Whether a filter selects a query (a one-element key prefix-matches only itself). */
  predicate Matches(filters: QueryFilters, key: QueryKey)
  {
    filters.NoKeyFilter? || filters.queryKey == key
  }

  /** The stale set after invalidating with `filters`. */
  function Invalidated(cached: set<QueryKey>, stale: set<QueryKey>, filters: QueryFilters): (r: set<QueryKey>)
    ensures stale <= r && r <= stale + cached
    ensures forall k :: k in cached && Matches(filters, k) ==> k in r
    ensures forall k :: k in r && k !in stale ==> Matches(filters, k)
  {
    stale + set k | k in cached && Matches(filters, k)
  }

  /** A key filter adds at most its own key, and only when that query is cached. */
  lemma InvalidateByKey(cached: set<QueryKey>, stale: set<QueryKey>, key: QueryKey)
    ensures Invalidated(cached, stale, KeyFilter(key)) == stale + ({key} * cached)
  {
  }

  /** A filter object without `queryKey` marks every cached query stale. */
  lemma InvalidateWithoutKey(cached: set<QueryKey>, stale: set<QueryKey>)
    ensures Invalidated(cached, stale, NoKeyFilter) == stale + cached
  {
  }

  class QueryClient {
    var cached: set<QueryKey>
    var stale: set<QueryKey>

    /** Only a cached query can be stale. */
    ghost predicate Valid()
      reads this
    {
      stale <= cached
    }

    constructor (cached: set<QueryKey>, stale: set<QueryKey>)
      requires stale <= cached
      ensures Valid() && this.cached == cached && this.stale == stale
    {
      this.cached := cached;
      this.stale := stale;
    }

    /** `queryClient.invalidateQueries(filters)`. */
    method InvalidateQueries(filters: QueryFilters)
      requires Valid()
      modifies this`stale
      ensures Valid()
      ensures stale == Invalidated(old(cached), old(stale), filters)
    {
      stale := stale + set k | k in cached && Matches(filters, k);
    }
  }
}
