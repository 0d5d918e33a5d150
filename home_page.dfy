/**
 * The home page: the friends / discover tab, the set of users who already
 * have a pending request from the current user, the two list queries with
 * their defaults, and the cache invalidation after sending a request.
 */
module HomePage {
  import opened Wrappers
  import opened Social
  import opened QueryCache

  /** The two values the `tab` state ever takes ("friends", "recommended"). */
  datatype Tab = FriendsTab | RecommendedTab

  /** The recipient ids of a list of outgoing requests, added one request at a time. */
  function RecipientIds(reqs: seq<FriendRequest>): (ids: set<string>)
    ensures forall i :: 0 <= i < |reqs| ==> reqs[i].recipient.id in ids
    ensures |ids| <= |reqs|
  {
    if reqs == [] then {} else RecipientIds(reqs[..|reqs| - 1]) + {reqs[|reqs| - 1].recipient.id}
  }

  /** An id is collected exactly when some request of the list goes to it. */
  lemma {:induction false} RecipientIdsMembership(reqs: seq<FriendRequest>, id: string)
    ensures id in RecipientIds(reqs) <==> exists i :: 0 <= i < |reqs| && reqs[i].recipient.id == id
  {
    if reqs != [] {
      var init := reqs[..|reqs| - 1];
      RecipientIdsMembership(init, id);
      if id in RecipientIds(init) {
        var i :| 0 <= i < |init| && init[i].recipient.id == id;
        assert reqs[i] == init[i];
      }
      if exists i :: 0 <= i < |reqs| && reqs[i].recipient.id == id {
        var i :| 0 <= i < |reqs| && reqs[i].recipient.id == id;
        if i < |init| {
          assert init[i] == reqs[i];
        }
      }
    }
  }

  /** The `forEach` of the effect: `ids.add(req.recipient._id)` for every fetched request. */
  method CollectRecipientIds(reqs: seq<FriendRequest>) returns (ids: set<string>)
    ensures ids == RecipientIds(reqs)
  {
    ids := {};
    var i := 0;
    while i < |reqs|
      invariant 0 <= i <= |reqs|
      invariant ids == RecipientIds(reqs[..i])
    {
      assert reqs[..i + 1][..i] == reqs[..i];
      ids := ids + {reqs[i].recipient.id};
      i := i + 1;
    }
    assert reqs[..i] == reqs;
  }

  /** `data: friends = []` and `data: recommendedUsers = []`: no data yet reads as an empty list. */
  function ListOrEmpty(data: Option<seq<User>>): (list: seq<User>)
    ensures data.None? ==> list == []
    ensures data.Some? ==> list == data.value
  {
    data.GetOr([])
  }

  /** One card of the discover grid. */
  datatype Recommendation = Recommendation(user: User, isRequested: bool)

  /** What the cards area shows. */
  datatype Content =
    | LoadingFriends
    | NoFriendsYet
    | FriendCards(friends: seq<User>)
    | FindingPeople
    | RecommendedCards(cards: seq<Recommendation>)

  /** The discover grid: one card per recommended user, in order, flagged by `outgoingRequestsIds.has(user._id)`. */
  function Recommendations(users: seq<User>, outgoingRequestsIds: set<string>): (cards: seq<Recommendation>)
    ensures |cards| == |users|
    ensures forall i :: 0 <= i < |users| ==>
      cards[i].user == users[i] && (cards[i].isRequested <==> users[i].id in outgoingRequestsIds)
  {
    seq(|users|, i requires 0 <= i < |users| => Recommendation(users[i], users[i].id in outgoingRequestsIds))
  }

  /** The cards area: the chosen tab's list, its loading state, and the "No Friends Yet" view. */
  function PageContent(tab: Tab, loadingFriends: bool, friendsData: Option<seq<User>>,
                       loadingUsers: bool, usersData: Option<seq<User>>, outgoingRequestsIds: set<string>): (c: Content)
    ensures c == LoadingFriends <==> tab == FriendsTab && loadingFriends
    ensures c == FindingPeople <==> tab == RecommendedTab && loadingUsers
    ensures c == NoFriendsYet <==> tab == FriendsTab && !loadingFriends && ListOrEmpty(friendsData) == []
    ensures c.FriendCards? <==> tab == FriendsTab && !loadingFriends && ListOrEmpty(friendsData) != []
    ensures c.FriendCards? ==> c.friends == ListOrEmpty(friendsData)
    ensures c.RecommendedCards? <==> tab == RecommendedTab && !loadingUsers
    ensures c.RecommendedCards? ==> c.cards == Recommendations(ListOrEmpty(usersData), outgoingRequestsIds)
  {
    match tab
    case FriendsTab =>
      if loadingFriends then LoadingFriends
      else
        var friends := ListOrEmpty(friendsData);
        if |friends| == 0 then NoFriendsYet else FriendCards(friends)
    case RecommendedTab =>
      if loadingUsers then FindingPeople
      else RecommendedCards(Recommendations(ListOrEmpty(usersData), outgoingRequestsIds))
  }

  /** The page's own state. */
  class HomePage {
    var tab: Tab
    var outgoingRequestsIds: set<string>

    /** `useState("friends")` and `useState(new Set())`. */
    constructor ()
      ensures tab == FriendsTab && outgoingRequestsIds == {}
    {
      tab := FriendsTab;
      outgoingRequestsIds := {};
    }

    /** `setTab`, called by the two tab buttons and the "Discover People" button. */
    method SetTab(t: Tab)
      modifies this`tab
      ensures tab == t
    {
      tab := t;
    }

    /**
     * The effect on `outgoingFriendReqs`: the set is replaced by the fetched
     * recipient ids only when the list is non-empty; otherwise it is kept.
     * After a non-empty fetch a recommended user is therefore flagged exactly
     * when one of the fetched requests goes to them.
     */
    method SyncOutgoingRequestIds(outgoingFriendReqs: Option<seq<FriendRequest>>)
      modifies this`outgoingRequestsIds
      ensures outgoingFriendReqs.Some? && |outgoingFriendReqs.value| > 0 ==>
        outgoingRequestsIds == RecipientIds(outgoingFriendReqs.value)
      ensures outgoingFriendReqs.Some? && |outgoingFriendReqs.value| > 0 ==>
        forall id :: id in outgoingRequestsIds <==>
          exists i :: 0 <= i < |outgoingFriendReqs.value| && outgoingFriendReqs.value[i].recipient.id == id
      ensures outgoingFriendReqs.None? || |outgoingFriendReqs.value| == 0 ==>
        outgoingRequestsIds == old(outgoingRequestsIds)
    {
      if outgoingFriendReqs.Some? && |outgoingFriendReqs.value| > 0 {
        var ids := CollectRecipientIds(outgoingFriendReqs.value);
        outgoingRequestsIds := ids;
        forall id {
          RecipientIdsMembership(outgoingFriendReqs.value, id);
        }
      }
    }
  }

  /** The filters the send mutation's `onSuccess` means: only the outgoing-requests query. */
  const SendSuccessFilters := KeyFilter(OutgoingFriendReqsKey)

  /** The filters `invalidateQueries(["outgoingFriendReqs"])` actually passes: an array, which has no `queryKey` property. */
  const SendSuccessFiltersAsWritten := NoKeyFilter

  /** A successful send marks the outgoing-requests query stale and nothing else. */
  lemma SendSuccessMarksOnlyOutgoing(cached: set<QueryKey>, stale: set<QueryKey>)
    ensures Invalidated(cached, stale, SendSuccessFilters) - stale <= {OutgoingFriendReqsKey}
    ensures OutgoingFriendReqsKey in cached ==> OutgoingFriendReqsKey in Invalidated(cached, stale, SendSuccessFilters)
  {
  }

  /** As written, a successful send marks every cached query stale: with friends, users and outgoing requests cached, all three. */
  lemma AsWrittenSendInvalidatesEveryQuery(cached: set<QueryKey>, stale: set<QueryKey>)
    ensures Invalidated(cached, stale, SendSuccessFiltersAsWritten) == stale + cached
    ensures Invalidated({FriendsKey, UsersKey, OutgoingFriendReqsKey}, {}, SendSuccessFiltersAsWritten)
         != Invalidated({FriendsKey, UsersKey, OutgoingFriendReqsKey}, {}, SendSuccessFilters)
  {
    InvalidateWithoutKey(cached, stale);
    assert FriendsKey in Invalidated({FriendsKey, UsersKey, OutgoingFriendReqsKey}, {}, SendSuccessFiltersAsWritten);
    assert FriendsKey !in Invalidated({FriendsKey, UsersKey, OutgoingFriendReqsKey}, {}, SendSuccessFilters);
  }

  /** The send mutation's `onSuccess`, with the intended filters. */
  method OnSendSuccess(queryClient: QueryClient)
    requires queryClient.Valid()
    modifies queryClient
    ensures queryClient.Valid() && queryClient.cached == old(queryClient.cached)
    ensures queryClient.stale == old(queryClient.stale) + ({OutgoingFriendReqsKey} * queryClient.cached)
  {
    queryClient.InvalidateQueries(SendSuccessFilters);
    InvalidateByKey(old(queryClient.cached), old(queryClient.stale), OutgoingFriendReqsKey);
  }
}
