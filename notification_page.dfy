/**
 * The notifications page: the two request lists of `/users/friend-requests`
 * with their defaults, the badge count, the empty state, the two sections
 * with their pluralised captions, and the cache invalidation after an accept.
 */
module NotificationPage {
  import opened Wrappers
  import opened Text
  import opened Social
  import opened QueryCache

  /** The body of `/users/friend-requests`; either list may be missing. */
  datatype FriendRequests = FriendRequests(incomingReqs: Option<seq<FriendRequest>>, acceptedReqs: Option<seq<FriendRequest>>)

  /** `friendRequests?.incomingReqs || []`. */
  function IncomingRequests(data: Option<FriendRequests>): (reqs: seq<FriendRequest>)
    ensures data.None? || data.value.incomingReqs.None? ==> reqs == []
    ensures data.Some? && data.value.incomingReqs.Some? ==> reqs == data.value.incomingReqs.value
  {
    if data.Some? && data.value.incomingReqs.Some? then data.value.incomingReqs.value else []
  }

  /** `friendRequests?.acceptedReqs || []`. */
  function AcceptedRequests(data: Option<FriendRequests>): (reqs: seq<FriendRequest>)
    ensures data.None? || data.value.acceptedReqs.None? ==> reqs == []
    ensures data.Some? && data.value.acceptedReqs.Some? ==> reqs == data.value.acceptedReqs.value
  {
    if data.Some? && data.value.acceptedReqs.Some? then data.value.acceptedReqs.value else []
  }

  /** The header badge: "<n> notifications", n counting both lists. */
  function Badge(incoming: seq<FriendRequest>, accepted: seq<FriendRequest>): (text: string)
    ensures EndsWith(text, " notifications") && AllDigits(text[..|text| - |" notifications"|])
    ensures DigitsValue(text[..|text| - |" notifications"|]) == |incoming| + |accepted|
  {
    var n := Decimal(|incoming| + |accepted|);
    var text := n + " notifications";
    assert text[..|text| - |" notifications"|] == n;
    text
  }

  /** The plural suffix of a caption: "s" unless the count is exactly one. */
  function PluralSuffix(count: nat): (s: string)
    ensures s == "" <==> count == 1
    ensures s != "" ==> s == "s"
  {
    if count != 1 then "s" else ""
  }

  /** A section of the page: its heading's caption and its cards' requests. */
  datatype Section = Section(caption: string, requests: seq<FriendRequest>)

  /** The page body. */
  datatype Content =
    | LoadingNotifications
    | NoNotificationsFound
    | Sections(incoming: Option<Section>, accepted: Option<Section>)

  /** The body: loading, the empty state, or each non-empty list as a captioned section. */
  function PageContent(isLoading: bool, data: Option<FriendRequests>): (c: Content)
    ensures c == LoadingNotifications <==> isLoading
    ensures c == NoNotificationsFound <==> !isLoading && IncomingRequests(data) == [] && AcceptedRequests(data) == []
    ensures c.Sections? ==> (c.incoming.Some? <==> IncomingRequests(data) != [])
    ensures c.Sections? ==> (c.accepted.Some? <==> AcceptedRequests(data) != [])
    ensures c.Sections? ==> c.incoming.Some? || c.accepted.Some?
    ensures c.Sections? && c.incoming.Some? ==> c.incoming.value.requests == IncomingRequests(data)
    ensures c.Sections? && c.accepted.Some? ==> c.accepted.value.requests == AcceptedRequests(data)
  {
    var incoming := IncomingRequests(data);
    var accepted := AcceptedRequests(data);
    if isLoading then LoadingNotifications
    else if |incoming| == 0 && |accepted| == 0 then NoNotificationsFound
    else
      Sections(
        if |incoming| > 0 then Some(Section(Decimal(|incoming|) + " pending request" + PluralSuffix(|incoming|), incoming)) else None,
        if |accepted| > 0 then Some(Section(Decimal(|accepted|) + " new connection" + PluralSuffix(|accepted|), accepted)) else None)
  }

  /** A section's caption is the count followed by the singular noun, plus "s" exactly when the count is not one. */
  lemma CaptionPlural(isLoading: bool, data: Option<FriendRequests>)
    requires PageContent(isLoading, data).Sections?
    ensures PageContent(isLoading, data).incoming.Some? ==>
      PageContent(isLoading, data).incoming.value.caption == Decimal(|IncomingRequests(data)|) +
        (if |IncomingRequests(data)| == 1 then " pending request" else " pending requests")
    ensures PageContent(isLoading, data).accepted.Some? ==>
      PageContent(isLoading, data).accepted.value.caption == Decimal(|AcceptedRequests(data)|) +
        (if |AcceptedRequests(data)| == 1 then " new connection" else " new connections")
  {
  }

  /** The filters of the accept mutation's `onSuccess`, in call order. */
  const AcceptSuccessFilters: seq<QueryFilters> := [KeyFilter(FriendRequestsKey), KeyFilter(FriendsKey)]

  /** A successful accept marks exactly the request lists and the friends list stale (those of them that are cached). */
  lemma AcceptSuccessMarksRequestsAndFriends(cached: set<QueryKey>, stale: set<QueryKey>)
    ensures var after := Invalidated(cached, Invalidated(cached, stale, AcceptSuccessFilters[0]), AcceptSuccessFilters[1]);
      after == stale + ({FriendRequestsKey, FriendsKey} * cached)
  {
    InvalidateByKey(cached, stale, FriendRequestsKey);
    InvalidateByKey(cached, Invalidated(cached, stale, AcceptSuccessFilters[0]), FriendsKey);
  }

  /** The accept mutation's `onSuccess`. */
  method OnAcceptSuccess(queryClient: QueryClient)
    requires queryClient.Valid()
    modifies queryClient
    ensures queryClient.Valid() && queryClient.cached == old(queryClient.cached)
    ensures queryClient.stale == old(queryClient.stale) + ({FriendRequestsKey, FriendsKey} * queryClient.cached)
  {
    AcceptSuccessMarksRequestsAndFriends(queryClient.cached, queryClient.stale);
    queryClient.InvalidateQueries(AcceptSuccessFilters[0]);
    queryClient.InvalidateQueries(AcceptSuccessFilters[1]);
  }
}
