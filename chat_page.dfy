/**
 * The chat page: the channel named after the two participants, the search
 * for the other member once the channel is watched, the `initChat` effect
 * with its guard and loading flag, the loader condition, the video-call
 * message and the sidebar navigation.
 */
module ChatPage {
  import opened Wrappers
  import opened Text
  import opened Social
  import App

  /** `[a, b].sort()`: without a comparator the array is ordered by string `<`. */
  function SortPair(a: string, b: string): (r: seq<string>)
    ensures |r| == 2 && multiset(r) == multiset{a, b}
    ensures !Less(r[1], r[0])
  {
    LessTrichotomy(a, b);
    if Less(b, a) then [b, a] else [a, b]
  }

  /** `[selfId, targetUserId].sort().join("-")`. */
  function ChannelId(selfId: string, targetId: string): (id: string)
    ensures id == selfId + "-" + targetId || id == targetId + "-" + selfId
    ensures !Less(targetId, selfId) ==> id == selfId + "-" + targetId
    ensures Less(targetId, selfId) ==> id == targetId + "-" + selfId
  {
    var pair := SortPair(selfId, targetId);
    assert Join(pair[1..], "-") == pair[1];
    Join(pair, "-")
  }

  /** Either participant opening the chat names the same channel. */
  lemma ChannelIdSymmetric(a: string, b: string)
    ensures ChannelId(a, b) == ChannelId(b, a)
  {
    LessTrichotomy(a, b);
  }

  /** In `x-y` with a dash-free `x`, the first dash stands right after `x`. */
  lemma FirstDash(x: string, y: string)
    requires '-' !in x
    ensures (x + "-" + y)[|x|] == '-'
    ensures forall k :: 0 <= k < |x| ==> (x + "-" + y)[k] != '-'
  {
    assert forall k :: 0 <= k < |x| ==> (x + "-" + y)[k] == x[k];
  }

  /** Splitting `x-y` at its first dash: a dash-free left part is recovered, and with it the right part. */
  lemma DashSplit(x: string, y: string, u: string, v: string)
    requires '-' !in x && '-' !in u
    requires x + "-" + y == u + "-" + v
    ensures x == u && y == v
  {
    var s := x + "-" + y;
    FirstDash(x, y);
    FirstDash(u, v);
    assert |x| == |u|;
    assert x == s[..|x|] == u;
    assert y == s[|x| + 1..] == v;
  }

  /** Ids without dashes (Mongo object ids are hexadecimal) name one channel per unordered pair of users. */
  lemma ChannelIdDeterminesPair(a: string, b: string, c: string, d: string)
    requires '-' !in a && '-' !in b && '-' !in c && '-' !in d
    requires ChannelId(a, b) == ChannelId(c, d)
    ensures multiset{a, b} == multiset{c, d}
  {
    var p, q := SortPair(a, b), SortPair(c, d);
    assert p[0] == a || p[0] == b;
    assert q[0] == c || q[0] == d;
    DashSplit(p[0], p[1], q[0], q[1]);
    assert multiset(p) == multiset(q) by { assert p == q; }
  }

  /** A user as Stream knows it: `{ id, name, image }`. */
  datatype ChatUser = ChatUser(id: string, name: Option<string>, image: Option<string>)

  /** An entry of `channel.state.members`. */
  datatype Member = Member(user: ChatUser)

  /**
   * `client.channel("messaging", channelId, { members })` after `watch()`:
   * its type, id, the member ids it was created with, and the members in its state.
   */
  datatype Channel = Channel(channelType: string, id: string, members: seq<string>, stateMembers: seq<Member>)

  /** A connected client: the user it was connected as, and the token. */
  datatype ChatClient = ChatClient(user: ChatUser, token: string)

  /** What the Stream SDK does with `connectUser` and `watch`: the watched channel's members, or a failure. */
  datatype InitOutcome = Watched(stateMembers: seq<Member>) | ConnectFailed | WatchFailed

  /** The user passed to `connectUser`. */
  function ConnectedUser(authUser: User): (u: ChatUser)
    ensures u.id == authUser.id && u.name == authUser.fullName && u.image == authUser.profilePic
  {
    ChatUser(authUser.id, authUser.fullName, authUser.profilePic)
  }

  /** The channel opened between the authenticated user and the chat's target. */
  function OpenedChannel(selfId: string, targetId: string, stateMembers: seq<Member>): (c: Channel)
    ensures c.channelType == "messaging" && c.id == ChannelId(selfId, targetId)
    ensures c.members == [selfId, targetId] && c.stateMembers == stateMembers
  {
    Channel("messaging", ChannelId(selfId, targetId), [selfId, targetId], stateMembers)
  }

  /** Both participants open a channel with the same id and the same two members. */
  lemma OpenedChannelSharedByBoth(a: string, b: string, ms: seq<Member>, ns: seq<Member>)
    ensures OpenedChannel(a, b, ms).id == OpenedChannel(b, a, ns).id
    ensures multiset(OpenedChannel(a, b, ms).members) == multiset(OpenedChannel(b, a, ns).members)
  {
    ChannelIdSymmetric(a, b);
  }

  /** `members.find(member => member.user.id !== selfId)`: the first member who is not the current user. */
  function TargetMember(members: seq<Member>, selfId: string): (r: Option<Member>)
    ensures r.None? <==> forall i :: 0 <= i < |members| ==> members[i].user.id == selfId
    ensures r.Some? ==> exists i :: (0 <= i < |members| && members[i] == r.value &&
      r.value.user.id != selfId && forall j :: 0 <= j < i ==> members[j].user.id == selfId)
  {
    if members == [] then None
    else if members[0].user.id != selfId then Some(members[0])
    else
      var r := TargetMember(members[1..], selfId);
      if r.Some? then
        var i :| 0 <= i < |members[1..]| && members[1..][i] == r.value &&
          r.value.user.id != selfId && forall j :: 0 <= j < i ==> members[1..][j].user.id == selfId;
        assert members[i + 1] == r.value;
        assert forall j :: 0 <= j < i + 1 ==> members[j].user.id == selfId by {
          forall j | 0 <= j < i + 1 ensures members[j].user.id == selfId {
            if j > 0 { assert members[j] == members[1..][j - 1]; }
          }
        }
        r
      else
        assert forall i :: 0 <= i < |members| ==> members[i].user.id == selfId by {
          forall i | 0 <= i < |members| ensures members[i].user.id == selfId {
            if i > 0 { assert members[i] == members[1..][i - 1]; }
          }
        }
        r
  }

  /** In a channel holding the user and someone else, the other one is found. */
  lemma TargetFoundBesideSelf(selfUser: ChatUser, other: ChatUser)
    requires other.id != selfUser.id
    ensures TargetMember([Member(selfUser), Member(other)], selfUser.id) == Some(Member(other))
    ensures TargetMember([Member(other), Member(selfUser)], selfUser.id) == Some(Member(other))
  {
  }

  const ConnectError := "Could not connect to chat. Please try again."

  /** Fallback picture and name of the chat header. */
  const DefaultAvatar := "https://i.pinimg.com/236x/bf/a7/07/bfa7073c69751c9144efba0b9039c196.jpg"
  const DefaultName := "User"

  /** `targetUser?.name || "User"`. */
  function ContactName(targetUser: Option<ChatUser>): (name: string)
    ensures name != ""
    ensures targetUser.Some? && Truthy(targetUser.value.name) ==> name == targetUser.value.name.value
    ensures !(targetUser.Some? && Truthy(targetUser.value.name)) ==> name == DefaultName
  {
    if targetUser.Some? && Truthy(targetUser.value.name) then targetUser.value.name.value else DefaultName
  }

  /** `targetUser?.image || <default avatar>`. */
  function ContactImage(targetUser: Option<ChatUser>): (image: string)
    ensures image != ""
    ensures targetUser.Some? && Truthy(targetUser.value.image) ==> image == targetUser.value.image.value
    ensures !(targetUser.Some? && Truthy(targetUser.value.image)) ==> image == DefaultAvatar
  {
    if targetUser.Some? && Truthy(targetUser.value.image) then targetUser.value.image.value else DefaultAvatar
  }

  /** `${origin}/call/${channelId}`. */
  function CallUrl(origin: string, channelId: string): (url: string)
    ensures StartsWith(url, origin) && url[|origin|..] == App.RoutePath(App.CallRoute(channelId))
  {
    origin + "/call/" + channelId
  }

  /** The call link of a chat between two users whose ids hold no `/` opens that channel's call page. */
  lemma CallUrlOpensCall(origin: string, selfId: string, targetId: string)
    requires '/' !in selfId && '/' !in targetId
    ensures App.RouteOf(CallUrl(origin, ChannelId(selfId, targetId))[|origin|..]) ==
      Some(App.CallRoute(ChannelId(selfId, targetId)))
  {
    var id := ChannelId(selfId, targetId);
    assert '/' !in id by {
      assert id == selfId + "-" + targetId || id == targetId + "-" + selfId;
      if id == selfId + "-" + targetId {
        assert forall k :: 0 <= k < |id| ==> id[k] != '/' by {
          forall k | 0 <= k < |id| ensures id[k] != '/' {
            if k < |selfId| { assert id[k] == selfId[k]; }
            else if k > |selfId| { assert id[k] == targetId[k - |selfId| - 1]; }
          }
        }
      } else {
        assert forall k :: 0 <= k < |id| ==> id[k] != '/' by {
          forall k | 0 <= k < |id| ensures id[k] != '/' {
            if k < |targetId| { assert id[k] == targetId[k]; }
            else if k > |targetId| { assert id[k] == selfId[k - |targetId| - 1]; }
          }
        }
      }
    }
    App.RouteOfRoutePath(App.CallRoute(id));
  }

  const VideoCallPrefix := "🎥 I've started a video call. Join me here: "
  const VideoCallToast := "Video call link sent successfully!"

  /** What `handleVideoCall` does: the message it sends on the channel, and the success toast. */
  datatype VideoCallEffect = VideoCallEffect(channelId: string, text: string, toast: string)

  /** `handleVideoCall`: nothing without a channel; otherwise the call link, sent on that channel. */
  function HandleVideoCall(channel: Option<Channel>, origin: string): (r: Option<VideoCallEffect>)
    ensures r.Some? <==> channel.Some?
    ensures r.Some? ==> r.value.channelId == channel.value.id && r.value.toast == VideoCallToast
    ensures r.Some? ==> (StartsWith(r.value.text, VideoCallPrefix) &&
      r.value.text[|VideoCallPrefix|..] == CallUrl(origin, channel.value.id))
  {
    if channel.Some? then
      Some(VideoCallEffect(channel.value.id, VideoCallPrefix + CallUrl(origin, channel.value.id), VideoCallToast))
    else None
  }

  /** The sidebar items, in display order. */
  const SidebarLabels: seq<string> := ["Chat Feed", "People Feed", "Notifications"]

  /** `handleNavigation`: the path navigated to, if any. */
  function HandleNavigation(name: string): (path: Option<string>)
    ensures path == Some("/") <==> name == "People Feed"
    ensures path == Some("/notifications") <==> name == "Notifications"
    ensures path.None? <==> name != "People Feed" && name != "Notifications"
  {
    if name == "People Feed" then Some("/")
    else if name == "Notifications" then Some("/notifications")
    else None
  }

  /** Of the sidebar items, "Chat Feed" stays put and the other two lead to protected pages of the route table. */
  lemma SidebarNavigation()
    ensures HandleNavigation(SidebarLabels[0]).None?
    ensures forall i :: 1 <= i < |SidebarLabels| ==>
      HandleNavigation(SidebarLabels[i]).Some? &&
      App.RouteOf(HandleNavigation(SidebarLabels[i]).value).Some? &&
      App.IsProtected(App.RouteOf(HandleNavigation(SidebarLabels[i]).value).value)
  {
    App.RouteOfRoutePath(App.RootRoute);
    App.RouteOfRoutePath(App.NotificationsRoute);
  }

  /** The state of a mounted chat page. */
  class ChatPage {
    var channel: Option<Channel>
    var loading: bool
    var chatClient: Option<ChatClient>
    var targetUser: Option<ChatUser>

    /** `useState(null)`, `useState(true)`, `useState(null)`, `useState(null)`. */
    constructor ()
      ensures channel.None? && loading && chatClient.None? && targetUser.None?
      ensures ShowsLoader()
    {
      channel := None;
      loading := true;
      chatClient := None;
      targetUser := None;
    }

    /** The page shows the chat loader until loading is over and both the client and the channel are set. */
    predicate ShowsLoader()
      reads this
      ensures !ShowsLoader() ==> !loading && chatClient.Some? && channel.Some?
      ensures loading ==> ShowsLoader()
    {
      loading || chatClient.None? || channel.None?
    }

    /**
     * One run of `initChat` with `tokenData?.token`, `authUser`, the route's
     * `id` and what the SDK calls do; the result is the error toast, if any.
     */
    method InitChat(token: Option<string>, authUser: Option<User>, targetUserId: string, outcome: InitOutcome)
      returns (toast: Option<string>)
      modifies this
      ensures !Truthy(token) || authUser.None? ==>
        toast.None? && channel == old(channel) && loading == old(loading) &&
        chatClient == old(chatClient) && targetUser == old(targetUser)
      ensures Truthy(token) && authUser.Some? ==> !loading
      ensures Truthy(token) && authUser.Some? && outcome.Watched? ==>
        var self := authUser.value.id;
        var found := TargetMember(outcome.stateMembers, self);
        toast.None? &&
        chatClient == Some(ChatClient(ConnectedUser(authUser.value), token.value)) &&
        channel == Some(OpenedChannel(self, targetUserId, outcome.stateMembers)) &&
        targetUser == (if found.Some? then Some(found.value.user) else old(targetUser))
      ensures Truthy(token) && authUser.Some? && !outcome.Watched? ==>
        toast == Some(ConnectError) && channel == old(channel) &&
        chatClient == old(chatClient) && targetUser == old(targetUser)
      ensures !Truthy(token) || authUser.None? ==> ShowsLoader() == old(ShowsLoader())
      ensures Truthy(token) && authUser.Some? && outcome.Watched? ==> !ShowsLoader()
      ensures Truthy(token) && authUser.Some? && !outcome.Watched? ==>
        ShowsLoader() == (old(chatClient).None? || old(channel).None?)
    {
      toast := None;
      if !Truthy(token) || authUser.None? {
        return;
      }
      var client := ChatClient(ConnectedUser(authUser.value), token.value);
      if outcome.ConnectFailed? {
        toast := Some(ConnectError);
      } else {
        var currChannel := OpenedChannel(authUser.value.id, targetUserId, []);
        if outcome.WatchFailed? {
          toast := Some(ConnectError);
        } else {
          currChannel := currChannel.(stateMembers := outcome.stateMembers);
          var targetMember := TargetMember(currChannel.stateMembers, authUser.value.id);
          if targetMember.Some? {
            targetUser := Some(targetMember.value.user);
          }
          chatClient := Some(client);
          channel := Some(currChannel);
        }
      }
      loading := false;
    }
  }
}
