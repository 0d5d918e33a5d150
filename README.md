# strmix.live client logic in Dafny

strmix.live is a language-exchange social app. Users sign up, complete an
onboarding form (name, bio, native and learning language, location, avatar),
send and accept friend requests, and chat or video-call with friends through
Stream. This project models the decision logic of the React client:

- the route guard in `App.jsx`: loader, authentication and onboarding flags, and the seven-route table with its redirects;
- the chat page: the symmetric channel id, the search for the other member, the `initChat` effect with its guard and loading flag, the loader condition, the video-call link and the sidebar navigation;
- the home page: the tab state, the set of users with a pending outgoing request (built by a loop), list defaults, the page's content choice and the cache invalidation after sending a request;
- the notification page: the incoming/accepted partition with its defaults, the badge count, the empty state, the sections, the plural suffix and the cache invalidation after accepting;
- the onboarding page: the form record and its initial values, single-field updates, the random avatar URL, the language list, submission, and the mutation's success and error handling;
- the four user cards: the language-to-flag table and its case-insensitive lookup, including the names a plain object inherits (one copy per card, proved equal), `capitalize`, the chat link, button state and labels, and which party of a request a card shows.

React hook results (query data, loading flags, `isPending`), the browser origin, the random avatar index and the outcome of Stream SDK calls are inputs.
State the source mutates in place is a `class`:

- `formState` of the onboarding page;
- `tab` and `outgoingRequestsIds` of the home page;
- the four state variables of the chat page;
- the react-query cache, modelled as the set of cached query keys and the set of keys marked stale.

Everything else is a function.

Modules: `Wrappers` (Option), `Text` (ASCII case mapping, JavaScript string `<`, `join`, decimal rendering, property reads on object literals), `Social` (the records the client receives and the request cards' language line), `QueryCache`, `App`, `ChatPage`, `HomePage`, `NotificationPage`, `OnboardPage`, `FriendCard`, `RecommendedCard`, `IncomingCard`, `AcceptRequest`.

## Model

| member | source | states |
|---|---|---|
| App.GetAuthUser | client/src/App.jsx:19-27 | the query data is null exactly when the `/auth/me` request fails, and otherwise the response body |
| App.AuthUserOf | client/src/App.jsx:37 | `data?.user`: no user without data, else the body's user field |
| App.IsAuthenticated | client/src/App.jsx:47 | `Boolean(authUser)`: every user record counts as authenticated, a missing one does not |
| App.IsOnboarded | client/src/App.jsx:48 | only an authenticated user can be onboarded, and then exactly when the record's `isOnboarded` is set |
| App.AuthenticatedIffUserFetched | client/src/App.jsx:19-37 | a failed `/auth/me` yields null; the user is authenticated exactly when the request succeeded and its body holds a user |
| App.RouteOf | client/src/App.jsx:54-62 | a path matched by the route table is the path of a well-formed route (parameter a single non-empty segment) |
| App.RouteOfRoutePath | client/src/App.jsx:54-62 | every route's own path is matched by that route and no other, so the seven patterns do not overlap |
| App.AppView | client/src/App.jsx:46-61 | the loader while the auth query loads whatever the path; otherwise the element of the matching route, or nothing for an unknown path |
| App.RouteElement | client/src/App.jsx:55-61 | a route renders its own page exactly when the session may see it (guest routes: unauthenticated; `/onboarding`: authenticated and not onboarded; the rest: authenticated and onboarded), and every redirect goes to the landing path of the session state |
| App.ProtectedRouteRule | client/src/App.jsx:55-60 | `/`, `/notifications`, `/call/:id`, `/chat/:id` render their page iff authenticated and onboarded; else redirect to `/login` when unauthenticated and to `/onboarding` otherwise |
| App.GuestRouteRule | client/src/App.jsx:56-57 | `/signup` and `/login` render iff unauthenticated; authenticated users go to `/` when onboarded, else `/onboarding` |
| App.OnboardingRouteRule | client/src/App.jsx:61 | `/onboarding` renders iff authenticated and not onboarded; onboarded users go to `/`, visitors to `/login` |
| App.RedirectsGoToLanding | client/src/App.jsx:55-61 | every redirect for a session state targets one landing path, which is a route of the table rendering a page in that state |
| App.NoRedirectLoops | client/src/App.jsx:55-61 | from any matched path, either the page renders or the one redirect lands on a path that renders |
| ChatPage.SortPair | client/src/pages/ChatPage.jsx:78 | `[a, b].sort()` is a permutation of the two ids, ordered by string `<` |
| ChatPage.ChannelId | client/src/pages/ChatPage.jsx:78 | the channel id is the two ids joined by "-", the smaller one first |
| ChatPage.ChannelIdSymmetric | client/src/pages/ChatPage.jsx:78 | either participant opening the chat computes the same channel id |
| ChatPage.FirstDash | client/src/pages/ChatPage.jsx:78 | in `x-y` with a dash-free `x`, the first dash stands right after `x` |
| ChatPage.DashSplit | client/src/pages/ChatPage.jsx:78 | a joined id with a dash-free first part splits back into its two parts |
| ChatPage.ChannelIdDeterminesPair | client/src/pages/ChatPage.jsx:78 | for dash-free ids, two channel ids are equal only for the same unordered pair of users |
| ChatPage.ConnectedUser | client/src/pages/ChatPage.jsx:77 | `connectUser` is given the auth user's id, full name and picture |
| ChatPage.OpenedChannel | client/src/pages/ChatPage.jsx:78-79 | the channel is of type "messaging", has the sorted-pair id and is created with members exactly `[self, target]` |
| ChatPage.OpenedChannelSharedByBoth | client/src/pages/ChatPage.jsx:78-79 | both participants open a channel with the same id and the same two members |
| ChatPage.TargetMember | client/src/pages/ChatPage.jsx:81-82 | the first member whose id differs from self; none exactly when every member is self |
| ChatPage.TargetFoundBesideSelf | client/src/pages/ChatPage.jsx:81-83 | in a channel holding self and another user, in either order, the other user is found |
| ChatPage.ContactName | client/src/pages/ChatPage.jsx:189 | the header shows the target's name when it is non-empty, else "User"; never empty |
| ChatPage.ContactImage | client/src/pages/ChatPage.jsx:185 | the header picture is the target's image when non-empty, else the default avatar; never empty |
| ChatPage.CallUrl | client/src/pages/ChatPage.jsx:100 | the call link is the origin followed by the path of the `/call/:id` route for the channel id |
| ChatPage.CallUrlOpensCall | client/src/pages/ChatPage.jsx:100 | for ids without `/`, the link's path is matched by the route table as the call route of that channel |
| ChatPage.HandleVideoCall | client/src/pages/ChatPage.jsx:98-104 | a message is sent iff a channel exists; it goes to that channel, is the fixed text followed by the call link, and raises the success toast |
| ChatPage.HandleNavigation | client/src/pages/ChatPage.jsx:116-122 | "People Feed" goes to `/`, "Notifications" to `/notifications`, and any other label causes no navigation |
| ChatPage.SidebarNavigation | client/src/pages/ChatPage.jsx:116-122 | of the sidebar items, "Chat Feed" stays put and the other two go to protected routes of the table |
| ChatPage.ChatPage.constructor | client/src/pages/ChatPage.jsx:57-60 | channel, client and target start unset and loading starts true, so the loader is shown |
| ChatPage.ChatPage.ShowsLoader | client/src/pages/ChatPage.jsx:112 | the chat UI appears only when loading is over and both the client and the channel are set; while loading the loader shows |
| ChatPage.ChatPage.InitChat | client/src/pages/ChatPage.jsx:72-94 | without token or user, nothing changes and the loader stays; past the guard loading becomes false; on success client, channel and (if found) target are set and the loader goes; on failure the error toast is raised and nothing else is set |
| HomePage.RecipientIds | client/src/pages/HomePage.jsx:72-74 | every request's recipient id is collected, and there are at most as many ids as requests |
| HomePage.RecipientIdsMembership | client/src/pages/HomePage.jsx:71-74 | an id is in the collected set iff some fetched outgoing request goes to it |
| HomePage.CollectRecipientIds | client/src/pages/HomePage.jsx:72-74 | the `forEach` loop of `add`s builds exactly the set of recipient ids |
| HomePage.HomePage.constructor | client/src/pages/HomePage.jsx:47-48 | the tab starts as "friends" and the id set starts empty |
| HomePage.HomePage.SetTab | client/src/pages/HomePage.jsx:160-215 | a tab button sets the tab to its value, one of the two tabs |
| HomePage.HomePage.SyncOutgoingRequestIds | client/src/pages/HomePage.jsx:71-77 | a non-empty fetched list replaces the set by its recipient ids, so an id is in the set iff some fetched request goes to it; an empty or missing list leaves the set unchanged |
| HomePage.ListOrEmpty | client/src/pages/HomePage.jsx:52-56 | friends and recommended users default to the empty list until fetched |
| HomePage.Recommendations | client/src/pages/HomePage.jsx:244-254 | one card per recommended user, in order, flagged (`outgoingRequestsIds.has`) iff the user's id is in the set |
| HomePage.PageContent | client/src/pages/HomePage.jsx:194-258 | the friends loader iff on the friends tab and loading; "No Friends Yet" iff there, not loading and the list is empty; friend cards, in list order, iff the list is non-empty; the discover loader iff on the other tab and loading; recommended cards iff there and not loading |
| HomePage.SendSuccessMarksOnlyOutgoing | client/src/pages/HomePage.jsx:64-67 | with the intended filter, a successful send marks the cached "outgoingFriendReqs" query stale and nothing else |
| HomePage.AsWrittenSendInvalidatesEveryQuery | client/src/pages/HomePage.jsx:66 | the filter as written matches every query: the whole cache becomes stale, and an example cache where that differs from the intended result |
| HomePage.OnSendSuccess | client/src/pages/HomePage.jsx:64-67 | the send mutation's success adds only "outgoingFriendReqs" to the stale keys (corrected behaviour) |
| NotificationPage.IncomingRequests | client/src/pages/NotificationPage.jsx:52 | incoming requests default to empty when the response or the field is missing |
| NotificationPage.AcceptedRequests | client/src/pages/NotificationPage.jsx:53 | accepted requests default to empty when the response or the field is missing |
| NotificationPage.Badge | client/src/pages/NotificationPage.jsx:99 | the badge is a decimal number followed by " notifications", and the number is the incoming count plus the accepted count |
| NotificationPage.PluralSuffix | client/src/pages/NotificationPage.jsx:131 | the suffix is empty iff the count is 1, and "s" otherwise |
| NotificationPage.PageContent | client/src/pages/NotificationPage.jsx:108-154 | loading view iff loading; empty state iff loaded and both lists empty; otherwise each section shows iff its list is non-empty, and at least one shows |
| NotificationPage.CaptionPlural | client/src/pages/NotificationPage.jsx:131-165 | each shown section's caption carries "s" iff its count differs from 1 |
| NotificationPage.AcceptSuccessMarksRequestsAndFriends | client/src/pages/NotificationPage.jsx:44-47 | a successful accept marks exactly the cached "friendRequests" and "friends" queries stale |
| NotificationPage.OnAcceptSuccess | client/src/pages/NotificationPage.jsx:44-47 | the two invalidations add exactly those two cached keys to the stale set |
| QueryCache.Invalidated | client/src/pages/NotificationPage.jsx:45 | invalidation only adds cached keys, keeps everything already stale, adds every matching cached key and no other |
| QueryCache.InvalidateByKey | client/src/pages/NotificationPage.jsx:45-46 | a `{ queryKey }` filter adds exactly that key if it is cached |
| QueryCache.InvalidateWithoutKey | client/src/pages/HomePage.jsx:66 | a filter without a query key adds every cached key |
| QueryCache.QueryClient.constructor | client/src/pages/NotificationPage.jsx:31 | the client starts with the given cached and stale keys, stale ones among the cached |
| QueryCache.QueryClient.InvalidateQueries | client/src/pages/NotificationPage.jsx:45-46 | `invalidateQueries` updates the stale keys as `Invalidated` says, keeping the stale keys among the cached ones |
| OnboardPage.InitialForm | client/src/pages/OnboardPage.jsx:60-67 | each of the six fields starts as the user's value, or "" when the user or the value is missing |
| OnboardPage.FormExtensionality | client/src/pages/OnboardPage.jsx:60-67 | a form is determined by its six field values |
| OnboardPage.WithField | client/src/pages/OnboardPage.jsx:84-85 | the named field takes the new value and the other five keep theirs |
| OnboardPage.WithFieldLaws | client/src/pages/OnboardPage.jsx:84-85 | writing a field's own value changes nothing; writing twice keeps the last value |
| OnboardPage.OnboardPage.constructor | client/src/pages/OnboardPage.jsx:60-67 | the form state starts as the initial form of the current user |
| OnboardPage.OnboardPage.HandleChange | client/src/pages/OnboardPage.jsx:84-85 | `handleChange` replaces the form by its single-field update |
| OnboardPage.AvatarUrl | client/src/pages/OnboardPage.jsx:98 | the avatar address starts with the avatar service prefix and ends in ".png" |
| OnboardPage.AvatarUrlRoundTrip | client/src/pages/OnboardPage.jsx:98 | the index is read back from the address, so distinct indices give distinct avatars |
| OnboardPage.OnboardPage.HandleRandomAvatar | client/src/pages/OnboardPage.jsx:96-101 | only `profilePic` changes, to the avatar address of the drawn index in 1..100, and the toast is raised |
| OnboardPage.OnboardPage.HandleSubmit | client/src/pages/OnboardPage.jsx:89-92 | the body submitted is the current form, unchanged |
| OnboardPage.OnOnboardingSuccess | client/src/pages/OnboardPage.jsx:73-76 | success raises "Onboarding complete!" and marks only the cached "authUser" query stale |
| OnboardPage.ErrorMessage | client/src/pages/OnboardPage.jsx:77-79 | the error toast is the server's message when non-empty, else "Something went wrong."; never empty |
| OnboardPage.LanguagesLowerToFlagKeys | client/src/pages/OnboardPage.jsx:40-44 | the 14 options lower-case, in order, to the keys of the flag table |
| OnboardPage.LowerAgreeWithFlagTable | client/src/pages/OnboardPage.jsx:40-44 | a list lower-casing to the table's keys is duplicate-free, each entry has a flag, and every table language is offered |
| OnboardPage.LanguagesAgreeWithFlagTable | client/src/pages/OnboardPage.jsx:40-44 | the options are distinct, every option gets a flag, and every language of the table is offered |
| OnboardPage.LanguagesAreCapitalized | client/src/pages/OnboardPage.jsx:40-44 | a chosen option is displayed unchanged by the friend card's `capitalize` |
| FriendCard.FlagTableKeysListed | client/src/components/FriendCard.jsx:5-9 | the table's keys are exactly the 14 listed languages |
| FriendCard.FlagLanguagesDistinct | client/src/components/FriendCard.jsx:5-9 | the listed languages are distinct |
| FriendCard.FlagCodesDistinct | client/src/components/FriendCard.jsx:5-9 | the listed codes are distinct |
| FriendCard.FlagTableSize | client/src/components/FriendCard.jsx:5-9 | the table has exactly 14 keys |
| FriendCard.FlagKeysLowerCase | client/src/components/FriendCard.jsx:5-9 | every key is already lower case, so the lower-cased lookup can reach it |
| FriendCard.FlagTableCodes | client/src/components/FriendCard.jsx:5-9 | the i-th language maps to the i-th code, and every value is a listed code |
| FriendCard.FlagCodesShape | client/src/components/FriendCard.jsx:5-9 | there are 14 codes, each two lower-case letters |
| FriendCard.FlagTableInjective | client/src/components/FriendCard.jsx:5-9 | no two languages share a code |
| FriendCard.GetLanguageFlag | client/src/components/FriendCard.jsx:13-19 | none for an absent or empty language; for a lower-cased name that is a key, the table's code; for "constructor" and "__proto__", inherited from `Object.prototype`, the text of `Object` and of the prototype; none for any other name |
| FriendCard.InheritedNameGetsImage | client/src/components/FriendCard.jsx:15-17 | any spelling of "constructor" gets an image, built from the text of `Object`, which is no country code of the table |
| FriendCard.CapitalizedConstructor | client/src/components/FriendCard.jsx:15 | "Constructor" lower-cases to "constructor" |
| Text.InheritedProperty | client/src/components/FriendCard.jsx:15 | the properties an object literal inherits: `constructor`, `__proto__` and the ten other methods of `Object.prototype`, all truthy objects |
| Text.LowerCaseInheritedNames | client/src/components/FriendCard.jsx:15 | of the inherited names, a lower-cased key can only be "constructor" or "__proto__" |
| FriendCard.FlagIgnoresCase | client/src/components/FriendCard.jsx:15 | spellings that lower-case alike get the same flag, the same as the lower-case spelling |
| FriendCard.FlagSource | client/src/components/FriendCard.jsx:17 | the flag image comes from the flagcdn 24x18 set as a ".png" |
| FriendCard.DistinctLanguagesDistinctFlags | client/src/components/FriendCard.jsx:13-19 | two names that get an image and differ ignoring case show different images |
| FriendCard.Capitalize | client/src/components/FriendCard.jsx:23 | same length; first character upper-cased, every later one lower-cased; "" stays "" |
| FriendCard.CapitalizeFixedPoints | client/src/components/FriendCard.jsx:23 | the result is capitalized, `capitalize` is the identity exactly on capitalized strings, and it is idempotent |
| FriendCard.ChatLink | client/src/components/FriendCard.jsx:64 | the link target is "/chat/" followed by the friend's id |
| FriendCard.ChatLinkOpensChat | client/src/components/FriendCard.jsx:64 | the link is matched by the route table as the chat route with the friend's id |
| FriendCard.View | client/src/components/FriendCard.jsx:39-57 | the card shows the friend's picture and name, and both language lines with flag and capitalized name |
| RecommendedCard.SameTableAsFriendCard | client/src/components/RecommendedCard.jsx:2-6 | this card's copy of the table is the friend card's |
| RecommendedCard.GetLanguageFlag | client/src/components/RecommendedCard.jsx:10-16 | this card's copy of the lookup gives the friend card's result for every language |
| RecommendedCard.RequestButton | client/src/components/RecommendedCard.jsx:55-64 | disabled iff requested; "✓ Request Sent" iff requested, else "➕ Add Friend"; a click sends the request for exactly this user's id |
| RecommendedCard.View | client/src/components/RecommendedCard.jsx:33-49 | the card shows the user's picture and name, and both language lines with the flag and the raw name (empty when missing) |
| IncomingCard.SameTableAsFriendCard | client/src/components/IncomingCard.jsx:2-6 | this card's copy of the table is the friend card's |
| IncomingCard.GetLanguageFlag | client/src/components/IncomingCard.jsx:10-16 | this card's copy of the lookup gives the friend card's result for every language |
| Social.LanguageLine | client/src/components/IncomingCard.jsx:43-54 | a request card's language line (the same lines as AcceptRequest.jsx:45-56) shows iff the language is non-empty, with the given flag and the prefixed name |
| IncomingCard.View | client/src/components/IncomingCard.jsx:31-54 | the card shows the sender: picture, name, and each language line iff that field is non-empty, with the friend card's flag and the prefixed name |
| IncomingCard.ViewIgnoresRecipient | client/src/components/IncomingCard.jsx:31-54 | the recipient has no influence on the card |
| IncomingCard.AcceptButton | client/src/components/IncomingCard.jsx:62-68 | disabled iff pending; "⏳ Accepting..." iff pending, else "✓ Accept Request"; a click accepts exactly this request's id |
| AcceptRequest.SameTableAsFriendCard | client/src/components/AcceptRequest.jsx:2-6 | this card's copy of the table is the friend card's |
| AcceptRequest.GetLanguageFlag | client/src/components/AcceptRequest.jsx:10-16 | this card's copy of the lookup gives the friend card's result for every language |
| AcceptRequest.View | client/src/components/AcceptRequest.jsx:33-56 | the card shows the recipient: picture, name, and each language line iff that field is non-empty, with the friend card's flag and the prefixed name |
| AcceptRequest.ViewIgnoresSender | client/src/components/AcceptRequest.jsx:33-56 | the sender has no influence on the card |
| Text.LowerChar | client/src/components/FriendCard.jsx:15 | ASCII `toLowerCase` of a character: upper-case letters map to their lower-case letter, everything else is kept |
| Text.UpperChar | client/src/components/FriendCard.jsx:23 | ASCII `toUpperCase` of a character, inverse to `LowerChar` on lower-case letters |
| Text.Lower | client/src/components/FriendCard.jsx:15 | `toLowerCase` keeps the length and lower-cases each character |
| Text.Upper | client/src/components/FriendCard.jsx:23 | `toUpperCase` keeps the length and upper-cases each character |
| Text.LowerKeeps | client/src/components/FriendCard.jsx:15 | a string without upper-case letters is its own lower case |
| Text.LowerMatches | client/src/components/FriendCard.jsx:15 | a string whose characters lower-case one by one to another's has that string as its lower case |
| Text.LowerIdempotent | client/src/components/FriendCard.jsx:15 | lower-casing twice is lower-casing once |
| Text.Less | client/src/pages/ChatPage.jsx:78 | the string `<` used by `sort()` is irreflexive, and a proper prefix is smaller than the longer string |
| Text.LessTrichotomy | client/src/pages/ChatPage.jsx:78 | of a < b and b < a at most one holds, and neither holds exactly when a == b |
| Text.LessTransitive | client/src/pages/ChatPage.jsx:78 | a < b and b < c give a < c; with trichotomy, `<` is a strict total order |
| Text.Join | client/src/pages/ChatPage.jsx:78 | `join` of no strings is "" and of one string is that string |
| Text.DigitChar | client/src/pages/NotificationPage.jsx:99 | a digit below 10 renders as a decimal digit character |
| Text.Decimal | client/src/pages/OnboardPage.jsx:98 | a number in a template literal renders as non-empty decimal digits without a leading zero, denoting that number |
| Text.DecimalInjective | client/src/pages/OnboardPage.jsx:98 | distinct numbers render differently |
| Text.DistinctElements | client/src/components/FriendCard.jsx:5-9 | a duplicate-free list has as many distinct elements as entries |

## Left out

- HTTP: every `axiosInstance` call becomes its outcome as an input (`App.MeFetch`, query data, the server's error message).
- The Stream chat and video SDKs: `connectUser`, `channel`, `watch` and `sendMessage` are represented by `ChatPage.InitOutcome` and by the effect `HandleVideoCall` returns. `CallPage.jsx` and `WelcomeMessage.jsx` are not part of this model.
- `StreamChat.getInstance` is a process-wide singleton; the model builds a fresh client value on each successful run.
- `Math.random`: the avatar index is a parameter in 1..100, and the floating-point step that draws it is not modelled. The background particles are markup.
- Toasts are return values (`InitChat`, `HandleRandomAvatar`, `OnOnboardingSuccess`, `HandleVideoCall`) instead of calls into react-hot-toast.
- React scheduling: when effects and queries run, retries, and re-renders. Each `initChat` run is one call of `InitChat` on the current state, and each effect run is one call of `SyncOutgoingRequestIds`.
- `handleBack` (`navigate(-1)`): browser history is not modelled.
- `HomePage.jsx:81-89` logout: it calls an undefined `navigate`, and the model invents no behaviour for it.
- `LoginPage.jsx` and `SignupPage.jsx` are not part of this model. They are form UI over HTTP.
- Markup and styling of every page and card, `ModernHeader.jsx`, `NoNotificationsFound.jsx` and `AppLoader.jsx`. Views are records of the values shown.
- The server (friend-request validation, friend sets, recommendations): its controllers and `server/routes/userRoute.js` are not part of this model.
- Text.Lower, Text.Upper, Text.LowerChar, Text.UpperChar: only ASCII letters change case. JavaScript's Unicode case mapping, which can change a string's length, is not modelled.
- Text.Less: compares code points. JavaScript compares UTF-16 code units, which differs only for characters outside the Basic Multilingual Plane.
- App.RouteOf: route matching is exact. react-router's case-insensitive matching, trailing slashes and URL decoding are not modelled.
- OnboardPage.OnboardPage.HandleChange: covers the six named inputs only. `handleChange` for an input whose `name` is not one of the six fields, which adds a seventh key, is not modelled.
- FriendCard.View: requires both languages to be present, because `capitalize` throws on `undefined`. Rendering a friend without a language is not modelled.
- Text.Decimal: renders every natural number as plain digits. JavaScript switches to exponent notation from 1e21 and loses exactness above 2^53; every number rendered here (an avatar index up to 100, a notification count) is far below both.
- FriendCard.GetLanguageFlag: the text of an inherited property is V8's ("function Object() { [native code] }", "[object Object]"); other engines may word a native function differently. The same holds for the three card copies.
- ChatPage.ChannelIdDeterminesPair: holds for ids without "-", as Mongo object ids are. Ids containing "-" can collide (for example "a-b" with "c" and "a" with "b-c").

## Findings

| source | as written | input that shows it | evidently intended | confidence | as-written member | corrected member |
|---|---|---|---|---|---|---|
| client/src/pages/HomePage.jsx:66 | `queryClient.invalidateQueries(["outgoingFriendReqs"])` passes an array where react-query v5 (the version `isPending` belongs to) expects a filters object. The array has no `queryKey`, so the filter matches every query. | cache holding "friends", "users" and "outgoingFriendReqs": all three become stale | `invalidateQueries({ queryKey: ["outgoingFriendReqs"] })`, as `NotificationPage.jsx:45-46` writes it: only the outgoing-requests query becomes stale | medium (react-query v5 inferred from `isPending`); not executed | HomePage.AsWrittenSendInvalidatesEveryQuery | HomePage.SendSuccessMarksOnlyOutgoing |
