# Friend requests and the live chat list, modelled in Dafny

This project models the two non-trivial parts of a small real-time chat
application. Its back end is Redis, Pusher and next-auth.

- **Friend-request admission** (`POST /api/friends/add`). The handler runs a
  fixed sequence of terminal checks. Each failed check returns a status and a
  text body. When every check passes, the handler publishes one
  `incoming_friend_requests` event on the target's channel. It then adds the
  caller's id to the target's `user:<id>:incoming_friend_requests` set.
- **Sidebar chat list** (`SidebarChatList`). This is a client component. It
  keeps the active chats and the unseen messages. It subscribes to the
  session user's `:chats` and `:friends` channels and binds the `new_message`
  and `new_friend` handlers. When the pathname changes, it drops the unseen
  messages that the pathname covers. It renders one row per chat, with a
  badge holding that friend's unseen count.

Files:

- `wrappers.dfy` holds `Option`.
- `friends_add.dfy` (module `FriendsAdd`) models the route. `Decide` is a pure
  function. It gives the response and the list of effects: a publish, then a
  set-add, in the source's order. `Run` applies those effects to the store
  and the publish log. `Backend.Post` is the handler as an imperative method
  over a class that holds the store maps and the log. It is proved to
  produce `Decide`'s response and `Run`'s new state.
- `sidebar.dfy` (module `Sidebar`) models the component. Pure functions give
  the unseen filter, the per-friend count, the badge and the rows. The class
  `PusherClient` holds the subscribed channels and the bound handlers. The
  class `SidebarChatList` holds the component state. Its methods are the two
  handlers, the effect's setup and cleanup, the pathname filter, mount,
  navigation, unmount and `onClick`.

These inputs are parameters, and the model assumes nothing about them:

- the session, `Option<Session>`;
- the payload validator `addFriendValidator`, a `Json -> Option<string>` where
  `None` is a ZodError;
- `toPusherKey`, a `string -> string`;
- `chatHrefConstructor`, a `(string, string) -> string`, which the model does
  not assume is symmetric.

The model follows the code as written, including where it behaves differently from what one might expect:

- An email that maps to no id is answered with 400, not a separate
  not-found status. This lookup comes before the session check, so the answer
  is the same with or without a session.
- The source tests the looked-up id with `!id`. So a stored empty id is also
  "This person does not exist.".
- `new_friend` appends without de-duplicating. A friend who is already
  listed appears twice.
- The pathname filter drops every unseen message whose `senderId` is a
  substring of the pathname, for any pathname that contains `"chat"`. It does
  not compare against one peer. Two consequences: a sender whose id occurs
  inside another id loses its entries too, and a sender with an empty id
  always does.
- A `new_message` is suppressed only when the pathname equals
  `"/dashboard/chat/" + chatHrefConstructor(sessionId, senderId)`. There is
  no order-independent comparison of the two ids.
- `activeChats.sort()` compares the plain objects by their string form.
  Every element gives the same string, and `Array.prototype.sort` is stable,
  so the order does not change. The rows are therefore modelled in
  `activeChats` order.

## Model

| member | source | states |
|---|---|---|
| `FriendsAdd.Decide` | src/app/api/friends/add/route.ts:10-55 | The response is 200 exactly when the request is admissible: valid JSON, the validator accepts it, the email resolves, there is a session, the target is not the caller, no request from the caller is pending, and the two are not friends. Any other response carries no effects. On success the effects are the publish on `toPusherKey(user:<id>:incoming_friend_requests)` with `{senderId, senderEmail}`, then the set-add of the caller's id, in that order. |
| `FriendsAdd.Backend.Post` | src/app/api/friends/add/route.ts:10-55 | The imperative handler returns `Decide`'s response. Its new store and publish log are those effects applied to the old ones. |
| `FriendsAdd.MalformedBodyRejected` | src/app/api/friends/add/route.ts:12-53 | A body that is not JSON reaches the generic catch: 400 "Invalid Request", and nothing changes. |
| `FriendsAdd.InvalidPayloadRejected` | src/app/api/friends/add/route.ts:13-51 | A payload the validator refuses gives 422 "Invalid request payload", whatever the store and the session hold, and nothing changes. |
| `FriendsAdd.UnknownEmailRejected` | src/app/api/friends/add/route.ts:14-16 | An email that maps to no id (or to an empty id) gives 400 "This person does not exist.". The answer is the same for any two sessions, and nothing changes. |
| `FriendsAdd.NoSessionRejected` | src/app/api/friends/add/route.ts:18-20 | If the email resolves but there is no session, the answer is 401 "Unauthorised" and nothing changes. |
| `FriendsAdd.SelfRequestRejected` | src/app/api/friends/add/route.ts:23-25 | A target equal to the caller gives 400 "You cannot add yourself as friend". Two stores that agree on the email index give the same answer, whatever their request and friend sets hold. |
| `FriendsAdd.AlreadyAddedRejected` | src/app/api/friends/add/route.ts:29-33 | If the caller is already in the target's incoming set, the answer is 400 "Already added this User", even when the two are also friends. Nothing changes. |
| `FriendsAdd.AlreadyFriendsRejected` | src/app/api/friends/add/route.ts:35-39 | If no request is pending and the target is in the caller's friends set, the answer is 400 "Already friends with this user" and nothing changes. |
| `FriendsAdd.RejectedChangesNothing` | src/app/api/friends/add/route.ts:15-39 | A request that is not admissible gets a non-200 response and leaves the store and the publish log unchanged. |
| `FriendsAdd.AcceptedChangesOnlyTargetIncoming` | src/app/api/friends/add/route.ts:43-47 | An admissible request appends exactly one event to the log and adds the caller to the target's incoming set. The email index is unchanged, and so is every other set key: in particular every friends set and every other user's incoming set. |
| `FriendsAdd.RepeatRejected` | src/app/api/friends/add/route.ts:29-45 | The same request, repeated against the store the first one produced, gets 400 "Already added this User" and changes nothing. The target's incoming set is the original set plus the caller. |
| `FriendsAdd.IncomingKeyInjective` | src/app/api/friends/add/route.ts:29-45 | Two different user ids never share the key `user:<id>:incoming_friend_requests`. |
| `FriendsAdd.IncomingKeyNotFriendsKey` | src/app/api/friends/add/route.ts:35-45 | No incoming-request key is equal to any `user:<id>:friends` key. |
| `Sidebar.SidebarChatList.constructor` | src/components/SidebarChatList.tsx:20-24 | The initial state has `activeChats == friends`, no unseen messages, no toasts, and the component not yet mounted. |
| `Sidebar.SidebarChatList.OnNewMessage` | src/components/SidebarChatList.tsx:29-45 | It runs only while mounted, with its handler bound. A message whose sender's chat path equals the current pathname changes nothing and raises no toast. Any other message raises exactly one toast and is appended to `unseenMessages`; earlier entries are kept. |
| `Sidebar.SidebarChatList.OnNewFriend` | src/components/SidebarChatList.tsx:49-53 | It runs only while mounted, with its handler bound. The friend is appended to `activeChats` unconditionally, with no de-duplication. |
| `Sidebar.SidebarChatList.Setup` | src/components/SidebarChatList.tsx:26-53 | Setup subscribes `toPusherKey(user:<session>:chats)` and `toPusherKey(user:<session>:friends)`. It binds newly made `new_message` and `new_friend` handlers, and nothing else in the client changes. |
| `Sidebar.SidebarChatList.Cleanup` | src/components/SidebarChatList.tsx:55-60 | Cleanup unsubscribes exactly those two channels and unbinds exactly the current run's two handlers. |
| `Sidebar.CleanupUndoesSetup` | src/components/SidebarChatList.tsx:26-60 | If neither channel was subscribed before and the handlers are new, setup followed by cleanup restores the client's channels and bindings exactly. |
| `Sidebar.CleanupDropsPriorSubscription` | src/components/SidebarChatList.tsx:55-57 | Where restoration stops: a channel that was already subscribed before setup is not subscribed after cleanup, so the client's state is not restored. |
| `Sidebar.SidebarChatList.FilterSeen` | src/components/SidebarChatList.tsx:63-67 | The pathname effect leaves `unseenMessages` as `PathnameEffect(pathname, old)`: filtered when the pathname contains "chat", unchanged otherwise or when there is no pathname. |
| `Sidebar.SidebarChatList.Mount` | src/components/SidebarChatList.tsx:26-67 | The first render runs setup, then the pathname filter. |
| `Sidebar.SidebarChatList.Navigate` | src/components/SidebarChatList.tsx:26-67 | A new pathname equal to the current one changes nothing: same handlers, same client state, same unseen messages, since neither effect's dependencies changed. A different pathname runs the old cleanup, sets the pathname, runs a new setup with new handlers, then filters for the new pathname. |
| `Sidebar.SidebarChatList.Unmount` | src/components/SidebarChatList.tsx:55-60 | Teardown runs the cleanup and leaves the component unmounted. |
| `Sidebar.ClearSeen` | src/components/SidebarChatList.tsx:65 | The filtered list is no longer than the input. A message is in it exactly when it was unseen and its `senderId` is not a substring of the pathname. |
| `Sidebar.ClearSeenAppend` | src/components/SidebarChatList.tsx:65 | The filter distributes over concatenation, so the kept messages stay in their original order. |
| `Sidebar.ClearSeenIdempotent` | src/components/SidebarChatList.tsx:65 | Filtering twice with the same pathname gives the same list as filtering once. |
| `Sidebar.PathnameEffectIdempotent` | src/components/SidebarChatList.tsx:63-67 | Running the pathname effect twice gives the same result as running it once. |
| `Sidebar.IncludesIffOccurs` | src/components/SidebarChatList.tsx:64-65 | `Includes`, the model of `String.prototype.includes`, holds exactly when the needle occurs at some position of the string. |
| `Sidebar.ChatPathMentionsChat` | src/components/SidebarChatList.tsx:63-70 | Every conversation path `/dashboard/chat/<href>` contains "chat", so visiting one always runs the unseen filter. |
| `Sidebar.SidebarChatList.OnClick` | src/components/SidebarChatList.tsx:69-71 | A click navigates to `"/dashboard/chat/" + chatHrefConstructor(sessionId, friendId)`. On that page, messages from that friend raise no toast, and the path contains "chat". |
| `Sidebar.SentBy` | src/components/SidebarChatList.tsx:76-78 | A message is in the per-friend filter exactly when it is unseen and its `senderId` equals the friend's id. |
| `Sidebar.UnseenCountIsMultiplicity` | src/components/SidebarChatList.tsx:76-78 | The badge count equals the number of times the friend's id occurs among the unseen messages' sender ids. |
| `Sidebar.UnseenCountAppend` | src/components/SidebarChatList.tsx:42-78 | Appending one unseen message raises its sender's count by one. Every other friend's count is unchanged. |
| `Sidebar.UnseenCountAfterClear` | src/components/SidebarChatList.tsx:63-78 | After the filter, a friend whose id occurs in the pathname has count 0. Every other friend keeps its count. |
| `Sidebar.BadgeShownIffUnseen` | src/components/SidebarChatList.tsx:76-86 | The badge is shown exactly when some unseen message is from that friend. When shown, it displays the count. |
| `Sidebar.Rows` | src/components/SidebarChatList.tsx:75-90 | There is one row per `activeChats` entry, in list order. A row shows a badge exactly when some unseen message is from that friend, and the badge displays how many times the friend's id occurs among the unseen senders. |
| `Sidebar.SidebarChatList.Rendered` | src/components/SidebarChatList.tsx:73-92 | The rendered list has one row per active chat, in list order. Each row shows a badge exactly when that friend has an unseen message, and the badge displays how many times the friend's id occurs among the unseen senders. |

## Left out

- Rendering, CSS classes and the toast's content (`UnseenChatToast`). A toast is modelled as an entry in a log of messages.
- Pusher transport and delivery. The handlers are methods called directly, and event routing by channel or event name is not modelled. Nor is cross-channel ordering.
- Pusher client internals. `subscribe` and `unsubscribe` are modelled as set insert and remove. `bind` and `unbind` add and remove an (event, handler) pair.
- The Redis HTTP client (`fetchRedis`, `db`). The store is two maps: string keys and set keys. A key holding the wrong type, and any thrown store error, are not modelled. The generic catch branch is modelled only for a body that is not JSON.
- The definitions of `toPusherKey`, `chatHrefConstructor` and `addFriendValidator`. They are function parameters, and the model assumes nothing about their format or symmetry.
- next-auth's `getServerSession`. It is an input, `Option<Session>`.
- The race between two concurrent identical requests, and the unawaited `trigger` and `sadd` promises. The handler is modelled as sequential and both writes succeed.
- `router.push`'s navigation side effect. `OnClick` returns the href, and `Navigate` models the resulting pathname change.
- React effect scheduling beyond cleanup, setup, then filter on each pathname change. An event that arrives between a render and the effect re-run, while a closure still holds the old pathname, is not modelled.
- `Sidebar.Rows`: does not model `activeChats.sort()`. That call is an in-place no-op on plain objects, for the reason given above. React's duplicate-`key` behaviour is not modelled either.
- Message and user fields that the code never reads (message id, receiver id, timestamp) are not modelled.
