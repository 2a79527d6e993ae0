/**
 * The sidebar's live chat list (`SidebarChatList`).
 *
 * Component state is the list of active chats, the unseen messages and the
 * toasts raised so far; the Pusher client is a separate object holding the
 * subscribed channels and the bound handlers. `toPusherKey` and
 * `chatHrefConstructor` are inputs whose definitions the model does not
 * assume: not their format, and not that the chat href is symmetric.
 */
module Sidebar {
  import opened Wrappers

  datatype User = User(id: string, name: string, email: string, image: string)

  /** A message as the `new_message` event delivers it. */
  datatype Message = Message(senderId: string, text: string, senderName: string, senderImg: string)

  const ChatPrefix := "/dashboard/chat/"
  const NewMessage := "new_message"
  const NewFriend := "new_friend"

  // ---------------------------------------------------------------------
  // String search, as JavaScript's `includes`

  predicate StartsWith(s: string, prefix: string)
  {
    |prefix| <= |s| && s[..|prefix|] == prefix
  }

  /** `hay.includes(needle)`; the empty needle is found in every string. */
  predicate Includes(hay: string, needle: string)
    decreases |hay|
  {
    StartsWith(hay, needle) || (|hay| > 0 && Includes(hay[1..], needle))
  }

  /** `needle` occurs in `hay` starting at position `i`. */
  predicate OccursAt(hay: string, needle: string, i: nat)
  {
    i + |needle| <= |hay| && hay[i..i + |needle|] == needle
  }

  lemma {:induction false} IncludesAt(hay: string, needle: string, i: nat)
    requires OccursAt(hay, needle, i)
    ensures Includes(hay, needle)
    decreases i
  {
    if i == 0 {
      assert StartsWith(hay, needle);
    } else {
      assert hay[1..][i - 1..i - 1 + |needle|] == hay[i..i + |needle|];
      IncludesAt(hay[1..], needle, i - 1);
    }
  }

  lemma {:induction false} IncludesWitness(hay: string, needle: string)
    requires Includes(hay, needle)
    ensures exists i: nat :: OccursAt(hay, needle, i)
    decreases |hay|
  {
    if StartsWith(hay, needle) {
      assert OccursAt(hay, needle, 0);
    } else {
      IncludesWitness(hay[1..], needle);
      var j: nat :| OccursAt(hay[1..], needle, j);
      assert hay[1..][j..j + |needle|] == hay[j + 1..j + 1 + |needle|];
      assert OccursAt(hay, needle, j + 1);
    }
  }

  /** `Includes` is substring search: both directions. */
  lemma IncludesIffOccurs(hay: string, needle: string)
    ensures Includes(hay, needle) <==> exists i: nat :: OccursAt(hay, needle, i)
  {
    if Includes(hay, needle) {
      IncludesWitness(hay, needle);
    }
    if exists i: nat :: OccursAt(hay, needle, i) {
      var i: nat :| OccursAt(hay, needle, i);
      IncludesAt(hay, needle, i);
    }
  }

  // ---------------------------------------------------------------------
  // Paths

  /** The path of the conversation between the session user and a peer. */
  function ChatPath(chatHref: (string, string) -> string, sessionId: string, peerId: string): string
  {
    ChatPrefix + chatHref(sessionId, peerId)
  }

  /** Every conversation path mentions "chat", so visiting one runs the unseen filter. */
  lemma ChatPathMentionsChat(chatHref: (string, string) -> string, sessionId: string, peerId: string)
    ensures Includes(ChatPath(chatHref, sessionId, peerId), "chat")
  {
    var p := ChatPath(chatHref, sessionId, peerId);
    assert p[11..15] == "chat";
    IncludesAt(p, "chat", 11);
  }

  /** `chatHandler`'s test: notify unless the current page is the sender's conversation. */
  predicate ShouldNotify(pathname: Option<string>, chatHref: (string, string) -> string,
                         sessionId: string, senderId: string)
  {
    pathname != Some(ChatPath(chatHref, sessionId, senderId))
  }

  // ---------------------------------------------------------------------
  // The unseen-message filter run on navigation

  /** The unseen messages whose sender id does not occur in the pathname, in their original order. */
  function ClearSeen(msgs: seq<Message>, pathname: string): (r: seq<Message>)
    ensures |r| <= |msgs|
    ensures forall m :: m in r <==> m in msgs && !Includes(pathname, m.senderId)
  {
    if msgs == [] then []
    else (if Includes(pathname, msgs[0].senderId) then [] else [msgs[0]]) + ClearSeen(msgs[1..], pathname)
  }

  /** The pathname effect: filter only when there is a pathname and it mentions "chat". */
  function PathnameEffect(pathname: Option<string>, msgs: seq<Message>): seq<Message>
  {
    if pathname.Some? && Includes(pathname.value, "chat") then ClearSeen(msgs, pathname.value) else msgs
  }

  /** Filtering keeps the original order: it distributes over concatenation. */
  lemma {:induction false} ClearSeenAppend(a: seq<Message>, b: seq<Message>, pathname: string)
    ensures ClearSeen(a + b, pathname) == ClearSeen(a, pathname) + ClearSeen(b, pathname)
  {
    if a == [] {
      assert a + b == b;
    } else {
      assert (a + b)[1..] == a[1..] + b;
      ClearSeenAppend(a[1..], b, pathname);
    }
  }

  lemma {:induction false} ClearSeenIdempotent(msgs: seq<Message>, pathname: string)
    ensures ClearSeen(ClearSeen(msgs, pathname), pathname) == ClearSeen(msgs, pathname)
  {
    if msgs != [] {
      var head := if Includes(pathname, msgs[0].senderId) then [] else [msgs[0]];
      ClearSeenAppend(head, ClearSeen(msgs[1..], pathname), pathname);
      ClearSeenIdempotent(msgs[1..], pathname);
      if head != [] {
        assert head[1..] == [];
      }
    }
  }

  /** Running the pathname effect twice is running it once. */
  lemma PathnameEffectIdempotent(pathname: Option<string>, msgs: seq<Message>)
    ensures PathnameEffect(pathname, PathnameEffect(pathname, msgs)) == PathnameEffect(pathname, msgs)
  {
    if pathname.Some? && Includes(pathname.value, "chat") {
      ClearSeenIdempotent(msgs, pathname.value);
    }
  }

  // ---------------------------------------------------------------------
  // Per-friend unseen count and badge

  /** The unseen messages sent by one friend, in their original order. */
  function SentBy(msgs: seq<Message>, friendId: string): (r: seq<Message>)
    ensures |r| <= |msgs|
    ensures forall m :: m in r <==> m in msgs && m.senderId == friendId
  {
    if msgs == [] then []
    else (if msgs[0].senderId == friendId then [msgs[0]] else []) + SentBy(msgs[1..], friendId)
  }

  function UnseenCount(msgs: seq<Message>, friendId: string): nat
  {
    |SentBy(msgs, friendId)|
  }

  /** The badge: the count, shown only when it is positive. */
  function Badge(msgs: seq<Message>, friendId: string): Option<nat>
  {
    var n := UnseenCount(msgs, friendId);
    if n > 0 then Some(n) else None
  }

  function SenderIds(msgs: seq<Message>): (r: seq<string>)
    ensures |r| == |msgs|
    ensures forall i :: 0 <= i < |msgs| ==> r[i] == msgs[i].senderId
  {
    seq(|msgs|, i requires 0 <= i < |msgs| => msgs[i].senderId)
  }

  /** The count is the number of unseen messages from that sender. */
  lemma {:induction false} UnseenCountIsMultiplicity(msgs: seq<Message>, friendId: string)
    ensures UnseenCount(msgs, friendId) == multiset(SenderIds(msgs))[friendId]
  {
    if msgs != [] {
      UnseenCountIsMultiplicity(msgs[1..], friendId);
      assert SenderIds(msgs) == [msgs[0].senderId] + SenderIds(msgs[1..]);
    }
  }

  /** The badge is shown exactly when some unseen message is from that friend. */
  lemma BadgeShownIffUnseen(msgs: seq<Message>, friendId: string)
    ensures Badge(msgs, friendId).Some? <==> exists m :: m in msgs && m.senderId == friendId
    ensures Badge(msgs, friendId).Some? ==> Badge(msgs, friendId).value == UnseenCount(msgs, friendId)
  {
    var r := SentBy(msgs, friendId);
    if exists m :: m in msgs && m.senderId == friendId {
      var m :| m in msgs && m.senderId == friendId;
      assert m in r;
    }
    if |r| > 0 {
      assert r[0] in r;
    }
  }

  /** One more unseen message raises its sender's count by one and no one else's. */
  lemma {:induction false} UnseenCountAppend(msgs: seq<Message>, m: Message, friendId: string)
    ensures UnseenCount(msgs + [m], friendId) == UnseenCount(msgs, friendId) + (if m.senderId == friendId then 1 else 0)
  {
    if msgs == [] {
      assert msgs + [m] == [m];
      assert [m][1..] == [];
    } else {
      assert (msgs + [m])[1..] == msgs[1..] + [m];
      UnseenCountAppend(msgs[1..], m, friendId);
    }
  }

  /**
   * After the filter, a friend whose id occurs in the pathname has no unseen
   * messages left and every other friend keeps its count.
   */
  lemma {:induction false} UnseenCountAfterClear(msgs: seq<Message>, pathname: string, friendId: string)
    ensures UnseenCount(ClearSeen(msgs, pathname), friendId) ==
              if Includes(pathname, friendId) then 0 else UnseenCount(msgs, friendId)
  {
    if msgs != [] {
      var head := if Includes(pathname, msgs[0].senderId) then [] else [msgs[0]];
      assert ClearSeen(msgs, pathname) == head + ClearSeen(msgs[1..], pathname);
      SentByAppend(head, ClearSeen(msgs[1..], pathname), friendId);
      UnseenCountAfterClear(msgs[1..], pathname, friendId);
      if head != [] {
        assert head[1..] == [];
      }
    }
  }

  lemma {:induction false} SentByAppend(a: seq<Message>, b: seq<Message>, friendId: string)
    ensures SentBy(a + b, friendId) == SentBy(a, friendId) + SentBy(b, friendId)
  {
    if a == [] {
      assert a + b == b;
    } else {
      assert (a + b)[1..] == a[1..] + b;
      SentByAppend(a[1..], b, friendId);
    }
  }

  /** A rendered row: the friend and its badge. */
  datatype Row = Row(friend: User, badge: Option<nat>)

  /** One row per active chat, in list order, each with its friend's badge. */
  function Rows(chats: seq<User>, msgs: seq<Message>): (r: seq<Row>)
    ensures |r| == |chats|
    ensures forall i :: 0 <= i < |chats| ==> r[i].friend == chats[i]
    ensures forall i :: 0 <= i < |chats| ==>
              (r[i].badge.Some? <==> exists m :: m in msgs && m.senderId == chats[i].id)
    ensures forall i :: 0 <= i < |chats| && r[i].badge.Some? ==>
              r[i].badge.value == multiset(SenderIds(msgs))[chats[i].id]
  {
    var r := seq(|chats|, i requires 0 <= i < |chats| => Row(chats[i], Badge(msgs, chats[i].id)));
    forall i | 0 <= i < |chats|
      ensures r[i].badge.Some? <==> exists m :: m in msgs && m.senderId == chats[i].id
      ensures r[i].badge.Some? ==> r[i].badge.value == multiset(SenderIds(msgs))[chats[i].id]
    {
      BadgeShownIffUnseen(msgs, chats[i].id);
      UnseenCountIsMultiplicity(msgs, chats[i].id);
    }
    r
  }

  // ---------------------------------------------------------------------
  // Subscriptions

  /** A callback closure; every effect run makes new ones. */
  class Handler {
    constructor ()
    {
    }
  }

  datatype Binding = Binding(event: string, handler: Handler)

  /** What the Pusher client holds: subscribed channels and bound callbacks. */
  datatype Registry = Registry(channels: set<string>, bindings: set<Binding>)

  /** The channel names the component subscribes to. */
  function ChatsChannel(pusherKey: string -> string, sessionId: string): string
  {
    pusherKey("user:" + sessionId + ":chats")
  }

  function FriendsChannel(pusherKey: string -> string, sessionId: string): string
  {
    pusherKey("user:" + sessionId + ":friends")
  }

  /** The effect's setup: two subscriptions and two bindings. */
  function SetupRegistry(r: Registry, chats: string, friends: string, onMessage: Handler, onFriend: Handler): Registry
  {
    Registry(r.channels + {chats, friends},
             r.bindings + {Binding(NewMessage, onMessage), Binding(NewFriend, onFriend)})
  }

  /** The effect's cleanup: unsubscribe and unbind exactly what setup added. */
  function CleanupRegistry(r: Registry, chats: string, friends: string, onMessage: Handler, onFriend: Handler): Registry
  {
    Registry(r.channels - {chats, friends},
             r.bindings - {Binding(NewMessage, onMessage), Binding(NewFriend, onFriend)})
  }

  /**
   * Cleanup undoes setup when the channels were not already subscribed and
   * the handlers are new, as the effect's freshly made closures are.
   */
  lemma CleanupUndoesSetup(r: Registry, chats: string, friends: string, onMessage: Handler, onFriend: Handler)
    requires chats !in r.channels && friends !in r.channels
    requires Binding(NewMessage, onMessage) !in r.bindings && Binding(NewFriend, onFriend) !in r.bindings
    ensures CleanupRegistry(SetupRegistry(r, chats, friends, onMessage, onFriend), chats, friends, onMessage, onFriend) == r
  {
  }

  /**
   * Where restoration stops: a channel that was already subscribed before
   * setup is no longer subscribed after cleanup.
   */
  lemma CleanupDropsPriorSubscription(r: Registry, chats: string, friends: string, onMessage: Handler, onFriend: Handler)
    requires chats in r.channels
    ensures chats !in CleanupRegistry(SetupRegistry(r, chats, friends, onMessage, onFriend), chats, friends, onMessage, onFriend).channels
    ensures CleanupRegistry(SetupRegistry(r, chats, friends, onMessage, onFriend), chats, friends, onMessage, onFriend) != r
  {
  }

  class PusherClient {
    var channels: set<string>
    var bindings: set<Binding>

    function View(): Registry
      reads this
    {
      Registry(channels, bindings)
    }

    constructor ()
      ensures View() == Registry({}, {})
    {
      channels := {};
      bindings := {};
    }

    method Subscribe(channel: string)
      modifies this
      ensures View() == Registry(old(channels) + {channel}, old(bindings))
    {
      channels := channels + {channel};
    }

    method Unsubscribe(channel: string)
      modifies this
      ensures View() == Registry(old(channels) - {channel}, old(bindings))
    {
      channels := channels - {channel};
    }

    method Bind(event: string, handler: Handler)
      modifies this
      ensures View() == Registry(old(channels), old(bindings) + {Binding(event, handler)})
    {
      bindings := bindings + {Binding(event, handler)};
    }

    method Unbind(event: string, handler: Handler)
      modifies this
      ensures View() == Registry(old(channels), old(bindings) - {Binding(event, handler)})
    {
      bindings := bindings - {Binding(event, handler)};
    }
  }

  // ---------------------------------------------------------------------
  // The component

  class SidebarChatList {
    const sessionId: string
    const friends: seq<User>
    const client: PusherClient
    const pusherKey: string -> string
    const chatHref: (string, string) -> string

    var pathname: Option<string>
    var activeChats: seq<User>
    var unseenMessages: seq<Message>
    /** The messages a toast was raised for, oldest first. */
    var toasts: seq<Message>
    var mounted: bool
    /** The closures of the current effect run. */
    var chatHandler: Handler?
    var newFriendHandler: Handler?

    /** While mounted, the effect's channels are subscribed and its handlers bound. */
    ghost predicate Valid()
      reads this, client
    {
      mounted ==>
        && chatHandler != null && newFriendHandler != null
        && ChatsChannel(pusherKey, sessionId) in client.channels
        && FriendsChannel(pusherKey, sessionId) in client.channels
        && Binding(NewMessage, chatHandler) in client.bindings
        && Binding(NewFriend, newFriendHandler) in client.bindings
    }

    /** The state `useState` starts with; no effect has run yet. */
    constructor (sessionId: string, friends: seq<User>, pathname: Option<string>, client: PusherClient,
                 pusherKey: string -> string, chatHref: (string, string) -> string)
      ensures Valid() && !mounted
      ensures this.sessionId == sessionId && this.friends == friends && this.client == client
      ensures this.pusherKey == pusherKey && this.chatHref == chatHref && this.pathname == pathname
      ensures activeChats == friends && unseenMessages == [] && toasts == []
    {
      this.sessionId := sessionId;
      this.friends := friends;
      this.client := client;
      this.pusherKey := pusherKey;
      this.chatHref := chatHref;
      this.pathname := pathname;
      activeChats := friends;
      unseenMessages := [];
      toasts := [];
      mounted := false;
      chatHandler := null;
      newFriendHandler := null;
    }

    /** `chatHandler`, run only while bound: suppressed on the sender's conversation, otherwise one toast and one unseen entry. */
    method OnNewMessage(message: Message)
      requires Valid() && mounted
      modifies this`unseenMessages, this`toasts
      ensures if ShouldNotify(pathname, chatHref, sessionId, message.senderId)
              then unseenMessages == old(unseenMessages) + [message] && toasts == old(toasts) + [message]
              else unseenMessages == old(unseenMessages) && toasts == old(toasts)
    {
      var shouldNotify := pathname != Some(ChatPrefix + chatHref(sessionId, message.senderId));
      if !shouldNotify {
        return;
      }
      toasts := toasts + [message];
      unseenMessages := unseenMessages + [message];
    }

    /** `newFriendHandler`, run only while bound: append, with no check for a friend already listed. */
    method OnNewFriend(newFriend: User)
      requires Valid() && mounted
      modifies this`activeChats
      ensures activeChats == old(activeChats) + [newFriend]
    {
      activeChats := activeChats + [newFriend];
    }

    /** The first effect's setup: new closures, both channels subscribed, both handlers bound. */
    method Setup()
      requires Valid() && !mounted
      modifies this`mounted, this`chatHandler, this`newFriendHandler, client
      ensures Valid() && mounted
      ensures fresh(chatHandler) && fresh(newFriendHandler)
      ensures client.View() == SetupRegistry(old(client.View()), ChatsChannel(pusherKey, sessionId),
                                             FriendsChannel(pusherKey, sessionId), chatHandler, newFriendHandler)
    {
      var chats := ChatsChannel(pusherKey, sessionId);
      var friendsChannel := FriendsChannel(pusherKey, sessionId);
      client.Subscribe(chats);
      var onMessage := new Handler();
      client.Bind(NewMessage, onMessage);
      client.Subscribe(friendsChannel);
      var onFriend := new Handler();
      client.Bind(NewFriend, onFriend);
      chatHandler, newFriendHandler := onMessage, onFriend;
      mounted := true;
    }

    /** The first effect's cleanup: unsubscribe both channels and unbind both handlers. */
    method Cleanup()
      requires Valid() && mounted
      modifies this`mounted, client
      ensures Valid() && !mounted
      ensures client.View() == CleanupRegistry(old(client.View()), ChatsChannel(pusherKey, sessionId),
                                               FriendsChannel(pusherKey, sessionId), chatHandler, newFriendHandler)
    {
      client.Unsubscribe(ChatsChannel(pusherKey, sessionId));
      client.Unsubscribe(FriendsChannel(pusherKey, sessionId));
      client.Unbind(NewMessage, chatHandler);
      client.Unbind(NewFriend, newFriendHandler);
      mounted := false;
    }

    /** The second effect: drop the unseen messages the current pathname covers. */
    method FilterSeen()
      modifies this`unseenMessages
      ensures unseenMessages == PathnameEffect(pathname, old(unseenMessages))
    {
      if pathname.Some? && Includes(pathname.value, "chat") {
        var path := pathname.value;
        unseenMessages := ClearSeen(unseenMessages, path);
      }
    }

    /** First render: both effects run. */
    method Mount()
      requires Valid() && !mounted
      modifies this`mounted, this`chatHandler, this`newFriendHandler, this`unseenMessages, client
      ensures Valid() && mounted
      ensures fresh(chatHandler) && fresh(newFriendHandler)
      ensures client.View() == SetupRegistry(old(client.View()), ChatsChannel(pusherKey, sessionId),
                                             FriendsChannel(pusherKey, sessionId), chatHandler, newFriendHandler)
      ensures unseenMessages == PathnameEffect(pathname, old(unseenMessages))
    {
      Setup();
      FilterSeen();
    }

    /**
     * A new pathname from the router. React re-runs the two effects only when
     * a dependency changed (`Object.is`), so the same pathname changes
     * nothing; a different one runs cleanup, sets the pathname, runs setup
     * with new closures, then the filter.
     */
    method Navigate(newPathname: Option<string>)
      requires Valid() && mounted
      modifies this`mounted, this`chatHandler, this`newFriendHandler, this`unseenMessages, this`pathname, client
      ensures Valid() && mounted && pathname == newPathname
      ensures old(pathname) == newPathname ==>
                && chatHandler == old(chatHandler) && newFriendHandler == old(newFriendHandler)
                && client.View() == old(client.View())
                && unseenMessages == old(unseenMessages)
      ensures old(pathname) != newPathname ==>
                && fresh(chatHandler) && fresh(newFriendHandler)
                && client.View() ==
                     SetupRegistry(CleanupRegistry(old(client.View()), ChatsChannel(pusherKey, sessionId),
                                                   FriendsChannel(pusherKey, sessionId), old(chatHandler), old(newFriendHandler)),
                                   ChatsChannel(pusherKey, sessionId), FriendsChannel(pusherKey, sessionId),
                                   chatHandler, newFriendHandler)
                && unseenMessages == PathnameEffect(newPathname, old(unseenMessages))
    {
      if newPathname == pathname {
        return;
      }
      Cleanup();
      pathname := newPathname;
      Setup();
      FilterSeen();
    }

    /** Teardown runs the cleanup. */
    method Unmount()
      requires Valid() && mounted
      modifies this`mounted, client
      ensures Valid() && !mounted
      ensures client.View() == CleanupRegistry(old(client.View()), ChatsChannel(pusherKey, sessionId),
                                               FriendsChannel(pusherKey, sessionId), chatHandler, newFriendHandler)
    {
      Cleanup();
    }

    /**
     * `onClick`: the href a click on a friend navigates to. On that page the
     * friend's messages raise no toast, and the unseen filter runs.
     */
    method OnClick(friendId: string) returns (href: string)
      ensures StartsWith(href, ChatPrefix) && href[|ChatPrefix|..] == chatHref(sessionId, friendId)
      ensures !ShouldNotify(Some(href), chatHref, sessionId, friendId)
      ensures Includes(href, "chat")
    {
      href := ChatPrefix + chatHref(sessionId, friendId);
      ChatPathMentionsChat(chatHref, sessionId, friendId);
    }

    /**
     * The rendered list: one row per active chat, in list order, each showing
     * its badge exactly when that friend has unseen messages.
     */
    function Rendered(): (r: seq<Row>)
      reads this
      ensures |r| == |activeChats|
      ensures forall i :: 0 <= i < |activeChats| ==> r[i].friend == activeChats[i]
      ensures forall i :: 0 <= i < |activeChats| ==>
                (r[i].badge.Some? <==> exists m :: m in unseenMessages && m.senderId == activeChats[i].id)
      ensures forall i :: 0 <= i < |activeChats| && r[i].badge.Some? ==>
                r[i].badge.value == multiset(SenderIds(unseenMessages))[activeChats[i].id]
    {
      Rows(activeChats, unseenMessages)
    }
  }
}
