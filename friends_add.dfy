/**
 * The friend-request admission handler (`POST /api/friends/add`).
 *
 * The Redis store is two maps: plain string keys (`user:email:<e>` to a user
 * id) and set-valued keys (`user:<id>:incoming_friend_requests`,
 * `user:<id>:friends`). Pusher publishes are appended to a log. The session,
 * the payload validator and the channel-name function are inputs whose
 * definitions the model does not assume.
 */
module FriendsAdd {
  import opened Wrappers

  /** A JSON value, as `req.json()` yields it. */
  datatype Json =
    | JNull
    | JBool(b: bool)
    | JNumber(n: real)
    | JString(s: string)
    | JArray(items: seq<Json>)
    | JObject(members: seq<(string, Json)>)

  /** What the session collaborator supplies about the caller. */
  datatype Session = Session(userId: string, userEmail: string)

  datatype Response = Response(status: int, body: string)

  /** The payload of the `incoming_friend_requests` event. */
  datatype FriendRequest = FriendRequest(senderId: string, senderEmail: string)

  datatype Event = Event(channel: string, name: string, payload: FriendRequest)

  datatype Db = Db(strings: map<string, string>, sets: map<string, set<string>>)

  /** Everything the handler can change: the store and the publish log. */
  datatype World = World(db: Db, published: seq<Event>)

  /** The two writes a successful request performs, in the order it performs them. */
  datatype Effect = Publish(event: Event) | SetAdd(key: string, member: string)

  datatype Decision = Decision(response: Response, effects: seq<Effect>)

  const Ok := Response(200, "OK")
  const InvalidRequest := Response(400, "Invalid Request")
  const InvalidPayload := Response(422, "Invalid request payload")
  const NoSuchPerson := Response(400, "This person does not exist.")
  const Unauthorised := Response(401, "Unauthorised")
  const CannotAddSelf := Response(400, "You cannot add yourself as friend")
  const AlreadyAdded := Response(400, "Already added this User")
  const AlreadyFriends := Response(400, "Already friends with this user")

  const IncomingEventName := "incoming_friend_requests"

  function EmailKey(email: string): string { "user:email:" + email }
  function IncomingKey(id: string): string { "user:" + id + ":incoming_friend_requests" }
  function FriendsKey(id: string): string { "user:" + id + ":friends" }

  /** SISMEMBER sees a missing key as the empty set. */
  function Members(db: Db, key: string): set<string>
  {
    if key in db.sets then db.sets[key] else {}
  }

  /**
   * GET `user:email:<e>` followed by the route handler's `!id` test: a missing key
   * and an empty id are both "no such person".
   */
  function LookupId(db: Db, email: string): Option<string>
  {
    var key := EmailKey(email);
    if key in db.strings && db.strings[key] != "" then Some(db.strings[key]) else None
  }

  /**
   * The request a caller may make: a JSON body that the validator accepts,
   * an email that resolves, a session, a target other than the caller, no
   * pending request from the caller and no existing friendship.
   */
  predicate Admissible(db: Db, body: Option<Json>, session: Option<Session>, validate: Json -> Option<string>)
  {
    && body.Some?
    && validate(body.value).Some?
    && LookupId(db, validate(body.value).value).Some?
    && session.Some?
    && var id := LookupId(db, validate(body.value).value).value;
    && var me := session.value.userId;
    && id != me
    && me !in Members(db, IncomingKey(id))
    && id !in Members(db, FriendsKey(me))
  }

  /** The event and the set-add a successful request from `me` to `id` performs. */
  function SuccessEffects(me: Session, id: string, pusherKey: string -> string): seq<Effect>
  {
    [ Publish(Event(pusherKey(IncomingKey(id)), IncomingEventName, FriendRequest(me.userId, me.userEmail))),
      SetAdd(IncomingKey(id), me.userId) ]
  }

  /**
   * The handler's checks in the order the route handler makes them; every failed
   * check is a terminal response with no effects.
   */
  function Decide(db: Db, body: Option<Json>, session: Option<Session>,
                  validate: Json -> Option<string>, pusherKey: string -> string): (d: Decision)
    ensures d.response.status == 200 <==> Admissible(db, body, session, validate)
    ensures d.response.status != 200 ==> d.effects == []
    ensures Admissible(db, body, session, validate) ==>
              d == Decision(Ok, SuccessEffects(session.value, LookupId(db, validate(body.value).value).value, pusherKey))
  {
    if body.None? then Decision(InvalidRequest, [])
    else
      var parsed := validate(body.value);
      if parsed.None? then Decision(InvalidPayload, [])
      else
        var id := LookupId(db, parsed.value);
        if id.None? then Decision(NoSuchPerson, [])
        else if session.None? then Decision(Unauthorised, [])
        else
          var me := session.value;
          if id.value == me.userId then Decision(CannotAddSelf, [])
          else if me.userId in Members(db, IncomingKey(id.value)) then Decision(AlreadyAdded, [])
          else if id.value in Members(db, FriendsKey(me.userId)) then Decision(AlreadyFriends, [])
          else Decision(Ok, SuccessEffects(me, id.value, pusherKey))
  }

  function Apply(w: World, e: Effect): World
  {
    match e
    case Publish(ev) => w.(published := w.published + [ev])
    case SetAdd(k, m) => w.(db := w.db.(sets := w.db.sets[k := Members(w.db, k) + {m}]))
  }

  /** Performs the effects one after the other. */
  function Run(w: World, effects: seq<Effect>): World
    decreases |effects|
  {
    if effects == [] then w else Run(Apply(w, effects[0]), effects[1..])
  }

  lemma RunPair(w: World, a: Effect, b: Effect)
    ensures Run(w, [a, b]) == Apply(Apply(w, a), b)
  {
    assert [a, b][1..] == [b];
    assert [b][1..] == [];
    assert Run(Apply(w, a), [b]) == Run(Apply(Apply(w, a), b), []);
  }

  /** The world after handling one request. */
  function Handle(w: World, body: Option<Json>, session: Option<Session>,
                  validate: Json -> Option<string>, pusherKey: string -> string): World
  {
    Run(w, Decide(w.db, body, session, validate, pusherKey).effects)
  }

  // ---------------------------------------------------------------------
  // Channel and key names

  /** Two users never share an incoming-request key. */
  lemma IncomingKeyInjective(a: string, b: string)
    ensures IncomingKey(a) == IncomingKey(b) ==> a == b
  {
    if IncomingKey(a) == IncomingKey(b) {
      var k := IncomingKey(a);
      assert |a| == |b|;
      assert a == k[5..5 + |a|];
      assert b == IncomingKey(b)[5..5 + |b|];
    }
  }

  /** No incoming-request key is anybody's friends key. */
  lemma IncomingKeyNotFriendsKey(a: string, b: string)
    ensures IncomingKey(a) != FriendsKey(b)
  {
    var k, f := IncomingKey(a), FriendsKey(b);
    assert k[|k| - 2] == 't';
    assert f[|f| - 2] == 'd';
  }

  // ---------------------------------------------------------------------
  // One lemma per terminal check, in the route handler's order

  /** A body that is not JSON falls into the generic catch. */
  lemma MalformedBodyRejected(w: World, session: Option<Session>,
                              validate: Json -> Option<string>, pusherKey: string -> string)
    ensures Decide(w.db, None, session, validate, pusherKey) == Decision(InvalidRequest, [])
    ensures Handle(w, None, session, validate, pusherKey) == w
  {
  }

  /** A payload the validator refuses is a 422, whatever the store and the session. */
  lemma InvalidPayloadRejected(w: World, body: Option<Json>, session: Option<Session>,
                               validate: Json -> Option<string>, pusherKey: string -> string)
    requires body.Some? && validate(body.value).None?
    ensures Decide(w.db, body, session, validate, pusherKey) == Decision(InvalidPayload, [])
    ensures Handle(w, body, session, validate, pusherKey) == w
  {
  }

  /**
   * An email that maps to no id is a 400, and the same answer with or
   * without a session: the lookup comes before the session check.
   */
  lemma UnknownEmailRejected(w: World, body: Option<Json>, s1: Option<Session>, s2: Option<Session>,
                             validate: Json -> Option<string>, pusherKey: string -> string)
    requires body.Some? && validate(body.value).Some?
    requires LookupId(w.db, validate(body.value).value).None?
    ensures Decide(w.db, body, s1, validate, pusherKey) == Decision(NoSuchPerson, [])
    ensures Decide(w.db, body, s1, validate, pusherKey) == Decide(w.db, body, s2, validate, pusherKey)
    ensures Handle(w, body, s1, validate, pusherKey) == w
  {
  }

  lemma NoSessionRejected(w: World, body: Option<Json>,
                          validate: Json -> Option<string>, pusherKey: string -> string)
    requires body.Some? && validate(body.value).Some?
    requires LookupId(w.db, validate(body.value).value).Some?
    ensures Decide(w.db, body, None, validate, pusherKey) == Decision(Unauthorised, [])
    ensures Handle(w, body, None, validate, pusherKey) == w
  {
  }

  /**
   * Asking to befriend oneself is a 400 whatever the request and friend
   * sets hold: two stores that agree on the email index give the same answer.
   */
  lemma SelfRequestRejected(w1: World, w2: World, body: Option<Json>, me: Session,
                            validate: Json -> Option<string>, pusherKey: string -> string)
    requires w1.db.strings == w2.db.strings
    requires body.Some? && validate(body.value).Some?
    requires LookupId(w1.db, validate(body.value).value) == Some(me.userId)
    ensures Decide(w1.db, body, Some(me), validate, pusherKey) == Decision(CannotAddSelf, [])
    ensures Decide(w2.db, body, Some(me), validate, pusherKey) == Decision(CannotAddSelf, [])
    ensures Handle(w1, body, Some(me), validate, pusherKey) == w1
  {
  }

  /**
   * A pending request from the caller is a 400; this check comes before the
   * friends check, so it answers even when the two are already friends.
   */
  lemma AlreadyAddedRejected(w: World, body: Option<Json>, me: Session, id: string,
                             validate: Json -> Option<string>, pusherKey: string -> string)
    requires body.Some? && validate(body.value).Some?
    requires LookupId(w.db, validate(body.value).value) == Some(id)
    requires id != me.userId
    requires me.userId in Members(w.db, IncomingKey(id))
    ensures Decide(w.db, body, Some(me), validate, pusherKey) == Decision(AlreadyAdded, [])
    ensures Handle(w, body, Some(me), validate, pusherKey) == w
  {
  }

  lemma AlreadyFriendsRejected(w: World, body: Option<Json>, me: Session, id: string,
                               validate: Json -> Option<string>, pusherKey: string -> string)
    requires body.Some? && validate(body.value).Some?
    requires LookupId(w.db, validate(body.value).value) == Some(id)
    requires id != me.userId
    requires me.userId !in Members(w.db, IncomingKey(id))
    requires id in Members(w.db, FriendsKey(me.userId))
    ensures Decide(w.db, body, Some(me), validate, pusherKey) == Decision(AlreadyFriends, [])
    ensures Handle(w, body, Some(me), validate, pusherKey) == w
  {
  }

  // ---------------------------------------------------------------------
  // The successful path

  /** Any refused request leaves the store and the publish log as they were. */
  lemma RejectedChangesNothing(w: World, body: Option<Json>, session: Option<Session>,
                               validate: Json -> Option<string>, pusherKey: string -> string)
    requires !Admissible(w.db, body, session, validate)
    ensures Decide(w.db, body, session, validate, pusherKey).response.status != 200
    ensures Handle(w, body, session, validate, pusherKey) == w
  {
  }

  /**
   * An admissible request appends exactly one event, on the target's channel,
   * and adds the caller to the target's incoming set; the email index and
   * every other set key are unchanged, in particular every friends set and
   * every other user's incoming set.
   */
  lemma {:induction false} AcceptedChangesOnlyTargetIncoming(
    w: World, body: Option<Json>, me: Session, id: string,
    validate: Json -> Option<string>, pusherKey: string -> string)
    requires Admissible(w.db, body, Some(me), validate)
    requires LookupId(w.db, validate(body.value).value) == Some(id)
    ensures var w' := Handle(w, body, Some(me), validate, pusherKey);
      && w'.published == w.published + [Event(pusherKey(IncomingKey(id)), IncomingEventName, FriendRequest(me.userId, me.userEmail))]
      && w'.db.strings == w.db.strings
      && Members(w'.db, IncomingKey(id)) == Members(w.db, IncomingKey(id)) + {me.userId}
      && (forall k :: k != IncomingKey(id) ==> Members(w'.db, k) == Members(w.db, k))
      && (forall u :: u != id ==> Members(w'.db, IncomingKey(u)) == Members(w.db, IncomingKey(u)))
      && (forall u :: Members(w'.db, FriendsKey(u)) == Members(w.db, FriendsKey(u)))
  {
    var w' := Handle(w, body, Some(me), validate, pusherKey);
    var k := IncomingKey(id);
    var ev := Event(pusherKey(k), IncomingEventName, FriendRequest(me.userId, me.userEmail));
    var effects := SuccessEffects(me, id, pusherKey);
    RunPair(w, effects[0], effects[1]);
    assert w'.db.sets == w.db.sets[k := Members(w.db, k) + {me.userId}];
    forall u | u != id
      ensures Members(w'.db, IncomingKey(u)) == Members(w.db, IncomingKey(u))
    {
      IncomingKeyInjective(u, id);
    }
    forall u
      ensures Members(w'.db, FriendsKey(u)) == Members(w.db, FriendsKey(u))
    {
      IncomingKeyNotFriendsKey(id, u);
    }
  }

  /**
   * Repeating an accepted request against the store it produced is refused
   * as already added, and the target's incoming set keeps the one entry.
   */
  lemma {:induction false} RepeatRejected(w: World, body: Option<Json>, me: Session,
                                          validate: Json -> Option<string>, pusherKey: string -> string)
    requires Admissible(w.db, body, Some(me), validate)
    ensures var w' := Handle(w, body, Some(me), validate, pusherKey);
      && Decide(w'.db, body, Some(me), validate, pusherKey) == Decision(AlreadyAdded, [])
      && Handle(w', body, Some(me), validate, pusherKey) == w'
      && var id := LookupId(w.db, validate(body.value).value).value;
         Members(w'.db, IncomingKey(id)) == Members(w.db, IncomingKey(id)) + {me.userId}
  {
    var id := LookupId(w.db, validate(body.value).value).value;
    AcceptedChangesOnlyTargetIncoming(w, body, me, id, validate, pusherKey);
    var w' := Handle(w, body, Some(me), validate, pusherKey);
    assert LookupId(w'.db, validate(body.value).value) == Some(id);
    assert me.userId in Members(w'.db, IncomingKey(id));
    AlreadyAddedRejected(w', body, me, id, validate, pusherKey);
  }

  // ---------------------------------------------------------------------
  // The handler as it runs against the store

  /**
   * The store and the Pusher publish log the handler works on. Store reads
   * are `fetchRedis` calls; the one write is `db.sadd`.
   */
  class Backend {
    var strings: map<string, string>
    var sets: map<string, set<string>>
    var published: seq<Event>

    function State(): World
      reads this
    {
      World(Db(strings, sets), published)
    }

    constructor (strings0: map<string, string>, sets0: map<string, set<string>>)
      ensures State() == World(Db(strings0, sets0), [])
    {
      strings := strings0;
      sets := sets0;
      published := [];
    }

    /**
     * The route handler. `body` is None when `req.json()` throws, which the
     * route handler's catch answers with the generic 400.
     */
    method Post(body: Option<Json>, session: Option<Session>,
                validate: Json -> Option<string>, pusherKey: string -> string) returns (resp: Response)
      modifies this
      ensures resp == Decide(old(State()).db, body, session, validate, pusherKey).response
      ensures State() == Handle(old(State()), body, session, validate, pusherKey)
    {
      if body.None? {
        return InvalidRequest;
      }
      var parsed := validate(body.value);
      if parsed.None? {
        return InvalidPayload;
      }
      var emailToAdd := parsed.value;
      var key := EmailKey(emailToAdd);
      var id := if key in strings then strings[key] else "";
      if id == "" {
        return NoSuchPerson;
      }
      if session.None? {
        return Unauthorised;
      }
      var me := session.value;
      if id == me.userId {
        return CannotAddSelf;
      }
      var incoming := IncomingKey(id);
      var isAlreadyAdded := incoming in sets && me.userId in sets[incoming];
      if isAlreadyAdded {
        return AlreadyAdded;
      }
      var friends := FriendsKey(me.userId);
      var isAlreadyFriends := friends in sets && id in sets[friends];
      if isAlreadyFriends {
        return AlreadyFriends;
      }
      ghost var w0 := State();
      published := published + [Event(pusherKey(incoming), IncomingEventName, FriendRequest(me.userId, me.userEmail))];
      ghost var w1 := State();
      var current := if incoming in sets then sets[incoming] else {};
      sets := sets[incoming := current + {me.userId}];
      ghost var effects := SuccessEffects(me, id, pusherKey);
      RunPair(w0, effects[0], effects[1]);
      assert w1 == Apply(w0, effects[0]);
      resp := Ok;
    }
  }
}
