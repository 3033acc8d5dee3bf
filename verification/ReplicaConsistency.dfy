/** What each listed connection has been sent adds up to what the database holds for its user. */
module ReplicaConsistency {
  import opened ObjectIds
  import opened NotificationModel
  import opened ConfigurationRepository
  import opened ClientModel
  import opened SessionModel
  import opened SessionInvariants
  import opened CacheAgreement

  predicate Enabling(s: State, user: string) {
    user in s.store.redis && s.store.redis[user].enableNotification
  }

  // The user's unread notifications while the Redis record is enabled, nothing otherwise
  function Expected(s: State, user: string): set<WireNotification> {
    if Enabling(s, user) then UnreadCores(s.docs, user) else {}
  }

  function Held(store: Clients, conn: Conn): set<WireNotification> {
    Replica(Received(store.frames, conn))
  }

  ghost predicate ConsistentFor(s: State, user: string) {
    forall c :: Listed(s.store, user, c) ==> Held(s.store, c) == Expected(s, user)
  }

  ghost predicate Consistent(s: State) {
    forall user :: ConsistentFor(s, user)
  }

  // A mark by id from one user that takes an unread notification from another one who is connected and enabled
  predicate Disturbs(s: State, m: Move) {
    Possible(s, m.event) && m.event.MarkRead? && NamedUnread(s.docs, m.event.scope).Some? &&
    var v := s.docs[NamedUnread(s.docs, m.event.scope).value].userId;
    v != UserOf(s, m.event) && Takes(s, m, v) && ListOf(s.store.lists, v) != [] && Enabling(s, v)
  }

  // The caller of a mark by id owns what it names.
  predicate MarksOwn(s: State, m: Move) {
    Possible(s, m.event) && m.event.MarkRead? && m.event.scope.One? && ParseClientId(m.event.scope.idText).Ok? ==>
      var id := ParseClientId(m.event.scope.idText).value;
      id in s.docs ==> s.docs[id].userId == UserOf(s, m.event)
  }

  // ---- Folding the frames ----

  lemma ReplicaExtended(received: seq<Frame>, frame: Frame)
    ensures Replica(received + [frame]) == Absorb(Replica(received), frame)
  {
  }

  lemma ListingCores(docs: Notifications, user: string, order: seq<ObjectId>)
    requires IsCursorOrder(order, docs, user)
    ensures Cores(Listing(docs, order)) == UnreadCores(docs, user)
  {
    forall core | core in UnreadCores(docs, user)
      ensures core in Cores(Listing(docs, order))
    {
      UnreadIsListed(docs, user, order, core);
    }
    forall core | core in Cores(Listing(docs, order))
      ensures core in UnreadCores(docs, user)
    {
      var i :| 0 <= i < |order| && core == Core(Listing(docs, order)[i]);
      assert order[i] in Unread(docs, user);
    }
  }

  lemma UnreadIsListed(docs: Notifications, user: string, order: seq<ObjectId>, core: WireNotification)
    requires IsCursorOrder(order, docs, user) && core in UnreadCores(docs, user)
    ensures core in Cores(Listing(docs, order))
  {
    var id :| id in docs && docs[id].userId == user && !docs[id].readStatus && core == Core(ToWire(id, docs[id]));
    assert id in Unread(docs, user);
    var i :| 0 <= i < |order| && order[i] == id;
    assert Core(Listing(docs, order)[i]) == core;
  }

  // The pushed item and the one a later list shows: same content, timestamps cut to whole milliseconds in the list.
  lemma PushedMatchesListed(docs: Notifications, id: ObjectId, draft: Draft)
    requires id !in docs
    ensures var after := Apply(docs, Insert(id, Drafted(draft)));
      var pushed, listed := ToWire(id, Drafted(draft)), ToWire(id, after[id]);
      id in Unread(after, draft.userId) && Core(pushed) == Core(listed) &&
      0 <= pushed.createdAt - listed.createdAt < 1_000_000 && listed.createdAt % 1_000_000 == 0 &&
      0 <= pushed.updatedAt - listed.updatedAt < 1_000_000 && listed.updatedAt % 1_000_000 == 0
  {
  }

  // The pushed form of a new notification and the stored form differ in timestamps only.
  lemma PublishedCores(docs: Notifications, id: ObjectId, draft: Draft, user: string)
    requires id !in docs
    ensures UnreadCores(Apply(docs, Insert(id, Drafted(draft))), user) ==
            UnreadCores(docs, user) + if user == draft.userId then {Core(ToWire(id, Drafted(draft)))} else {}
  {
    var n := Drafted(draft);
    var after := docs[id := Stored(n)];
    assert Core(ToWire(id, Stored(n))) == Core(ToWire(id, n));
    forall core | core in UnreadCores(docs, user)
      ensures core in UnreadCores(after, user)
    {
      var i :| i in docs && docs[i].userId == user && !docs[i].readStatus && core == Core(ToWire(i, docs[i]));
      assert i in after && after[i] == docs[i];
    }
    assert id in after && after[id] == Stored(n);
  }

  // ---- Sends ----

  lemma SendOthers(s: State, user: string, payload: Frame, bypass: bool, redisOk: bool, failing: set<Conn>, v: string)
    requires StoreSound(s.store, s.owner) && v != user
    ensures var after := s.(store := SendToUser(s.store, user, payload, bypass, redisOk, failing));
      ConsistentFor(after, v) <==> ConsistentFor(s, v)
  {
    SendEffect(s.store, s.owner, user, payload, bypass, redisOk, failing);
    var after := s.(store := SendToUser(s.store, user, payload, bypass, redisOk, failing));
    assert forall c :: Listed(after.store, v, c) <==> Listed(s.store, v, c);
  }

  // Whatever the connections of an enabled user hold, a list that is sent puts it right.
  lemma SendAllRefreshes(s: State, user: string, env: Env)
    requires StoreSound(s.store, s.owner) && FaultFree(env) && IsCursorOrder(env.order, s.docs, user)
    requires user in s.store.lists ==> user in s.store.redis
    requires Enabling(s, user) || ConsistentFor(s, user)
    ensures ConsistentFor(SendAllNotifications(s, user, env), user)
    ensures forall v :: v != user ==> (ConsistentFor(SendAllNotifications(s, user, env), v) <==> ConsistentFor(s, v))
  {
    var after := SendAllNotifications(s, user, env);
    var payload := ListNotifications(Listing(s.docs, env.order));
    SendEffect(s.store, s.owner, user, payload, false, env.getInfo, env.failing);
    ListingCores(s.docs, user, env.order);
    forall c | Listed(after.store, user, c)
      ensures Held(after.store, c) == Expected(after, user)
    {
      if Enabling(s, user) {
        ReplicaExtended(Received(s.store.frames, c), payload);
      }
    }
    forall v | v != user
      ensures ConsistentFor(after, v) <==> ConsistentFor(s, v)
    {
      SendOthers(s, user, payload, false, env.getInfo, env.failing, v);
    }
  }

  lemma SendEmptyClears(s: State, user: string, env: Env)
    requires StoreSound(s.store, s.owner) && FaultFree(env)
    requires user in s.store.lists ==> user in s.store.redis
    requires !Enabling(s, user)
    ensures ConsistentFor(SendEmptyList(s, user, env), user)
    ensures forall v :: v != user ==> (ConsistentFor(SendEmptyList(s, user, env), v) <==> ConsistentFor(s, v))
  {
    var after := SendEmptyList(s, user, env);
    SendEffect(s.store, s.owner, user, ListNotifications([]), true, env.getInfo, env.failing);
    forall c | Listed(after.store, user, c)
      ensures Held(after.store, c) == Expected(after, user)
    {
      ReplicaExtended(Received(s.store.frames, c), ListNotifications([]));
    }
    forall v | v != user
      ensures ConsistentFor(after, v) <==> ConsistentFor(s, v)
    {
      SendOthers(s, user, ListNotifications([]), true, env.getInfo, env.failing, v);
    }
  }

  lemma SendConfigNeutral(s: State, user: string, env: Env)
    requires StoreSound(s.store, s.owner)
    ensures ConsistentFor(s, user) ==> ConsistentFor(SendConfigurations(s, user, env), user)
    ensures forall v :: v != user ==> (ConsistentFor(SendConfigurations(s, user, env), v) <==> ConsistentFor(s, v))
  {
    var config := FindOne(s.configs, user);
    if env.refindConfig && config.Some? {
      var payload := ListConfigurations(Hex(config.value.id), user, config.value.enableNotifications);
      var after := SendConfigurations(s, user, env);
      SendEffect(s.store, s.owner, user, payload, true, env.regetInfo, env.refailing);
      if ConsistentFor(s, user) {
        forall c | Listed(after.store, user, c)
          ensures Held(after.store, c) == Expected(after, user)
        {
          ReplicaExtended(Received(s.store.frames, c), payload);
        }
      }
      forall v | v != user
        ensures ConsistentFor(after, v) <==> ConsistentFor(s, v)
      {
        SendOthers(s, user, payload, true, env.regetInfo, env.refailing, v);
      }
    }
  }

  // ---- The handlers ----

  lemma {:induction false} ConnectConsistent(s: State, conn: Conn, user: string, at: Time, configId: ObjectId, env: Env)
    requires Sound(s) && Synced(s) && Consistent(s) && conn !in s.owner && FaultFree(env)
    requires IsCursorOrder(env.order, s.docs, user)
    ensures Consistent(Connected(s, conn, user, at, configId, env))
  {
    RegisterSyncs(s, conn, user, at, configId, env);
    RegisterKeeps(s, conn, user, at, configId, env);
    var registered := Register(s, conn, user, at, configId, env).0;
    RegisterConsistent(s, conn, user, at, configId, env);
    SendAllRefreshes(registered, user, env);
    SendAllKeeps(registered, user, env);
    var listed := SendAllNotifications(registered, user, env);
    SendConfigNeutral(listed, user, env);
    SameReplicas(SendConfigurations(listed, user, env), Connected(s, conn, user, at, configId, env));
  }

  // Registering leaves only the caller's own lists to be refreshed, and those only when enabled.
  lemma RegisterConsistent(s: State, conn: Conn, user: string, at: Time, configId: ObjectId, env: Env)
    requires Sound(s) && Synced(s) && Consistent(s) && conn !in s.owner && FaultFree(env)
    ensures var registered := Register(s, conn, user, at, configId, env).0;
      forall v :: v != user || !Enabling(registered, user) ==> ConsistentFor(registered, v)
  {
    RegisterSyncs(s, conn, user, at, configId, env);
    var registered := Register(s, conn, user, at, configId, env).0;
    assert conn !in s.store.frames;
    forall v, c | Listed(registered.store, v, c) && (v != user || !Enabling(registered, user))
      ensures Held(registered.store, c) == Expected(registered, v)
    {
      if Listed(s.store, v, c) {
        assert ConsistentFor(s, v);
        assert v == user ==> user in s.store.redis;
      }
    }
  }

  lemma ToggleConsistent(s: State, user: string, enable: bool, env: Env)
    requires Sound(s) && Synced(s) && Consistent(s) && FaultFree(env) && CountOf(s.configs, user) == 1
    requires IsCursorOrder(env.order, s.docs, user)
    ensures Consistent(StatusSet(s, user, enable, env))
  {
    ToggleSyncs(s, user, enable, env);
    var toggled := Toggled(s, user, enable, env);
    forall v | v != user
      ensures ConsistentFor(toggled, v)
    {
      assert ConsistentFor(s, v);
      assert forall c :: Listed(toggled.store, v, c) <==> Listed(s.store, v, c);
    }
    if enable {
      RefreshAndReply(toggled, user, env);
    } else {
      ClearAndReply(toggled, user, env);
    }
  }

  lemma RefreshAndReply(s: State, user: string, env: Env)
    requires StoreSound(s.store, s.owner) && FaultFree(env) && IsCursorOrder(env.order, s.docs, user)
    requires Enabling(s, user) && forall v :: v != user ==> ConsistentFor(s, v)
    ensures Consistent(SendConfigurations(SendAllNotifications(s, user, env), user, env))
  {
    SendAllRefreshes(s, user, env);
    SendAllKeeps(s, user, env);
    SendConfigNeutral(SendAllNotifications(s, user, env), user, env);
  }

  lemma ClearAndReply(s: State, user: string, env: Env)
    requires StoreSound(s.store, s.owner) && FaultFree(env) && user in s.store.redis
    requires !Enabling(s, user) && forall v :: v != user ==> ConsistentFor(s, v)
    ensures Consistent(SendConfigurations(SendEmptyList(s, user, env), user, env))
  {
    SendEmptyClears(s, user, env);
    SendEffect(s.store, s.owner, user, ListNotifications([]), true, env.getInfo, env.failing);
    SendConfigNeutral(SendEmptyList(s, user, env), user, env);
  }

  lemma PublishConsistent(s: State, id: ObjectId, draft: Draft, env: Env)
    requires Sound(s) && Synced(s) && Consistent(s) && FaultFree(env)
    ensures Consistent(Pushed(s, id, draft, env))
  {
    var after, user := Pushed(s, id, draft, env), draft.userId;
    if id !in s.docs {
      var payload := NewNotification(ToWire(id, Drafted(draft)));
      SendEffect(s.store, s.owner, user, payload, false, env.getInfo, env.failing);
      forall v, c | Listed(after.store, v, c)
        ensures Held(after.store, c) == Expected(after, v)
      {
        assert ConsistentFor(s, v);
        assert Listed(s.store, v, c);
        PublishedCores(s.docs, id, draft, v);
        if v == user {
          ReplicaExtended(Received(s.store.frames, c), payload);
        }
      }
    }
  }

  lemma RemoveConsistent(s: State, user: string, conn: Conn, env: Env)
    requires StoreSound(s.store, s.owner) && Consistent(s)
    ensures Consistent(s.(store := RemoveConnection(s.store, user, conn, env.delInfo)))
  {
    var after := s.(store := RemoveConnection(s.store, user, conn, env.delInfo));
    RemoveEffect(s.store, s.owner, user, conn, env.delInfo);
    forall v, c | Listed(after.store, v, c)
      ensures Held(after.store, c) == Expected(after, v)
    {
      assert ConsistentFor(s, v);
      assert Listed(s.store, v, c);
    }
  }

  // The event is a mark by id that names an unread notification of user v.
  predicate Takes(s: State, m: Move, v: string) {
    m.event.MarkRead? && NamedUnread(s.docs, m.event.scope).Some? &&
    s.docs[NamedUnread(s.docs, m.event.scope).value].userId == v
  }

  // A mark or delete of one user leaves the unread notifications of another one alone unless it takes one by id.
  lemma OthersUnread(s: State, m: Move, v: string)
    requires (m.event.MarkRead? || m.event.DeleteScope?) && Enabled(s, m) && FaultFree(m.env)
    requires v != UserOf(s, m.event)
    ensures UnreadCores(DocsAtQuery(s, m.event, m.env), v) == UnreadCores(s.docs, v) <==> !Takes(s, m, v)
  {
    var after := DocsAtQuery(s, m.event, m.env);
    if Takes(s, m, v) {
      var id := NamedUnread(s.docs, m.event.scope).value;
      CoreOnlyOf(s.docs, after, v, id);
    } else {
      forall id
        ensures id in Unread(after, v) <==> id in Unread(s.docs, v)
        ensures id in Unread(after, v) ==> after[id] == s.docs[id]
      {
      }
      SameUnreadSameCores(after, s.docs, v);
    }
  }

  // A notification that is unread before and not after makes the difference: no other one has its core.
  lemma CoreOnlyOf(before: Notifications, after: Notifications, v: string, id: ObjectId)
    requires id in Unread(before, v) && id !in Unread(after, v)
    ensures UnreadCores(before, v) != UnreadCores(after, v)
  {
    var core := Core(ToWire(id, before[id]));
    assert core in UnreadCores(before, v);
    if core in UnreadCores(after, v) {
      var j :| j in after && after[j].userId == v && !after[j].readStatus && core == Core(ToWire(j, after[j]));
      HexInjective(id, j);
      assert false;
    }
  }

  lemma SameUnreadSameCores(a: Notifications, b: Notifications, v: string)
    requires forall id :: id in Unread(a, v) <==> id in Unread(b, v)
    requires forall id :: id in Unread(a, v) ==> a[id] == b[id]
    ensures UnreadCores(a, v) == UnreadCores(b, v)
  {
    forall core | core in UnreadCores(a, v)
      ensures core in UnreadCores(b, v)
    {
      var i :| i in a && a[i].userId == v && !a[i].readStatus && core == Core(ToWire(i, a[i]));
      assert i in Unread(a, v);
    }
    forall core | core in UnreadCores(b, v)
      ensures core in UnreadCores(a, v)
    {
      var i :| i in b && b[i].userId == v && !b[i].readStatus && core == Core(ToWire(i, b[i]));
      assert i in Unread(b, v);
    }
  }

  // The replicas of another user, before the list is sent to the caller
  lemma OthersConsistent(s: State, m: Move, v: string)
    requires m.event.MarkRead? || m.event.DeleteScope?
    requires ConsistentFor(s, v) && Enabled(s, m) && FaultFree(m.env) && v != UserOf(s, m.event)
    ensures ConsistentFor(s.(docs := DocsAtQuery(s, m.event, m.env)), v) <==>
            !(Takes(s, m, v) && ListOf(s.store.lists, v) != [] && Enabling(s, v))
  {
    var changed := s.(docs := DocsAtQuery(s, m.event, m.env));
    OthersUnread(s, m, v);
    if ListOf(s.store.lists, v) != [] {
      var c := s.store.lists[v][0];
      assert Listed(s.store, v, c) && Listed(changed.store, v, c);
    }
    assert forall c :: Listed(changed.store, v, c) <==> Listed(s.store, v, c);
  }

  lemma ScopeEventConsistent(s: State, m: Move)
    requires m.event.MarkRead? || m.event.DeleteScope?
    requires Sound(s) && Synced(s) && Consistent(s) && Enabled(s, m) && FaultFree(m.env)
    ensures Consistent(SendAllNotifications(s.(docs := DocsAtQuery(s, m.event, m.env)), UserOf(s, m.event), m.env))
            <==> !Disturbs(s, m)
  {
    var env, user := m.env, UserOf(s, m.event);
    var changed := s.(docs := DocsAtQuery(s, m.event, env));
    assert ConsistentFor(s, user);
    SendAllRefreshes(changed, user, env);
    forall v | v != user
      ensures ConsistentFor(changed, v) <==> !(Takes(s, m, v) && ListOf(s.store.lists, v) != [] && Enabling(s, v))
    {
      assert ConsistentFor(s, v);
      OthersConsistent(s, m, v);
    }
    if Disturbs(s, m) {
      assert !ConsistentFor(changed, s.docs[NamedUnread(s.docs, m.event.scope).value].userId);
    }
  }

  // A step of a fault-free run keeps every replica right exactly when it is not a mark by id that takes an
  // unread notification from another user who is connected and enabled.
  lemma {:induction false} StepConsistent(s: State, m: Move)
    requires Sound(s) && Synced(s) && Consistent(s) && Enabled(s, m) && FaultFree(m.env)
    ensures Consistent(Step(s, m)) <==> !Disturbs(s, m)
  {
    var env, user := m.env, UserOf(s, m.event);
    match m.event
    case Connect(conn, _, at, configId) => ConnectConsistent(s, conn, user, at, configId, env);
    case ReloadNotifications(_) =>
      assert ConsistentFor(s, user);
      SendAllRefreshes(s, user, env);
    case MarkRead(_, _, _) => ScopeEventConsistent(s, m);
    case DeleteScope(_, _) => ScopeEventConsistent(s, m);
    case SetNotificationStatus(_, enable) => ToggleConsistent(s, user, enable, env);
    case Ignored(_) =>
    case Publish(id, draft) => PublishConsistent(s, id, draft, env);
    case ReadFails(conn) =>
      RemoveConsistent(s, user, conn, env);
      var removed := s.(store := RemoveConnection(s.store, user, conn, env.delInfo));
      SameReplicas(removed, Step(s, m));
    case PingFails(conn) =>
      SameReplicas(s, Closed(s, conn));
      RemoveConsistent(Closed(s, conn), user, conn, env);
      var failed := Closed(s, conn);
      SameReplicas(failed.(store := RemoveConnection(failed.store, user, conn, env.delInfo)), Step(s, m));
  }

  lemma SameReplicas(a: State, b: State)
    requires Consistent(a) && a.docs == b.docs
    requires a.store.lists == b.store.lists && a.store.redis == b.store.redis && a.store.frames == b.store.frames
    ensures Consistent(b)
  {
    forall v, c | Listed(b.store, v, c)
      ensures Held(b.store, c) == Expected(b, v)
    {
      assert ConsistentFor(a, v);
      assert Listed(a.store, v, c);
    }
  }

  ghost predicate FaultFreeRun(moves: seq<Move>) {
    forall j :: 0 <= j < |moves| ==> FaultFree(moves[j].env)
  }

  lemma {:induction false} ConsistentUpTo(states: seq<State>, moves: seq<Move>, i: nat)
    requires IsRun(states, moves) && FaultFreeRun(moves) && i < |states|
    requires forall j :: 0 <= j < i ==> !Disturbs(states[j], moves[j])
    ensures Consistent(states[i])
  {
    if i == 0 {
    } else {
      ConsistentUpTo(states, moves, i - 1);
      RunIsSound(states, moves, i - 1);
      CachesAgree(states, moves, i - 1);
      assert Happens(states, moves, i - 1);
      StepConsistent(states[i - 1], moves[i - 1]);
    }
  }

  // Replica consistency: in a fault-free run, whatever sockets fail, every listed connection holds after every
  // handler exactly the unread set of its user (nothing while disabled), exactly when no mark by id takes an
  // unread notification from a connected and enabled stranger.
  lemma {:induction false} ReplicasAreConsistent(states: seq<State>, moves: seq<Move>)
    requires IsRun(states, moves) && FaultFreeRun(moves)
    ensures (forall i :: 0 <= i < |states| ==> Consistent(states[i])) <==>
            (forall j :: 0 <= j < |moves| ==> !Disturbs(states[j], moves[j]))
  {
    if forall j :: 0 <= j < |moves| ==> !Disturbs(states[j], moves[j]) {
      forall i | 0 <= i < |states|
        ensures Consistent(states[i])
      {
        ConsistentUpTo(states, moves, i);
      }
    }
    if forall i :: 0 <= i < |states| ==> Consistent(states[i]) {
      forall j | 0 <= j < |moves|
        ensures !Disturbs(states[j], moves[j])
      {
        RunIsSound(states, moves, j);
        CachesAgree(states, moves, j);
        assert Happens(states, moves, j);
        assert Consistent(states[j + 1]);
        StepConsistent(states[j], moves[j]);
      }
    }
  }

  // Item and document say the same, the times apart.
  predicate Tells(item: WireNotification, id: ObjectId, n: Notification) {
    item.id == Hex(id) && item.appId == n.appId && item.userId == n.userId && item.groupKey == n.groupKey &&
    item.message == n.message && item.readStatus == n.readStatus && item.status == n.status
  }

  predicate IsUnreadOf(s: State, user: string, id: ObjectId) {
    id in s.docs && s.docs[id].userId == user && !s.docs[id].readStatus
  }

  // What an enabled user's connection holds are the user's unread documents, each of them and no others; a disabled
  // user's connection holds nothing.
  ghost predicate HoldsTheDocuments(s: State, user: string, c: Conn) {
    (forall item :: item in Held(s.store, c) ==>
      Enabling(s, user) && exists id :: IsUnreadOf(s, user, id) && Tells(item, id, s.docs[id])) &&
    (Enabling(s, user) ==> forall id :: IsUnreadOf(s, user, id) ==>
      exists item :: item in Held(s.store, c) && Tells(item, id, s.docs[id]))
  }

  // Consistency field by field
  lemma HeldAreTheDocuments(s: State, user: string, c: Conn)
    requires Consistent(s) && Listed(s.store, user, c)
    ensures HoldsTheDocuments(s, user, c)
  {
    assert ConsistentFor(s, user);
    forall item | item in Held(s.store, c)
      ensures exists id :: IsUnreadOf(s, user, id) && Tells(item, id, s.docs[id])
    {
      var id :| id in s.docs && s.docs[id].userId == user && !s.docs[id].readStatus &&
        item == Core(ToWire(id, s.docs[id]));
      assert IsUnreadOf(s, user, id) && Tells(item, id, s.docs[id]);
    }
    forall id | IsUnreadOf(s, user, id) && Enabling(s, user)
      ensures exists item :: item in Held(s.store, c) && Tells(item, id, s.docs[id])
    {
      var item := Core(ToWire(id, s.docs[id]));
      assert item in UnreadCores(s.docs, user) && Tells(item, id, s.docs[id]);
    }
  }

  // The same over runs: a fault-free run up to the first such mark
  lemma ConnectionsHoldTheDocuments(states: seq<State>, moves: seq<Move>, i: nat, user: string, c: Conn)
    requires IsRun(states, moves) && FaultFreeRun(moves) && i < |states| && Listed(states[i].store, user, c)
    requires forall j :: 0 <= j < i ==> !Disturbs(states[j], moves[j])
    ensures HoldsTheDocuments(states[i], user, c)
  {
    ConsistentUpTo(states, moves, i);
    HeldAreTheDocuments(states[i], user, c);
  }

  // In particular when all marks by id name the caller's own notifications
  lemma OwnMarksAreEnough(states: seq<State>, moves: seq<Move>, i: nat)
    requires IsRun(states, moves) && FaultFreeRun(moves) && i < |states|
    requires forall j :: 0 <= j < |moves| ==> MarksOwn(states[j], moves[j])
    ensures Consistent(states[i])
  {
    ConsistentUpTo(states, moves, i);
  }

  // A client that keys what it holds by id has one entry per notification.
  lemma CoresDifferById(docs: Notifications, user: string, a: WireNotification, b: WireNotification)
    requires a in UnreadCores(docs, user) && b in UnreadCores(docs, user) && a.id == b.id
    ensures a == b
  {
    var i :| i in docs && docs[i].userId == user && !docs[i].readStatus && a == Core(ToWire(i, docs[i]));
    var j :| j in docs && docs[j].userId == user && !docs[j].readStatus && b == Core(ToWire(j, docs[j]));
    HexInjective(i, j);
  }
}
