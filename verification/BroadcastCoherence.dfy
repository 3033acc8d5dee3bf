/** Connections of one user agree on the stream of frames, however many calls fail around them. */
module BroadcastCoherence {
  import opened ObjectIds
  import opened NotificationModel
  import opened ConfigurationRepository
  import opened ClientModel
  import opened SessionModel
  import opened SessionInvariants

  // The later connection received the tail end of what the earlier one received.
  ghost predicate Coherent(store: Clients) {
    forall u, c, d :: u in store.lists && Before(store.lists[u], c, d) ==>
      IsSuffix(Received(store.frames, d), Received(store.frames, c))
  }

  lemma SendKeepsCoherent(store: Clients, owner: map<Conn, string>, user: string, payload: Frame, bypass: bool,
                          redisOk: bool, failing: set<Conn>)
    requires StoreSound(store, owner) && Coherent(store)
    ensures Coherent(SendToUser(store, user, payload, bypass, redisOk, failing))
  {
    var after := SendToUser(store, user, payload, bypass, redisOk, failing);
    SendEffect(store, owner, user, payload, bypass, redisOk, failing);
    forall u, c, d | u in after.lists && Before(after.lists[u], c, d)
      ensures IsSuffix(Received(after.frames, d), Received(after.frames, c))
    {
      assert Listed(after, u, c) && Listed(after, u, d);
      if u == user && SendResult(store, user, bypass, redisOk).Ok? {
        HealthyKeepsOrder(store.lists[u], store.broken + failing, c, d);
        SuffixExtended(Received(store.frames, d), Received(store.frames, c), payload);
      } else {
        assert after.lists[u] == store.lists[u];
      }
    }
  }

  lemma StoreKeepsCoherent(store: Clients, owner: map<Conn, string>, info: ClientInfo, conn: Conn, redisOk: bool)
    requires StoreSound(store, owner) && Coherent(store) && conn !in owner
    ensures Coherent(StoreClient(store, info, conn, redisOk))
  {
  }

  lemma {:induction false} RemoveKeepsCoherent(store: Clients, user: string, conn: Conn, redisOk: bool)
    requires Coherent(store)
    ensures Coherent(RemoveConnection(store, user, conn, redisOk))
  {
    var after := RemoveConnection(store, user, conn, redisOk);
    forall u, c, d | u in after.lists && Before(after.lists[u], c, d)
      ensures IsSuffix(Received(after.frames, d), Received(after.frames, c))
    {
      if u == user {
        WithoutKeepsOrder(store.lists[u], conn, c, d);
      }
    }
  }

  lemma SendAllKeepsCoherent(s: State, user: string, env: Env)
    requires StoreSound(s.store, s.owner) && Coherent(s.store) && forall id :: id in env.order ==> id in s.docs
    ensures Coherent(SendAllNotifications(s, user, env).store)
  {
    SendKeepsCoherent(s.store, s.owner, user, ListNotifications(Listing(s.docs, env.order)), false, env.getInfo,
        env.failing);
  }

  lemma SendConfigKeepsCoherent(s: State, user: string, env: Env)
    requires StoreSound(s.store, s.owner) && Coherent(s.store)
    ensures Coherent(SendConfigurations(s, user, env).store)
  {
    var config := FindOne(s.configs, user);
    if config.Some? {
      var payload := ListConfigurations(Hex(config.value.id), user, config.value.enableNotifications);
      SendKeepsCoherent(s.store, s.owner, user, payload, true, env.regetInfo, env.refailing);
    }
  }

  lemma {:induction false} ConnectKeepsCoherent(s: State, conn: Conn, user: string, at: Time, configId: ObjectId,
      env: Env)
    requires Sound(s) && Coherent(s.store) && conn !in s.owner && forall id :: id in env.order ==> id in s.docs
    ensures Coherent(Connected(s, conn, user, at, configId, env).store)
  {
    StoreKeepsCoherent(s.store, s.owner, ClientInfo(user, at, true), conn, env.setInfo);
    StoreKeepsCoherent(s.store, s.owner, ClientInfo(user, at, false), conn, env.setInfo);
    RegisterKeeps(s, conn, user, at, configId, env);
    var registered := Register(s, conn, user, at, configId, env).0;
    assert Coherent(registered.store);
    SendAllKeeps(registered, user, env);
    SendAllKeepsCoherent(registered, user, env);
    SendConfigKeepsCoherent(SendAllNotifications(registered, user, env), user, env);
  }

  lemma ToggleKeepsCoherent(s: State, user: string, enable: bool, env: Env)
    requires Sound(s) && Coherent(s.store) && forall id :: id in env.order ==> id in s.docs
    ensures Coherent(StatusSet(s, user, enable, env).store)
  {
    var toggled := Toggled(s, user, enable, env);
    assert Coherent(toggled.store);
    if enable {
      SendAllKeeps(toggled, user, env);
      SendAllKeepsCoherent(toggled, user, env);
      SendConfigKeepsCoherent(SendAllNotifications(toggled, user, env), user, env);
    } else {
      SendEffect(toggled.store, s.owner, user, ListNotifications([]), true, env.getInfo, env.failing);
      SendKeepsCoherent(toggled.store, s.owner, user, ListNotifications([]), true, env.getInfo, env.failing);
      SendConfigKeepsCoherent(SendEmptyList(toggled, user, env), user, env);
    }
  }

  lemma StepKeepsCoherent(s: State, m: Move)
    requires Sound(s) && Coherent(s.store) && Enabled(s, m)
    ensures Coherent(Step(s, m).store)
  {
    var env, user := m.env, UserOf(s, m.event);
    match m.event
    case Connect(conn, _, at, configId) => ConnectKeepsCoherent(s, conn, user, at, configId, env);
    case ReloadNotifications(_) => SendAllKeepsCoherent(s, user, env);
    case MarkRead(_, _, _) => SendAllKeepsCoherent(s.(docs := DocsAtQuery(s, m.event, env)), user, env);
    case DeleteScope(_, _) => SendAllKeepsCoherent(s.(docs := DocsAtQuery(s, m.event, env)), user, env);
    case SetNotificationStatus(_, enable) => ToggleKeepsCoherent(s, user, enable, env);
    case Ignored(_) =>
    case Publish(id, draft) =>
      SendKeepsCoherent(s.store, s.owner, user, NewNotification(ToWire(id, Drafted(draft))), false, env.getInfo,
          env.failing);
    case ReadFails(conn) => RemoveKeepsCoherent(s.store, user, conn, env.delInfo);
    case PingFails(conn) => RemoveKeepsCoherent(Closed(s, conn).store, user, conn, env.delInfo);
  }

  // In every run, faults and failing sockets included: of two listed connections of one user, the one stored
  // later received a suffix of the frames of the one stored earlier.
  lemma {:induction false} BroadcastsAreCoherent(states: seq<State>, moves: seq<Move>, i: nat)
    requires IsRun(states, moves) && i < |states|
    ensures Coherent(states[i].store)
  {
    if i == 0 {
    } else {
      BroadcastsAreCoherent(states, moves, i - 1);
      RunIsSound(states, moves, i - 1);
      assert Happens(states, moves, i - 1);
      StepKeepsCoherent(states[i - 1], moves[i - 1]);
    }
  }
}
