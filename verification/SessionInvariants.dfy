/** What every handler step keeps, whatever fails around it. */
module SessionInvariants {
  import opened ObjectIds
  import opened NotificationModel
  import opened ConfigurationRepository
  import opened ClientModel
  import opened SessionModel

  // Lists name each connection once, under the user that opened it.
  ghost predicate ListsSound(lists: map<string, seq<Conn>>, owner: map<Conn, string>) {
    forall u :: u in lists ==> Distinct(lists[u]) && forall c :: c in lists[u] ==> c in owner && owner[c] == u
  }

  ghost predicate StoreSound(store: Clients, owner: map<Conn, string>) {
    ListsSound(store.lists, owner) && store.frames.Keys <= owner.Keys && store.broken <= owner.Keys
  }

  ghost predicate Sound(s: State) {
    StoreSound(s.store, s.owner) && s.loops <= s.owner.Keys && s.pings <= s.owner.Keys
  }

  predicate Listed(store: Clients, user: string, conn: Conn) {
    user in store.lists && conn in store.lists[user]
  }

  // ---- One send ----

  // The frames a send delivers: the payload to the user's surviving connections, nothing to anybody else's.
  ghost predicate SendDelivers(before: Clients, after: Clients, user: string, ok: bool, payload: Frame) {
    after.redis == before.redis && after.lists.Keys == before.lists.Keys && before.broken <= after.broken &&
    (forall u :: u in before.lists && u != user ==> after.lists[u] == before.lists[u]) &&
    (forall u, c :: Listed(after, u, c) ==>
       (Listed(before, u, c) &&
        Received(after.frames, c) == Received(before.frames, c) + if u == user && ok then [payload] else [])) &&
    (forall c :: Received(after.frames, c) == Received(before.frames, c) ||
       (Listed(before, user, c) && Received(after.frames, c) == Received(before.frames, c) + [payload]))
  }

  lemma SendEffect(store: Clients, owner: map<Conn, string>, user: string, payload: Frame, bypass: bool,
                   redisOk: bool, failing: set<Conn>)
    requires StoreSound(store, owner)
    ensures StoreSound(SendToUser(store, user, payload, bypass, redisOk, failing), owner)
    ensures SendDelivers(store, SendToUser(store, user, payload, bypass, redisOk, failing), user,
                         SendResult(store, user, bypass, redisOk).Ok?, payload)
  {
    if SendResult(store, user, bypass, redisOk).Ok? {
      BroadcastEffect(store, owner, user, payload, store.broken + failing, SendToUser(store, user, payload, bypass,
          redisOk, failing));
    }
  }

  // after is what a broadcast that some sockets refuse makes of the store.
  ghost predicate IsBroadcast(store: Clients, after: Clients, user: string, payload: Frame, bad: set<Conn>) {
    user in store.lists && store.broken <= bad && store.broken <= after.broken &&
    after.redis == store.redis && after.lists == store.lists[user := Healthy(store.lists[user], bad)] &&
    after.frames == Deliver(store.frames, store.lists[user], bad, payload) &&
    forall c :: c in after.broken ==> c in store.broken || c in store.lists[user]
  }

  lemma BroadcastEffect(store: Clients, owner: map<Conn, string>, user: string, payload: Frame, bad: set<Conn>,
      after: Clients)
    requires StoreSound(store, owner) && IsBroadcast(store, after, user, payload, bad)
    ensures StoreSound(after, owner) && SendDelivers(store, after, user, true, payload)
  {
    BroadcastKeepsSound(store, owner, user, payload, bad, after);
    HealthyMembers(store.lists[user], bad);
    forall c
      ensures Received(after.frames, c) == Received(store.frames, c) + if c in after.lists[user] then [payload] else []
    {
      DeliverOnce(store.frames, store.lists[user], bad, payload, c);
    }
    forall u, c | Listed(after, u, c)
      ensures Listed(store, u, c)
      ensures Received(after.frames, c) == Received(store.frames, c) + if u == user then [payload] else []
    {
      assert owner[c] == u;
    }
  }

  lemma BroadcastKeepsSound(store: Clients, owner: map<Conn, string>, user: string, payload: Frame, bad: set<Conn>,
                            after: Clients)
    requires StoreSound(store, owner) && IsBroadcast(store, after, user, payload, bad)
    ensures StoreSound(after, owner)
  {
    HealthyMembers(store.lists[user], bad);
    HealthyDistinct(store.lists[user], bad);
    forall c | c in after.frames
      ensures c in owner
    {
      DeliverOnce(store.frames, store.lists[user], bad, payload, c);
    }
  }

  // Connections that still take writes stay listed.
  lemma SendKeepsHealthy(store: Clients, user: string, payload: Frame, bypass: bool, redisOk: bool, failing: set<Conn>)
    ensures forall u, c :: Listed(store, u, c) && c !in store.broken && c !in failing ==>
              Listed(SendToUser(store, user, payload, bypass, redisOk, failing), u, c)
    ensures SendToUser(store, user, payload, bypass, redisOk, failing).broken <= store.broken + failing
  {
    if user in store.lists {
      HealthyMembers(store.lists[user], store.broken + failing);
    }
  }

  // ---- Storing and removing ----

  lemma StoreEffect(store: Clients, owner: map<Conn, string>, info: ClientInfo, conn: Conn, redisOk: bool)
    requires StoreSound(store, owner) && conn !in owner
    ensures StoreSound(StoreClient(store, info, conn, redisOk), owner[conn := info.id])
    ensures StoreSound(store, owner[conn := info.id])
    ensures Received(store.frames, conn) == [] && conn !in store.broken
  {
  }

  lemma RemoveEffect(store: Clients, owner: map<Conn, string>, user: string, conn: Conn, redisOk: bool)
    requires StoreSound(store, owner)
    ensures StoreSound(RemoveConnection(store, user, conn, redisOk), owner)
    ensures forall u, c :: Listed(RemoveConnection(store, user, conn, redisOk), u, c) <==>
              Listed(store, u, c) && !(u == user && c == conn)
  {
    if user in store.lists {
      WithoutMembers(store.lists[user], conn);
      WithoutDistinct(store.lists[user], conn);
      var rest := Without(store.lists[user], conn);
      assert rest != [] ==> rest[0] in rest;
    }
  }

  // ---- Every step ----

  lemma SendAllKeeps(s: State, user: string, env: Env)
    requires StoreSound(s.store, s.owner) && forall id :: id in env.order ==> id in s.docs
    ensures StoreSound(SendAllNotifications(s, user, env).store, s.owner)
  {
    SendEffect(s.store, s.owner, user, ListNotifications(Listing(s.docs, env.order)), false, env.getInfo, env.failing);
  }

  lemma SendConfigKeeps(s: State, user: string, env: Env)
    requires StoreSound(s.store, s.owner)
    ensures StoreSound(SendConfigurations(s, user, env).store, s.owner)
  {
    var config := FindOne(s.configs, user);
    if config.Some? {
      var payload := ListConfigurations(Hex(config.value.id), user, config.value.enableNotifications);
      SendEffect(s.store, s.owner, user, payload, true, env.regetInfo, env.refailing);
    }
  }

  lemma RegisterKeeps(s: State, conn: Conn, user: string, at: Time, configId: ObjectId, env: Env)
    requires Sound(s) && conn !in s.owner
    ensures Sound(Register(s, conn, user, at, configId, env).0)
    ensures Register(s, conn, user, at, configId, env).0.owner == s.owner[conn := user]
    ensures Register(s, conn, user, at, configId, env).0.docs == s.docs
  {
  }

  lemma ConnectKeeps(s: State, conn: Conn, user: string, at: Time, configId: ObjectId, env: Env)
    requires Sound(s) && conn !in s.owner && forall id :: id in env.order ==> id in s.docs
    ensures Sound(Connected(s, conn, user, at, configId, env))
  {
    RegisterKeeps(s, conn, user, at, configId, env);
    var registered := Register(s, conn, user, at, configId, env).0;
    SendAllKeeps(registered, user, env);
    SendConfigKeeps(SendAllNotifications(registered, user, env), user, env);
  }

  lemma ToggleKeeps(s: State, user: string, enable: bool, env: Env)
    requires Sound(s) && forall id :: id in env.order ==> id in s.docs
    ensures Sound(StatusSet(s, user, enable, env))
  {
    var toggled := Toggled(s, user, enable, env);
    if enable {
      SendAllKeeps(toggled, user, env);
      SendConfigKeeps(SendAllNotifications(toggled, user, env), user, env);
    } else {
      SendEffect(toggled.store, s.owner, user, ListNotifications([]), true, env.getInfo, env.failing);
      SendConfigKeeps(SendEmptyList(toggled, user, env), user, env);
    }
  }

  lemma StepKeepsSound(s: State, m: Move)
    requires Sound(s) && Enabled(s, m)
    ensures Sound(Step(s, m))
  {
    var env, user := m.env, UserOf(s, m.event);
    match m.event
    case Connect(conn, _, at, configId) => ConnectKeeps(s, conn, user, at, configId, env);
    case ReloadNotifications(_) => SendAllKeeps(s, user, env);
    case MarkRead(_, _, _) => SendAllKeeps(s.(docs := DocsAtQuery(s, m.event, env)), user, env);
    case DeleteScope(_, _) => SendAllKeeps(s.(docs := DocsAtQuery(s, m.event, env)), user, env);
    case SetNotificationStatus(_, enable) => ToggleKeeps(s, user, enable, env);
    case Ignored(_) =>
    case Publish(id, draft) =>
      SendEffect(s.store, s.owner, user, NewNotification(ToWire(id, Drafted(draft))), false, env.getInfo, env.failing);
    case ReadFails(conn) => RemoveEffect(s.store, s.owner, user, conn, env.delInfo);
    case PingFails(conn) => RemoveEffect(Closed(s, conn).store, s.owner, user, conn, env.delInfo);
  }

  lemma {:induction false} RunIsSound(states: seq<State>, moves: seq<Move>, i: nat)
    requires IsRun(states, moves) && i < |states|
    ensures Sound(states[i])
  {
    if i == 0 {
    } else {
      RunIsSound(states, moves, i - 1);
      assert Happens(states, moves, i - 1);
      StepKeepsSound(states[i - 1], moves[i - 1]);
    }
  }
}
