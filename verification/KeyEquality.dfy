/** The users with a connection list and the users with a Redis record. */
module KeyEquality {
  import opened ObjectIds
  import opened NotificationModel
  import opened ConfigurationRepository
  import opened ClientModel
  import opened SessionModel
  import opened SessionInvariants

  ghost predicate KeysEqual(s: State) {
    s.store.lists.Keys == s.store.redis.Keys
  }

  // A toggle from a read loop whose connection was already taken off the list, the user's last one
  predicate TogglesUnlisted(s: State, m: Move) {
    Possible(s, m.event) && m.event.SetNotificationStatus? && UserOf(s, m.event) !in s.store.lists
  }

  // Sends touch no record, and pruning never takes a key away, even when it empties the list.
  predicate SameKeys(a: Clients, b: Clients) {
    a.lists.Keys == b.lists.Keys && a.redis == b.redis
  }

  lemma SendKeepsKeys(store: Clients, user: string, payload: Frame, bypass: bool, redisOk: bool, failing: set<Conn>)
    ensures SameKeys(store, SendToUser(store, user, payload, bypass, redisOk, failing))
  {
  }

  lemma SendsKeepKeys(s: State, user: string, env: Env)
    requires forall id :: id in env.order ==> id in s.docs
    ensures SameKeys(s.store, SendAllNotifications(s, user, env).store)
    ensures SameKeys(s.store, SendEmptyList(s, user, env).store)
    ensures SameKeys(s.store, SendConfigurations(s, user, env).store)
  {
  }

  // A fault-free step keeps the keys equal exactly when it is not such a toggle.
  lemma {:induction false} StepKeepsKeys(s: State, m: Move)
    requires KeysEqual(s) && Enabled(s, m) && FaultFree(m.env)
    ensures KeysEqual(Step(s, m)) <==> !TogglesUnlisted(s, m)
  {
    var env, user := m.env, UserOf(s, m.event);
    match m.event
    case Connect(conn, _, at, configId) => ConnectKeepsKeys(s, conn, user, at, configId, env);
    case ReloadNotifications(_) => SendsKeepKeys(s, user, env);
    case MarkRead(_, _, _) => SendsKeepKeys(s.(docs := DocsAtQuery(s, m.event, env)), user, env);
    case DeleteScope(_, _) => SendsKeepKeys(s.(docs := DocsAtQuery(s, m.event, env)), user, env);
    case SetNotificationStatus(_, enable) => ToggleKeys(s, user, enable, env);
    case Ignored(_) =>
    case Publish(id, draft) =>
      SendKeepsKeys(s.store, user, NewNotification(ToWire(id, Drafted(draft))), false, env.getInfo, env.failing);
    case ReadFails(conn) => RemovalKeepsKeys(s.store, user, conn);
    case PingFails(conn) => RemovalKeepsKeys(Closed(s, conn).store, user, conn);
  }

  lemma ConnectKeepsKeys(s: State, conn: Conn, user: string, at: Time, configId: ObjectId, env: Env)
    requires KeysEqual(s) && FaultFree(env) && forall id :: id in env.order ==> id in s.docs
    ensures KeysEqual(Connected(s, conn, user, at, configId, env))
  {
  }

  lemma ToggleKeys(s: State, user: string, enable: bool, env: Env)
    requires KeysEqual(s) && FaultFree(env) && forall id :: id in env.order ==> id in s.docs
    ensures KeysEqual(StatusSet(s, user, enable, env)) <==> user in s.store.lists
  {
  }

  lemma RemovalKeepsKeys(store: Clients, user: string, conn: Conn)
    requires store.lists.Keys == store.redis.Keys
    ensures var after := RemoveConnection(store, user, conn, true);
      after.lists.Keys == after.redis.Keys
  {
  }

  // In every fault-free run, whatever sockets fail, the keys are equal after every handler exactly as long as no
  // such toggle happens.
  lemma {:induction false} KeysEqualExactly(states: seq<State>, moves: seq<Move>)
    requires IsRun(states, moves) && forall j :: 0 <= j < |moves| ==> FaultFree(moves[j].env)
    ensures (forall i :: 0 <= i < |states| ==> KeysEqual(states[i])) <==>
            (forall j :: 0 <= j < |moves| ==> !TogglesUnlisted(states[j], moves[j]))
  {
    if forall j :: 0 <= j < |moves| ==> !TogglesUnlisted(states[j], moves[j]) {
      forall i | 0 <= i < |states|
        ensures KeysEqual(states[i])
      {
        KeysEqualUpTo(states, moves, i);
      }
    }
    if forall i :: 0 <= i < |states| ==> KeysEqual(states[i]) {
      forall j | 0 <= j < |moves|
        ensures !TogglesUnlisted(states[j], moves[j])
      {
        assert Happens(states, moves, j);
        assert KeysEqual(states[j]) && KeysEqual(states[j + 1]);
        StepKeepsKeys(states[j], moves[j]);
      }
    }
  }

  lemma {:induction false} KeysEqualUpTo(states: seq<State>, moves: seq<Move>, i: nat)
    requires IsRun(states, moves) && i < |states|
    requires forall j :: 0 <= j < i ==> FaultFree(moves[j].env) && !TogglesUnlisted(states[j], moves[j])
    ensures KeysEqual(states[i])
  {
    if i == 0 {
    } else {
      KeysEqualUpTo(states, moves, i - 1);
      assert Happens(states, moves, i - 1);
      StepKeepsKeys(states[i - 1], moves[i - 1]);
    }
  }

  // No write of the step fails. A ping can still fail after its connection was closed.
  predicate WritesSucceed(s: State, m: Move) {
    m.env.failing == {} && m.env.refailing == {} && (m.event.PingFails? ==> m.event.conn !in s.loops)
  }

  // Every connection with a running read loop is listed and takes writes.
  ghost predicate AllServed(s: State) {
    forall c :: c in s.loops && c in s.owner ==> Listed(s.store, s.owner[c], c) && c !in s.store.broken
  }

  lemma {:induction false} StepKeepsServed(s: State, m: Move)
    requires Sound(s) && AllServed(s) && Enabled(s, m) && FaultFree(m.env) && WritesSucceed(s, m)
    ensures AllServed(Step(s, m))
  {
    var env, user := m.env, UserOf(s, m.event);
    match m.event
    case Connect(conn, _, at, configId) => ConnectServes(s, conn, user, at, configId, env);
    case ReloadNotifications(_) => SendAllServes(s, user, env);
    case MarkRead(_, _, _) => SendAllServes(s.(docs := DocsAtQuery(s, m.event, env)), user, env);
    case DeleteScope(_, _) => SendAllServes(s.(docs := DocsAtQuery(s, m.event, env)), user, env);
    case SetNotificationStatus(_, enable) => ToggleServes(s, user, enable, env);
    case Ignored(_) =>
    case Publish(id, draft) =>
      SendKeepsHealthy(s.store, user, NewNotification(ToWire(id, Drafted(draft))), false, env.getInfo, env.failing);
    case ReadFails(conn) => RemoveEffect(s.store, s.owner, user, conn, env.delInfo);
    case PingFails(conn) => RemoveEffect(Closed(s, conn).store, s.owner, user, conn, env.delInfo);
  }

  lemma {:induction false} ConnectServes(s: State, conn: Conn, user: string, at: Time, configId: ObjectId, env: Env)
    requires Sound(s) && AllServed(s) && conn !in s.owner && FaultFree(env)
    requires env.failing == {} && env.refailing == {} && forall id :: id in env.order ==> id in s.docs
    ensures AllServed(Connected(s, conn, user, at, configId, env))
  {
    StoreEffect(s.store, s.owner, ClientInfo(user, at, true), conn, true);
    RegisterKeeps(s, conn, user, at, configId, env);
    var registered := Register(s, conn, user, at, configId, env).0;
    RegisterServes(s, conn, user, at, configId, env);
    SendAllServes(registered, user, env);
    SendConfigServes(SendAllNotifications(registered, user, env), user, env);
  }

  lemma ToggleServes(s: State, user: string, enable: bool, env: Env)
    requires AllServed(s) && env.failing == {} && env.refailing == {}
    requires forall id :: id in env.order ==> id in s.docs
    ensures AllServed(StatusSet(s, user, enable, env))
  {
    var toggled := Toggled(s, user, enable, env);
    if enable {
      SendAllServes(toggled, user, env);
      SendConfigServes(SendAllNotifications(toggled, user, env), user, env);
    } else {
      SendKeepsHealthy(toggled.store, user, ListNotifications([]), true, env.getInfo, env.failing);
      SendConfigServes(SendEmptyList(toggled, user, env), user, env);
    }
  }

  // Registering adds the connection to its user's list and keeps what is listed.
  lemma RegisterServes(s: State, conn: Conn, user: string, at: Time, configId: ObjectId, env: Env)
    requires Sound(s) && conn !in s.owner && FaultFree(env)
    ensures var registered := Register(s, conn, user, at, configId, env).0;
      AllServed(s) ==> AllServed(registered.(loops := registered.loops + {conn}))
    ensures AllServed(s) ==> AllServed(Register(s, conn, user, at, configId, env).0)
  {
  }

  lemma SendAllServes(s: State, user: string, env: Env)
    requires env.failing == {} && forall id :: id in env.order ==> id in s.docs
    ensures forall u, c :: Listed(s.store, u, c) && c !in s.store.broken ==>
              Listed(SendAllNotifications(s, user, env).store, u, c)
    ensures SendAllNotifications(s, user, env).store.broken <= s.store.broken
  {
    SendKeepsHealthy(s.store, user, ListNotifications(Listing(s.docs, env.order)), false, env.getInfo, env.failing);
  }

  lemma SendConfigServes(s: State, user: string, env: Env)
    requires env.refailing == {}
    ensures forall u, c :: Listed(s.store, u, c) && c !in s.store.broken ==>
              Listed(SendConfigurations(s, user, env).store, u, c)
    ensures SendConfigurations(s, user, env).store.broken <= s.store.broken
  {
    var config := FindOne(s.configs, user);
    if config.Some? {
      var payload := ListConfigurations(Hex(config.value.id), user, config.value.enableNotifications);
      SendKeepsHealthy(s.store, user, payload, true, env.regetInfo, env.refailing);
    }
  }

  // In fault-free runs without write failures, with toggles, several connections per user and repeated removals,
  // the users with a list are the users with a record.
  lemma {:induction false} KeysStayEqual(states: seq<State>, moves: seq<Move>, i: nat)
    requires IsRun(states, moves) && i < |states|
    requires forall j :: 0 <= j < i ==> FaultFree(moves[j].env) && WritesSucceed(states[j], moves[j])
    ensures KeysEqual(states[i]) && AllServed(states[i])
  {
    if i == 0 {
    } else {
      KeysStayEqual(states, moves, i - 1);
      RunIsSound(states, moves, i - 1);
      assert Happens(states, moves, i - 1);
      StepKeepsServed(states[i - 1], moves[i - 1]);
      StepKeepsKeys(states[i - 1], moves[i - 1]);
    }
  }
}
