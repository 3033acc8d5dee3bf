/** The enable flag in its two homes: the configuration document and the Redis record. */
module CacheAgreement {
  import opened Wrappers
  import opened ObjectIds
  import opened NotificationModel
  import opened ConfigurationRepository
  import opened ClientModel
  import opened SessionModel
  import opened SessionInvariants

  // One configuration document for each user that ever connected, never two of anybody, and every Redis
  // record carries the flag of its user's document; a user with a connection list has a record.
  ghost predicate Synced(s: State) {
    (forall c :: c in s.owner ==> CountOf(s.configs, s.owner[c]) == 1) &&
    (forall u :: CountOf(s.configs, u) <= 1) &&
    (forall u :: u in s.store.redis ==> FlagAgrees(s, u)) &&
    (forall u :: u in s.store.lists ==> u in s.store.redis)
  }

  predicate FlagAgrees(s: State, user: string) {
    user in s.store.redis && FindOne(s.configs, user).Some? &&
    s.store.redis[user].enableNotification == FindOne(s.configs, user).value.enableNotifications
  }

  lemma SendKeepsSynced(s: State, user: string, payload: Frame, bypass: bool, redisOk: bool, failing: set<Conn>)
    requires Synced(s)
    ensures Synced(s.(store := SendToUser(s.store, user, payload, bypass, redisOk, failing)))
  {
  }

  lemma SendAllKeepsSynced(s: State, user: string, env: Env)
    requires Synced(s) && forall id :: id in env.order ==> id in s.docs
    ensures Synced(SendAllNotifications(s, user, env))
  {
  }

  lemma SendConfigKeepsSynced(s: State, user: string, env: Env)
    requires Synced(s)
    ensures Synced(SendConfigurations(s, user, env))
  {
  }

  // What a registration without faults leaves: a document, and a record that carries its flag
  ghost predicate Registered(s: State, after: State, conn: Conn, user: string, at: Time, configId: ObjectId) {
    var found := FindOne(s.configs, user);
    var enable := found.Some? ==> found.value.enableNotifications;
    after.owner == s.owner[conn := user] &&
    after.configs == (if found.Some? then s.configs else s.configs + [Configuration(configId, user, true)]) &&
    after.store.redis == s.store.redis[user := ClientInfo(user, at, enable)] &&
    after.store.lists.Keys == s.store.lists.Keys + {user}
  }

  lemma FaultFreeRegister(s: State, conn: Conn, user: string, at: Time, configId: ObjectId, env: Env)
    requires FaultFree(env)
    ensures var (after, ok) := Register(s, conn, user, at, configId, env);
      ok && Registered(s, after, conn, user, at, configId)
  {
  }

  lemma RegisteredSyncs(s: State, after: State, conn: Conn, user: string, at: Time, configId: ObjectId)
    requires Synced(s) && conn !in s.owner && Registered(s, after, conn, user, at, configId)
    ensures Synced(after) && user in after.store.redis
    ensures user in s.store.redis ==>
              after.store.redis[user].enableNotification == s.store.redis[user].enableNotification
  {
    FindOneFinds(s.configs, user);
    if user in s.store.redis {
      assert FlagAgrees(s, user);
    }
    forall u
      ensures CountOf(after.configs, u) <= 1 && CountOf(after.configs, u) >= CountOf(s.configs, u)
      ensures u == user ==> CountOf(after.configs, u) == 1
      ensures u in after.store.redis ==> FlagAgrees(after, u)
    {
      InsertCounts(s.configs, Configuration(configId, user, true), u);
      if u != user && u in s.store.redis {
        assert FlagAgrees(s, u);
      }
    }
  }

  lemma RegisterSyncs(s: State, conn: Conn, user: string, at: Time, configId: ObjectId, env: Env)
    requires Synced(s) && conn !in s.owner && FaultFree(env)
    ensures var (after, ok) := Register(s, conn, user, at, configId, env);
      ok && Synced(after) && user in after.store.redis &&
      (user in s.store.redis ==> after.store.redis[user].enableNotification == s.store.redis[user].enableNotification)
  {
    FaultFreeRegister(s, conn, user, at, configId, env);
    RegisteredSyncs(s, Register(s, conn, user, at, configId, env).0, conn, user, at, configId);
  }

  lemma ToggleSyncs(s: State, user: string, enable: bool, env: Env)
    requires Synced(s) && FaultFree(env) && CountOf(s.configs, user) == 1
    ensures var after := Toggled(s, user, enable, env);
      Synced(after) && user in after.store.redis && after.store.redis[user].enableNotification == enable
    ensures FindOne(Toggled(s, user, enable, env).configs, user).Some?
  {
    var after := Toggled(s, user, enable, env);
    FindOneFinds(s.configs, user);
    forall u
      ensures CountOf(after.configs, u) == CountOf(s.configs, u)
      ensures u in after.store.redis ==> FlagAgrees(after, u)
    {
      UpdateSets(s.configs, user, enable, u);
      if u in s.store.redis {
        assert FlagAgrees(s, u);
      }
    }
  }

  lemma RemoveKeepsSynced(s: State, user: string, conn: Conn, env: Env)
    requires Synced(s)
    ensures Synced(s.(store := RemoveConnection(s.store, user, conn, env.delInfo)))
  {
  }

  lemma ConnectSyncs(s: State, conn: Conn, user: string, at: Time, configId: ObjectId, env: Env)
    requires Sound(s) && Synced(s) && conn !in s.owner && FaultFree(env)
    requires forall id :: id in env.order ==> id in s.docs
    ensures Synced(Connected(s, conn, user, at, configId, env))
  {
    RegisterSyncs(s, conn, user, at, configId, env);
    RegisterKeeps(s, conn, user, at, configId, env);
    var registered := Register(s, conn, user, at, configId, env).0;
    SendAllKeepsSynced(registered, user, env);
    SendConfigKeepsSynced(SendAllNotifications(registered, user, env), user, env);
    var greeted := SendConfigurations(SendAllNotifications(registered, user, env), user, env);
    SyncedIgnoresLoops(greeted, greeted.docs, greeted.loops + {conn}, greeted.pings);
  }

  lemma StatusSetSyncs(s: State, user: string, enable: bool, env: Env)
    requires Synced(s) && FaultFree(env) && CountOf(s.configs, user) == 1
    requires forall id :: id in env.order ==> id in s.docs
    ensures Synced(StatusSet(s, user, enable, env))
  {
    ToggleSyncs(s, user, enable, env);
    var toggled := Toggled(s, user, enable, env);
    if enable {
      SendAllKeepsSynced(toggled, user, env);
      SendConfigKeepsSynced(SendAllNotifications(toggled, user, env), user, env);
    } else {
      SendKeepsSynced(toggled, user, ListNotifications([]), true, env.getInfo, env.failing);
      SendConfigKeepsSynced(SendEmptyList(toggled, user, env), user, env);
    }
  }

  lemma {:induction false} StepKeepsSynced(s: State, m: Move)
    requires Sound(s) && Synced(s) && Enabled(s, m) && FaultFree(m.env)
    ensures Synced(Step(s, m))
  {
    var env, user := m.env, UserOf(s, m.event);
    match m.event
    case Connect(conn, _, at, configId) => ConnectSyncs(s, conn, user, at, configId, env);
    case ReloadNotifications(_) => SendAllKeepsSynced(s, user, env);
    case MarkRead(_, _, _) =>
      SyncedIgnoresLoops(s, DocsAtQuery(s, m.event, env), s.loops, s.pings);
      SendAllKeepsSynced(s.(docs := DocsAtQuery(s, m.event, env)), user, env);
    case DeleteScope(_, _) =>
      SyncedIgnoresLoops(s, DocsAtQuery(s, m.event, env), s.loops, s.pings);
      SendAllKeepsSynced(s.(docs := DocsAtQuery(s, m.event, env)), user, env);
    case SetNotificationStatus(_, enable) => StatusSetSyncs(s, user, enable, env);
    case Ignored(_) =>
    case Publish(id, draft) =>
      SendKeepsSynced(s, user, NewNotification(ToWire(id, Drafted(draft))), false, env.getInfo, env.failing);
      var sent := s.(store := SendToUser(s.store, draft.userId, NewNotification(ToWire(id, Drafted(draft))), false,
                                         env.getInfo, env.failing));
      SyncedIgnoresLoops(sent, Step(s, m).docs, s.loops, s.pings);
    case ReadFails(conn) =>
      RemoveKeepsSynced(s, user, conn, env);
      var removed := s.(store := RemoveConnection(s.store, user, conn, env.delInfo));
      SyncedIgnoresBroken(removed, conn, s.loops - {conn}, s.pings);
    case PingFails(conn) =>
      SyncedIgnoresBroken(s, conn, s.loops, s.pings);
      RemoveKeepsSynced(Closed(s, conn), user, conn, env);
      var removed := Closed(s, conn);
      var after := removed.(store := RemoveConnection(removed.store, user, conn, env.delInfo));
      SyncedIgnoresLoops(after, s.docs, s.loops, s.pings - {conn});
  }

  lemma SyncedIgnoresLoops(s: State, docs: Notifications, loops: set<Conn>, pings: set<Conn>)
    requires Synced(s)
    ensures Synced(s.(docs := docs, loops := loops, pings := pings))
  {
  }

  lemma SyncedIgnoresBroken(s: State, conn: Conn, loops: set<Conn>, pings: set<Conn>)
    requires Synced(s)
    ensures Synced(Closed(s, conn).(loops := loops, pings := pings))
  {
  }

  // After every handler of a fault-free run, both homes of the flag agree.
  lemma {:induction false} CachesAgree(states: seq<State>, moves: seq<Move>, i: nat)
    requires IsRun(states, moves) && i < |states|
    requires forall j :: 0 <= j < i ==> FaultFree(moves[j].env)
    ensures Synced(states[i])
  {
    if i == 0 {
    } else {
      CachesAgree(states, moves, i - 1);
      RunIsSound(states, moves, i - 1);
      assert Happens(states, moves, i - 1);
      StepKeepsSynced(states[i - 1], moves[i - 1]);
    }
  }

  // So whichever document of a user a scan meets first, it is the one FindOne returns.
  lemma ScanOrderDoesNotMatter(states: seq<State>, moves: seq<Move>, i: nat, config: Configuration)
    requires IsRun(states, moves) && i < |states| && config in states[i].configs
    requires forall j :: 0 <= j < i ==> FaultFree(moves[j].env)
    ensures FindOne(states[i].configs, config.userId) == Some(config)
  {
    CachesAgree(states, moves, i);
    PresentCounts(states[i].configs, config.userId, config);
    FindOneUnique(states[i].configs, config.userId, config);
  }

  ghost predicate AtMostOneEach(s: State) {
    forall user :: CountOf(s.configs, user) <= 1
  }

  // A user who has a document connects, the lookup fails and the insert succeeds.
  predicate Duplicates(s: State, m: Move) {
    m.event.Connect? && CountOf(s.configs, m.event.user) > 0 && !m.env.findConfig && m.env.insertConfig
  }

  lemma {:induction false} StepAndDuplicates(s: State, m: Move)
    requires AtMostOneEach(s) && Enabled(s, m)
    ensures AtMostOneEach(Step(s, m)) <==> !Duplicates(s, m)
  {
    var after := Step(s, m);
    match m.event
    case Connect(_, user, _, configId) =>
      FindOneFinds(s.configs, user);
      forall u
        ensures CountOf(s.configs + [Configuration(configId, user, true)], u) ==
                CountOf(s.configs, u) + if u == user then 1 else 0
      {
        InsertCounts(s.configs, Configuration(configId, user, true), u);
      }
      assert Duplicates(s, m) ==> CountOf(after.configs, user) == 2;
    case SetNotificationStatus(_, enable) =>
      forall u
        ensures CountOf(after.configs, u) == CountOf(s.configs, u)
      {
        UpdateSets(s.configs, UserOf(s, m.event), enable, u);
      }
    case _ => assert after.configs == s.configs;
  }

  lemma {:induction false} AtMostOneUpTo(states: seq<State>, moves: seq<Move>, i: nat)
    requires IsRun(states, moves) && i < |states|
    requires forall j :: 0 <= j < i ==> !Duplicates(states[j], moves[j])
    ensures AtMostOneEach(states[i])
  {
    if i == 0 {
    } else {
      AtMostOneUpTo(states, moves, i - 1);
      assert Happens(states, moves, i - 1);
      StepAndDuplicates(states[i - 1], moves[i - 1]);
    }
  }

  // Over whole runs, whatever fails: nobody ever has two documents exactly when that never happens.
  lemma {:induction false} DocumentsAreUniqueExactly(states: seq<State>, moves: seq<Move>)
    requires IsRun(states, moves)
    ensures (forall i :: 0 <= i < |states| ==> AtMostOneEach(states[i])) <==>
            (forall j :: 0 <= j < |moves| ==> !Duplicates(states[j], moves[j]))
  {
    if forall j :: 0 <= j < |moves| ==> !Duplicates(states[j], moves[j]) {
      forall i | 0 <= i < |states|
        ensures AtMostOneEach(states[i])
      {
        AtMostOneUpTo(states, moves, i);
      }
    }
    if forall i :: 0 <= i < |states| ==> AtMostOneEach(states[i]) {
      forall j | 0 <= j < |moves|
        ensures !Duplicates(states[j], moves[j])
      {
        assert Happens(states, moves, j);
        assert AtMostOneEach(states[j]) && AtMostOneEach(states[j + 1]);
        StepAndDuplicates(states[j], moves[j]);
      }
    }
  }

  // A failed lookup at connect is taken for a missing document: the user ends up with two.
  lemma LookupFaultDuplicates(s: State, m: Move)
    requires Enabled(s, m) && m.event.Connect? && CountOf(s.configs, m.event.user) == 1
    ensures CountOf(Step(s, m).configs, m.event.user) == 2 <==> !m.env.findConfig && m.env.insertConfig
  {
    FindOneFinds(s.configs, m.event.user);
    InsertCounts(s.configs, Configuration(m.event.configId, m.event.user, true), m.event.user);
  }
}
