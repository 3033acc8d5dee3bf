/** Runs of the session machine that meet the conditions of the exact theorems: a toggle after a failed ping, a failed
    lookup at connect, alone and while notifications are off, and a mark by id of somebody else's notification. */
module SessionWitnesses {
  import opened Wrappers
  import opened ObjectIds
  import opened NotificationModel
  import opened ConfigurationRepository
  import opened ClientModel
  import opened SessionModel
  import opened SessionInvariants
  import opened CacheAgreement
  import opened KeyEquality
  import opened ReplicaConsistency
  import opened PreferencePersistence
  import opened ConfigurationFrames

  const EMPTY: State := State(map[], [], Clients(map[], map[], map[], {}), map[], {}, {})

  // Every call and every write succeeds; the cursor yields the given order.
  function Calm(order: seq<ObjectId>): Env {
    Env(true, true, true, true, true, true, true, true, true, true, order, {}, {})
  }

  ghost predicate CalmRun(states: seq<State>, moves: seq<Move>) {
    IsRun(states, moves) && forall j :: 0 <= j < |moves| ==> moves[j].env == Calm(moves[j].env.order)
  }

  lemma Extend(states: seq<State>, moves: seq<Move>, m: Move) returns (longer: seq<State>, more: seq<Move>)
    requires IsRun(states, moves) && Enabled(states[|moves|], m)
    ensures longer == states + [Step(states[|moves|], m)] && more == moves + [m] && IsRun(longer, more)
  {
    longer, more := states + [Step(states[|moves|], m)], moves + [m];
    forall i | 0 <= i < |more|
      ensures Happens(longer, more, i)
    {
      assert i < |moves| ==> Happens(states, moves, i);
    }
  }

  lemma ExtendCalm(states: seq<State>, moves: seq<Move>, m: Move) returns (longer: seq<State>, more: seq<Move>)
    requires CalmRun(states, moves) && Enabled(states[|moves|], m) && m.env == Calm(m.env.order)
    ensures longer == states + [Step(states[|moves|], m)] && more == moves + [m] && CalmRun(longer, more)
  {
    longer, more := Extend(states, moves, m);
  }

  // A send that no socket refuses leaves the lists as they are.
  lemma CalmSend(store: Clients, user: string, payload: Frame, bypass: bool)
    requires store.broken == {}
    ensures var after := SendToUser(store, user, payload, bypass, true, {});
      after.lists == store.lists && after.redis == store.redis && after.broken == {}
  {
    if user in store.lists {
      HealthyMembers(store.lists[user], store.broken + {});
    }
  }

  // The first connection of a user without a document, when nothing fails
  lemma CalmConnect(s: State, conn: Conn, user: string, at: Time, configId: ObjectId, order: seq<ObjectId>)
    requires s.store.broken == {} && FindOne(s.configs, user).None? && forall id :: id in order ==> id in s.docs
    ensures var after := Connected(s, conn, user, at, configId, Calm(order));
      after.store.lists == Appended(s.store.lists, user, conn) && after.store.broken == {} &&
      after.store.redis == s.store.redis[user := ClientInfo(user, at, true)] &&
      after.docs == s.docs && after.configs == s.configs + [Configuration(configId, user, true)] &&
      after.owner == s.owner[conn := user] && conn in after.loops && conn in after.pings
  {
    var registered := Register(s, conn, user, at, configId, Calm(order)).0;
    CalmSend(registered.store, user, ListNotifications(Listing(s.docs, order)), false);
    var listed := SendAllNotifications(registered, user, Calm(order));
    var config := FindOne(listed.configs, user);
    if config.Some? {
      var payload := ListConfigurations(Hex(config.value.id), user, config.value.enableNotifications);
      CalmSend(listed.store, user, payload, true);
    }
  }

  // ---- A record without a list ----

  lemma ConnectedRun(conn: Conn, user: string, configId: ObjectId) returns (states: seq<State>, moves: seq<Move>)
    ensures CalmRun(states, moves) && |moves| == 1 && moves[0].event == Connect(conn, user, 0, configId)
    ensures states[1].docs == map[] && states[1].configs == [Configuration(configId, user, true)]
    ensures states[1].owner == map[conn := user] && conn in states[1].loops && conn in states[1].pings
    ensures states[1].store.lists == map[user := [conn]] && states[1].store.broken == {}
    ensures states[1].store.redis == map[user := ClientInfo(user, 0, true)]
  {
    CalmConnect(EMPTY, conn, user, 0, configId, []);
    states, moves := ExtendCalm([EMPTY], [], Move(Connect(conn, user, 0, configId), Calm([])));
  }

  // The same, and a failed ping
  lemma PingFailedRun(user: string, configId: ObjectId) returns (states: seq<State>, moves: seq<Move>)
    ensures CalmRun(states, moves) && |moves| == 2 && moves[0].event.Connect? && moves[1].event.PingFails?
    ensures states[2].store.lists == map[] && states[2].docs == map[]
    ensures states[2].owner == map[0 := user] && 0 in states[2].loops
  {
    states, moves := ConnectedRun(0, user, configId);
    assert [0][..0] == [] && Without([0], 0) == [];
    states, moves := ExtendCalm(states, moves, Move(PingFails(0), Calm([])));
  }

  // A user connects, the ping fails and takes the connection off the list, and the read loop, which is still
  // running, reads a toggle: Redis has a record for a user who is not in the map.
  lemma ToggleAfterFailedPing(user: string, configId: ObjectId) returns (states: seq<State>, moves: seq<Move>)
    ensures CalmRun(states, moves) && |moves| == 3
    ensures TogglesUnlisted(states[2], moves[2]) && !KeysEqual(states[3])
  {
    states, moves := PingFailedRun(user, configId);
    states, moves := ExtendCalm(states, moves, Move(SetNotificationStatus(0, true), Calm([])));
    KeysEqualUpTo(states, moves, 2);
    assert Happens(states, moves, 2);
    StepKeepsKeys(states[2], moves[2]);
  }

  // ---- Two documents of one user ----

  lemma OneDocument(config: Configuration)
    ensures CountOf([config], config.userId) == 1 && AtMostOneEach(EMPTY.(configs := [config]))
  {
  }

  lemma SecondDocument(s: State, m: Move, config: Configuration)
    requires s.configs == [config] && Enabled(s, m) && m.event.Connect? && m.event.user == config.userId
    requires !m.env.findConfig && m.env.insertConfig
    ensures Duplicates(s, m) && !AtMostOneEach(Step(s, m))
  {
    OneDocument(config);
    StepAndDuplicates(s, m);
  }

  // The user connects again, and the lookup fails while the insert succeeds.
  lemma FailedLookupDuplicates(user: string, configId: ObjectId, other: ObjectId)
    returns (states: seq<State>, moves: seq<Move>)
    ensures IsRun(states, moves) && |moves| == 2
    ensures Duplicates(states[1], moves[1]) && !AtMostOneEach(states[2])
  {
    states, moves := ConnectedRun(0, user, configId);
    var again := Move(Connect(1, user, 0, other), Calm([]).(findConfig := false));
    SecondDocument(states[1], again, Configuration(configId, user, true));
    states, moves := Extend(states, moves, again);
  }

  // ---- A configuration that is missed ----

  // A user switches notifications off, and the document cannot be read again for the reply.
  lemma FailedReplyMisses(user: string, configId: ObjectId) returns (states: seq<State>, moves: seq<Move>)
    ensures IsRun(states, moves) && |moves| == 2
    ensures Misses(states[1], moves[1]) && !AllCurrent(states[2])
  {
    states, moves := ConnectedRun(0, user, configId);
    CurrentUpTo(states, moves, 1);
    RunIsSound(states, moves, 1);
    RunIsDocumented(states, moves, 1);
    var off := Move(SetNotificationStatus(0, false), Calm([]).(refindConfig := false));
    assert Listed(states[1].store, user, 0);
    StepAndCurrent(states[1], off);
    states, moves := Extend(states, moves, off);
  }

  // ---- A preference that is forgotten ----

  lemma TurnsOff(s: State, user: string, m: Move)
    requires FindOne(s.configs, user).Some? && s.docs == map[] && s.owner == map[0 := user] && 0 in s.loops
    requires m == Move(SetNotificationStatus(0, false), Calm([]))
    ensures Enabled(s, m) && SwitchedOff(Step(s, m), user)
    ensures Step(s, m).docs == map[] && Step(s, m).owner == map[0 := user]
  {
    ToggleDocuments(s, user, false, Calm([]), user);
    SwitchesOff(s, user, Calm([]));
  }

  // A user switches notifications off,
  lemma SwitchedOffRun(user: string, configId: ObjectId) returns (states: seq<State>, moves: seq<Move>)
    ensures CalmRun(states, moves) && |moves| == 2
    ensures moves[1].event == SetNotificationStatus(0, false) && SwitchedOff(states[2], user)
    ensures states[2].docs == map[] && states[2].owner == map[0 := user]
  {
    states, moves := ConnectedRun(0, user, configId);
    var off := Move(SetNotificationStatus(0, false), Calm([]));
    TurnsOff(states[1], user, off);
    states, moves := ExtendCalm(states, moves, off);
  }

  // a notification is stored, and not pushed,
  lemma StoredWhileOffRun(user: string, configId: ObjectId, id: ObjectId, draft: Draft)
    returns (states: seq<State>, moves: seq<Move>)
    requires draft.userId == user
    ensures CalmRun(states, moves) && |moves| == 3 && SwitchedOff(states[3], user)
    ensures states[3].docs == map[id := Stored(Drafted(draft))] && states[3].owner == map[0 := user]
  {
    states, moves := SwitchedOffRun(user, configId);
    RunIsSound(states, moves, 2);
    OtherStepsAreQuiet(states[2], Move(Publish(id, draft), Calm([id])), user);
    states, moves := ExtendCalm(states, moves, Move(Publish(id, draft), Calm([id])));
  }

  lemma LookupFailsWhileOff(s: State, user: string, other: ObjectId, id: ObjectId, m: Move)
    requires Sound(s) && SwitchedOff(s, user) && s.owner == map[0 := user] && id in s.docs
    requires m == Move(Connect(1, user, 0, other), Calm([id]).(findConfig := false)) && Enabled(s, m)
    ensures !SwitchedOff(Step(s, m), user) && !Quiet(s, Step(s, m), user)
  {
    StepIsQuiet(s, m, user);
    assert 1 !in s.store.broken && Shown(s, m, user, 1);
    ForgettingShows(s, m, user);
  }

  // and when another connection of the user is opened and the lookup fails, the whole list goes out.
  lemma FailedLookupForgets(user: string, configId: ObjectId, other: ObjectId, id: ObjectId, draft: Draft)
    returns (states: seq<State>, moves: seq<Move>)
    requires draft.userId == user
    ensures IsRun(states, moves) && |moves| == 4 && SwitchedOff(states[3], user)
    ensures Forgets(moves[3], user) && !SwitchedOff(states[4], user) && !Quiet(states[3], states[4], user)
  {
    states, moves := StoredWhileOffRun(user, configId, id, draft);
    var again := Move(Connect(1, user, 0, other), Calm([id]).(findConfig := false));
    RunIsSound(states, moves, 3);
    assert Enabled(states[3], again);
    LookupFailsWhileOff(states[3], user, other, id, again);
    states, moves := Extend(states, moves, again);
  }

  // ---- A replica that is behind ----

  lemma NoDocument(config: Configuration, user: string)
    requires config.userId != user
    ensures FindOne([config], user).None?
  {
  }

  // The second user connects to a server with one connection.
  lemma StrangerConnects(s: State, owner: string, stranger: string, configId: ObjectId, m: Move)
    requires owner != stranger && s.configs == [Configuration(configId, owner, true)] && s.docs == map[]
    requires s.owner == map[0 := owner] && s.store.lists == map[owner := [0]] && s.store.broken == {}
    requires s.store.redis == map[owner := ClientInfo(owner, 0, true)]
    requires m == Move(Connect(1, stranger, 0, configId), Calm([]))
    ensures Enabled(s, m)
    ensures var after := Step(s, m);
      after.docs == map[] && after.owner == map[0 := owner, 1 := stranger] && 1 in after.loops &&
      after.store.lists == map[owner := [0], stranger := [1]] && after.store.broken == {} && Enabling(after, owner)
  {
    NoDocument(s.configs[0], stranger);
    CalmConnect(s, 1, stranger, 0, configId, []);
    assert [] + [1] == [1];
  }

  lemma TwoConnectedRun(owner: string, stranger: string, configId: ObjectId)
    returns (states: seq<State>, moves: seq<Move>)
    requires owner != stranger
    ensures CalmRun(states, moves) && |moves| == 2 && moves[0].event.Connect? && moves[1].event.Connect?
    ensures states[2].docs == map[] && states[2].owner == map[0 := owner, 1 := stranger] && 1 in states[2].loops
    ensures states[2].store.lists == map[owner := [0], stranger := [1]] && states[2].store.broken == {}
    ensures Enabling(states[2], owner)
  {
    states, moves := ConnectedRun(0, owner, configId);
    var connect := Move(Connect(1, stranger, 0, configId), Calm([]));
    StrangerConnects(states[1], owner, stranger, configId, connect);
    states, moves := ExtendCalm(states, moves, connect);
  }

  // The same, and a notification for the first user
  lemma PublishedRun(owner: string, stranger: string, configId: ObjectId, id: ObjectId, draft: Draft)
    returns (states: seq<State>, moves: seq<Move>)
    requires owner != stranger && draft.userId == owner
    ensures CalmRun(states, moves) && |moves| == 3 && forall j :: 0 <= j < 3 ==> !moves[j].event.MarkRead?
    ensures states[3].docs == map[id := Stored(Drafted(draft))]
    ensures states[3].owner == map[0 := owner, 1 := stranger] && 1 in states[3].loops
    ensures states[3].store.lists == map[owner := [0], stranger := [1]] && Enabling(states[3], owner)
  {
    states, moves := TwoConnectedRun(owner, stranger, configId);
    CalmSend(states[2].store, owner, NewNotification(ToWire(id, Drafted(draft))), false);
    states, moves := ExtendCalm(states, moves, Move(Publish(id, draft), Calm([id])));
  }

  lemma BareIdText(id: ObjectId)
    ensures ParseClientId(Hex(id)) == Ok(id)
  {
    ClientIdRoundTrip(id, "", "", "", "");
    assert "" + ("" + Hex(id) + "") + "" == Hex(id);
  }

  // And a mark of it by the second user
  lemma MarkedRun(owner: string, stranger: string, configId: ObjectId, id: ObjectId, draft: Draft)
    returns (states: seq<State>, moves: seq<Move>)
    requires owner != stranger && draft.userId == owner
    ensures CalmRun(states, moves) && |moves| == 4 && forall j :: 0 <= j < 3 ==> !moves[j].event.MarkRead?
    ensures Disturbs(states[3], moves[3])
  {
    states, moves := PublishedRun(owner, stranger, configId, id, draft);
    BareIdText(id);
    states, moves := ExtendCalm(states, moves, Move(MarkRead(1, One(Hex(id)), 0), Calm([])));
  }

  // It leaves the owner's connection with a notification that is no longer unread.
  lemma StrangersMarkIsMissed(owner: string, stranger: string, configId: ObjectId, id: ObjectId, draft: Draft)
    returns (states: seq<State>, moves: seq<Move>)
    requires owner != stranger && draft.userId == owner
    ensures CalmRun(states, moves) && |moves| == 4
    ensures Disturbs(states[3], moves[3]) && !Consistent(states[4])
  {
    states, moves := MarkedRun(owner, stranger, configId, id, draft);
    ConsistentUpTo(states, moves, 3);
    RunIsSound(states, moves, 3);
    CachesAgree(states, moves, 3);
    assert Happens(states, moves, 3);
    StepConsistent(states[3], moves[3]);
  }
}
