/** A user who switched notifications off is left alone until switching them on again, or until a failed lookup makes
    the server forget. */
module PreferencePersistence {
  import opened ObjectIds
  import opened NotificationModel
  import opened ConfigurationRepository
  import opened ClientModel
  import opened SessionModel
  import opened SessionInvariants

  // The user's document says off.
  predicate Off(s: State, user: string) {
    FindOne(s.configs, user).Some? && !FindOne(s.configs, user).value.enableNotifications
  }

  // Nothing to show: a configuration or an empty list
  predicate Silent(frame: Frame) {
    frame.ListConfigurations? || frame == ListNotifications([])
  }

  ghost predicate OnlySilentAdded(before: seq<Frame>, after: seq<Frame>) {
    before <= after && forall i :: |before| <= i < |after| ==> Silent(after[i])
  }

  // Between two states, the connections of a user received silent frames only.
  ghost predicate Quiet(a: State, b: State, user: string) {
    forall c :: c in b.owner && b.owner[c] == user ==>
      OnlySilentAdded(Received(a.store.frames, c), Received(b.store.frames, c))
  }

  // Both homes of the flag say off: the document, and the Redis record if there is one.
  predicate SwitchedOff(s: State, user: string) {
    Off(s, user) && (user in s.store.redis ==> !s.store.redis[user].enableNotification)
  }

  // A toggle-on of the user that reaches the document or the record
  predicate SwitchesOn(s: State, m: Move, user: string) {
    Possible(s, m.event) && m.event.SetNotificationStatus? && m.event.enable && UserOf(s, m.event) == user &&
    (m.env.updateConfig || m.env.setInfo)
  }

  // The user connects, the lookup fails and is taken for a missing document, and the rest succeeds.
  predicate Forgets(m: Move, user: string) {
    m.event.Connect? && m.event.user == user && !m.env.findConfig && m.env.insertConfig && m.env.setInfo
  }

  lemma QuietChains(a: State, b: State, c: State, user: string)
    requires Quiet(a, b, user) && Quiet(b, c, user)
    requires forall conn :: conn in c.owner && c.owner[conn] == user ==> conn in b.owner && b.owner[conn] == user
    ensures Quiet(a, c, user)
  {
  }

  // A send that is refused, is silent, or goes to somebody else
  lemma SendIsQuiet(s: State, target: string, payload: Frame, bypass: bool, redisOk: bool, failing: set<Conn>,
      user: string)
    requires StoreSound(s.store, s.owner)
    requires target == user && SendResult(s.store, target, bypass, redisOk).Ok? ==> Silent(payload)
    ensures Quiet(s, s.(store := SendToUser(s.store, target, payload, bypass, redisOk, failing)), user)
  {
    SendEffect(s.store, s.owner, target, payload, bypass, redisOk, failing);
  }

  lemma SendAllIsQuiet(s: State, target: string, env: Env, user: string)
    requires StoreSound(s.store, s.owner) && forall id :: id in env.order ==> id in s.docs
    requires target == user && user in s.store.redis ==> !s.store.redis[user].enableNotification
    ensures Quiet(s, SendAllNotifications(s, target, env), user)
  {
    SendIsQuiet(s, target, ListNotifications(Listing(s.docs, env.order)), false, env.getInfo, env.failing, user);
  }

  lemma SendConfigIsQuiet(s: State, target: string, env: Env, user: string)
    requires StoreSound(s.store, s.owner)
    ensures Quiet(s, SendConfigurations(s, target, env), user)
  {
    var config := FindOne(s.configs, target);
    if config.Some? {
      var payload := ListConfigurations(Hex(config.value.id), target, config.value.enableNotifications);
      SendIsQuiet(s, target, payload, true, env.regetInfo, env.refailing, user);
    }
  }

  lemma ReplyIsQuiet(s: State, target: string, enable: bool, env: Env, user: string)
    requires StoreSound(s.store, s.owner) && forall id :: id in env.order ==> id in s.docs
    requires user in s.store.redis ==> !s.store.redis[user].enableNotification
    ensures var listed := if enable then SendAllNotifications(s, target, env) else SendEmptyList(s, target, env);
      Quiet(s, SendConfigurations(listed, target, env), user)
  {
    var listed := if enable then SendAllNotifications(s, target, env) else SendEmptyList(s, target, env);
    if enable {
      SendAllIsQuiet(s, target, env, user);
      SendAllKeeps(s, target, env);
    } else {
      SendIsQuiet(s, target, ListNotifications([]), true, env.getInfo, env.failing, user);
      SendEffect(s.store, s.owner, target, ListNotifications([]), true, env.getInfo, env.failing);
    }
    SendConfigIsQuiet(listed, target, env, user);
    QuietChains(s, listed, SendConfigurations(listed, target, env), user);
  }

  // Sends touch neither home of the flag.
  lemma SendsKeepFlags(s: State, target: string, env: Env, user: string)
    requires forall id :: id in env.order ==> id in s.docs
    ensures SwitchedOff(SendAllNotifications(s, target, env), user) == SwitchedOff(s, user)
    ensures SwitchedOff(SendEmptyList(s, target, env), user) == SwitchedOff(s, user)
    ensures SwitchedOff(SendConfigurations(s, target, env), user) == SwitchedOff(s, user)
  {
  }

  lemma RegisterIsQuiet(s: State, conn: Conn, target: string, at: Time, configId: ObjectId, env: Env, user: string)
    requires Sound(s) && SwitchedOff(s, user) && conn !in s.owner
    ensures var registered := Register(s, conn, target, at, configId, env).0;
      (SwitchedOff(registered, user) <==>
        !(target == user && !env.findConfig && env.insertConfig && env.setInfo)) &&
      registered.store.frames == s.store.frames
  {
    InsertCounts(s.configs, Configuration(configId, target, true), user);
  }

  lemma ConnectIsQuiet(s: State, conn: Conn, target: string, at: Time, configId: ObjectId, env: Env, user: string)
    requires Sound(s) && SwitchedOff(s, user) && conn !in s.owner
    requires forall id :: id in env.order ==> id in s.docs
    ensures var after, forgets := Connected(s, conn, target, at, configId, env),
        target == user && !env.findConfig && env.insertConfig && env.setInfo;
      (SwitchedOff(after, user) <==> !forgets) && (!forgets ==> Quiet(s, after, user))
  {
    var registered := Register(s, conn, target, at, configId, env).0;
    RegisterKeeps(s, conn, target, at, configId, env);
    RegisterIsQuiet(s, conn, target, at, configId, env, user);
    SendsKeepFlags(registered, target, env, user);
    SendsKeepFlags(SendAllNotifications(registered, target, env), target, env, user);
    if SwitchedOff(registered, user) {
      ReplyIsQuiet(registered, target, true, env, user);
    }
  }

  lemma ToggleIsQuiet(s: State, target: string, enable: bool, env: Env, user: string)
    requires Sound(s) && SwitchedOff(s, user) && forall id :: id in env.order ==> id in s.docs
    ensures var after, on := StatusSet(s, target, enable, env),
        enable && target == user && (env.updateConfig || env.setInfo);
      (SwitchedOff(after, user) <==> !on) && (!on ==> Quiet(s, after, user))
  {
    var toggled := Toggled(s, target, enable, env);
    UpdateSets(s.configs, target, enable, user);
    var listed :=
      if enable then SendAllNotifications(toggled, target, env) else SendEmptyList(toggled, target, env);
    SendsKeepFlags(toggled, target, env, user);
    SendsKeepFlags(listed, target, env, user);
    if SwitchedOff(toggled, user) {
      ReplyIsQuiet(toggled, target, enable, env, user);
    }
  }

  // The handlers that send the list
  lemma ListingIsQuiet(s: State, m: Move, user: string)
    requires Sound(s) && SwitchedOff(s, user) && Enabled(s, m)
    requires m.event.ReloadNotifications? || m.event.MarkRead? || m.event.DeleteScope?
    ensures SwitchedOff(Step(s, m), user) && Quiet(s, Step(s, m), user)
  {
    SendAllIsQuiet(s.(docs := DocsAtQuery(s, m.event, m.env)), UserOf(s, m.event), m.env, user);
  }

  // Messages without effect, pushes and removals
  lemma OtherStepsAreQuiet(s: State, m: Move, user: string)
    requires Sound(s) && SwitchedOff(s, user) && Enabled(s, m)
    requires m.event.Ignored? || m.event.Publish? || m.event.ReadFails? || m.event.PingFails?
    ensures SwitchedOff(Step(s, m), user) && Quiet(s, Step(s, m), user)
  {
    if m.event.Publish? {
      var draft := m.event.draft;
      SendIsQuiet(s, draft.userId, NewNotification(ToWire(m.event.id, Drafted(draft))), false, m.env.getInfo,
                  m.env.failing, user);
    }
  }

  // While both say off, a step keeps it so exactly when it neither switches on nor forgets, and then it is quiet,
  // whatever else fails.
  lemma StepIsQuiet(s: State, m: Move, user: string)
    requires Sound(s) && SwitchedOff(s, user) && Enabled(s, m)
    ensures SwitchedOff(Step(s, m), user) <==> !SwitchesOn(s, m, user) && !Forgets(m, user)
    ensures !SwitchesOn(s, m, user) && !Forgets(m, user) ==> Quiet(s, Step(s, m), user)
  {
    if m.event.Connect? {
      ConnectIsQuiet(s, m.event.conn, m.event.user, m.event.at, m.event.configId, m.env, user);
    } else if m.event.SetNotificationStatus? {
      ToggleIsQuiet(s, UserOf(s, m.event), m.event.enable, m.env, user);
    } else if m.event.ReloadNotifications? || m.event.MarkRead? || m.event.DeleteScope? {
      ListingIsQuiet(s, m, user);
    } else {
      OtherStepsAreQuiet(s, m, user);
    }
  }

  // A connection belongs to one user for ever.
  ghost predicate OwnersKept(a: State, b: State) {
    forall c :: c in a.owner ==> c in b.owner && b.owner[c] == a.owner[c]
  }

  lemma OwnersKeptChains(a: State, b: State, c: State)
    requires OwnersKept(a, b) && OwnersKept(b, c)
    ensures OwnersKept(a, c)
  {
  }

  // A connection opened between b and c had received nothing at a.
  lemma QuietAcrossConnect(a: State, b: State, c: State, user: string)
    requires Sound(a) && Sound(b) && OwnersKept(a, b) && OwnersKept(b, c)
    requires Quiet(a, b, user) && Quiet(b, c, user)
    ensures Quiet(a, c, user)
  {
  }

  // Quiet steps that keep owners and soundness compose.
  lemma {:induction false} QuietSteps(states: seq<State>, i: nat, j: nat, user: string)
    requires i <= j < |states|
    requires forall k :: i <= k <= j ==> Sound(states[k])
    requires forall k :: i <= k < j ==> Quiet(states[k], states[k + 1], user) && OwnersKept(states[k], states[k + 1])
    ensures Quiet(states[i], states[j], user) && OwnersKept(states[i], states[j])
    decreases j
  {
    if i == j {
    } else {
      QuietSteps(states, i, j - 1, user);
      OwnersKeptChains(states[i], states[j - 1], states[j]);
      QuietAcrossConnect(states[i], states[j - 1], states[j], user);
    }
  }

  // Every user with a running read loop has a document, and keeps it.
  ghost predicate Documented(s: State) {
    forall c :: c in s.loops && c in s.owner ==> FindOne(s.configs, s.owner[c]).Some?
  }

  lemma ConnectDocuments(s: State, conn: Conn, user: string, at: Time, configId: ObjectId, env: Env, u: string)
    requires conn !in s.owner && conn !in s.loops && forall id :: id in env.order ==> id in s.docs
    ensures var after := Connected(s, conn, user, at, configId, env);
      (FindOne(s.configs, u).Some? ==> FindOne(after.configs, u).Some?) &&
      (conn in after.loops ==> FindOne(after.configs, user).Some?) &&
      after.owner == s.owner[conn := user] && after.loops <= s.loops + {conn}
  {
    InsertCounts(s.configs, Configuration(configId, user, true), u);
    InsertCounts(s.configs, Configuration(configId, user, true), user);
  }

  lemma ToggleDocuments(s: State, user: string, enable: bool, env: Env, u: string)
    requires forall id :: id in env.order ==> id in s.docs
    ensures var after := StatusSet(s, user, enable, env);
      (FindOne(s.configs, u).Some? ==> FindOne(after.configs, u).Some?) &&
      after.owner == s.owner && after.loops == s.loops
  {
    UpdateSets(s.configs, user, enable, u);
  }

  lemma OtherStepsDocument(s: State, m: Move)
    requires Enabled(s, m) && !m.event.Connect? && !m.event.SetNotificationStatus?
    ensures Step(s, m).configs == s.configs && Step(s, m).owner == s.owner && Step(s, m).loops <= s.loops
  {
  }

  lemma StepKeepsOwners(s: State, m: Move)
    requires Sound(s) && Enabled(s, m)
    ensures OwnersKept(s, Step(s, m))
  {
    if m.event.Connect? {
      ConnectDocuments(s, m.event.conn, m.event.user, m.event.at, m.event.configId, m.env, m.event.user);
    } else if m.event.SetNotificationStatus? {
      ToggleDocuments(s, UserOf(s, m.event), m.event.enable, m.env, UserOf(s, m.event));
    } else {
      OtherStepsDocument(s, m);
    }
  }

  lemma OwnersKeptAt(states: seq<State>, moves: seq<Move>, j: nat)
    requires IsRun(states, moves) && j < |moves|
    ensures OwnersKept(states[j], states[j + 1])
  {
    RunIsSound(states, moves, j);
    assert Happens(states, moves, j);
    StepKeepsOwners(states[j], moves[j]);
  }

  lemma StepKeepsDocumented(s: State, m: Move)
    requires Sound(s) && Documented(s) && Enabled(s, m)
    ensures Documented(Step(s, m))
  {
    if m.event.Connect? {
      forall u
        ensures FindOne(s.configs, u).Some? ==> FindOne(Step(s, m).configs, u).Some?
      {
        ConnectDocuments(s, m.event.conn, m.event.user, m.event.at, m.event.configId, m.env, u);
      }
      ConnectDocuments(s, m.event.conn, m.event.user, m.event.at, m.event.configId, m.env, m.event.user);
    } else if m.event.SetNotificationStatus? {
      forall u
        ensures FindOne(s.configs, u).Some? ==> FindOne(Step(s, m).configs, u).Some?
      {
        ToggleDocuments(s, UserOf(s, m.event), m.event.enable, m.env, u);
      }
      ToggleDocuments(s, UserOf(s, m.event), m.event.enable, m.env, UserOf(s, m.event));
    } else {
      OtherStepsDocument(s, m);
    }
  }

  lemma {:induction false} RunIsDocumented(states: seq<State>, moves: seq<Move>, i: nat)
    requires IsRun(states, moves) && i < |states|
    ensures Documented(states[i])
  {
    if i == 0 {
    } else {
      RunIsDocumented(states, moves, i - 1);
      RunIsSound(states, moves, i - 1);
      assert Happens(states, moves, i - 1);
      StepKeepsDocumented(states[i - 1], moves[i - 1]);
    }
  }

  // A toggle-off leaves both homes off exactly when each was written or said so before.
  lemma SwitchesOff(s: State, user: string, env: Env)
    requires FindOne(s.configs, user).Some? && forall id :: id in env.order ==> id in s.docs
    ensures SwitchedOff(StatusSet(s, user, false, env), user) <==>
            (env.updateConfig || Off(s, user)) &&
            (env.setInfo || (user in s.store.redis ==> !s.store.redis[user].enableNotification))
  {
    var toggled := Toggled(s, user, false, env);
    UpdateSets(s.configs, user, false, user);
    SendsKeepFlags(toggled, user, env, user);
    SendsKeepFlags(SendEmptyList(toggled, user, env), user, env, user);
  }

  // ---- Over whole runs, whatever fails ----

  predicate Ends(s: State, m: Move, user: string) {
    SwitchesOn(s, m, user) || Forgets(m, user)
  }

  lemma {:induction false} OffSince(states: seq<State>, moves: seq<Move>, i: nat, j: nat, user: string)
    requires IsRun(states, moves) && i <= j < |states| && SwitchedOff(states[i], user)
    requires forall k :: i <= k < j ==> !Ends(states[k], moves[k], user)
    ensures SwitchedOff(states[j], user)
    decreases j
  {
    if i == j {
    } else {
      OffSince(states, moves, i, j - 1, user);
      RunIsSound(states, moves, j - 1);
      assert Happens(states, moves, j - 1);
      StepIsQuiet(states[j - 1], moves[j - 1], user);
    }
  }

  // From any state in which both say off, they do so up to a later one exactly when no step between switches on or
  // forgets.
  lemma OffExactly(states: seq<State>, moves: seq<Move>, i: nat, j: nat, user: string)
    requires IsRun(states, moves) && i <= j < |states| && SwitchedOff(states[i], user)
    ensures (forall k :: i <= k <= j ==> SwitchedOff(states[k], user)) <==>
            (forall k :: i <= k < j ==> !Ends(states[k], moves[k], user))
  {
    if forall k :: i <= k < j ==> !Ends(states[k], moves[k], user) {
      forall k | i <= k <= j
        ensures SwitchedOff(states[k], user)
      {
        OffSince(states, moves, i, k, user);
      }
    }
    if forall k :: i <= k <= j ==> SwitchedOff(states[k], user) {
      forall k | i <= k < j
        ensures !Ends(states[k], moves[k], user)
      {
        RunIsSound(states, moves, k);
        assert Happens(states, moves, k);
        assert SwitchedOff(states[k], user) && SwitchedOff(states[k + 1], user);
        StepIsQuiet(states[k], moves[k], user);
      }
    }
  }

  // And as long as that is so, across disconnects, deletion of the Redis record, restarts of sessions and anything
  // other users do, no connection of the user receives a newNotification or a list that is not empty.
  lemma QuietWhileOff(states: seq<State>, moves: seq<Move>, i: nat, j: nat, user: string)
    requires IsRun(states, moves) && i <= j < |states| && SwitchedOff(states[i], user)
    requires forall k :: i <= k < j ==> !Ends(states[k], moves[k], user)
    ensures Quiet(states[i], states[j], user)
  {
    forall k | i <= k <= j
      ensures Sound(states[k])
      ensures k < j ==> Quiet(states[k], states[k + 1], user) && OwnersKept(states[k], states[k + 1])
    {
      RunIsSound(states, moves, k);
      OffSince(states, moves, i, k, user);
      if k < j {
        assert Happens(states, moves, k);
        StepIsQuiet(states[k], moves[k], user);
        OwnersKeptAt(states, moves, k);
      }
    }
    QuietSteps(states, i, j, user);
  }

  // A toggle-off whose two writes succeed starts such a time.
  lemma PreferencePersists(states: seq<State>, moves: seq<Move>, off: nat, j: nat, user: string)
    requires IsRun(states, moves) && off < j <= |moves|
    requires moves[off].event.SetNotificationStatus? && !moves[off].event.enable
    requires Possible(states[off], moves[off].event) && UserOf(states[off], moves[off].event) == user
    requires moves[off].env.updateConfig && moves[off].env.setInfo
    requires forall k :: off < k < j ==> !Ends(states[k], moves[k], user)
    ensures Quiet(states[off + 1], states[j], user) && SwitchedOff(states[j], user)
  {
    RunIsDocumented(states, moves, off);
    assert Happens(states, moves, off);
    SwitchesOff(states[off], user, moves[off].env);
    QuietWhileOff(states, moves, off + 1, j, user);
    OffSince(states, moves, off + 1, j, user);
  }

  // What was added up to a later state is all silent exactly when it was up to one between, from where it is.
  lemma QuietBetween(a: State, b: State, c: State, user: string)
    requires b.owner == c.owner && Quiet(b, c, user)
    requires forall conn :: conn in b.owner && b.owner[conn] == user ==>
               Received(a.store.frames, conn) <= Received(b.store.frames, conn)
    ensures Quiet(a, c, user) <==> Quiet(a, b, user)
  {
  }

  // The list that goes out when the server has forgotten
  predicate Shown(s: State, m: Move, user: string, c: Conn)
    requires m.event.Connect?
  {
    m.env.find && m.env.getInfo && c in ListOf(s.store.lists, user) + [m.event.conn] &&
    c !in s.store.broken + m.env.failing
  }

  lemma ForgottenListing(s: State, m: Move, user: string, c: Conn)
    requires Sound(s) && Enabled(s, m) && Forgets(m, user)
    ensures var registered := Register(s, m.event.conn, user, m.event.at, m.event.configId, m.env).0;
      registered.docs == s.docs &&
      Received(SendAllNotifications(registered, user, m.env).store.frames, c) ==
      Received(s.store.frames, c) +
        if Shown(s, m, user, c) then [ListNotifications(Listing(s.docs, m.env.order))] else []
  {
    var registered := Register(s, m.event.conn, user, m.event.at, m.event.configId, m.env).0;
    RegisterKeeps(s, m.event.conn, user, m.event.at, m.event.configId, m.env);
    var conns, bad := ListOf(s.store.lists, user) + [m.event.conn], s.store.broken + m.env.failing;
    assert registered.store.lists[user] == conns && registered.store.broken == s.store.broken;
    if m.env.find && m.env.getInfo {
      DeliverOnce(s.store.frames, conns, bad, ListNotifications(Listing(s.docs, m.env.order)), c);
    }
  }

  // When the server forgets, the list it sends is seen exactly when it has something in it and reaches somebody.
  lemma ForgettingShows(s: State, m: Move, user: string)
    requires Sound(s) && Enabled(s, m) && Forgets(m, user)
    ensures Quiet(s, Step(s, m), user) <==> m.env.order == [] || forall c :: !Shown(s, m, user, c)
  {
    var env, conn := m.env, m.event.conn;
    var registered := Register(s, conn, user, m.event.at, m.event.configId, env).0;
    RegisterKeeps(s, conn, user, m.event.at, m.event.configId, env);
    var listed := SendAllNotifications(registered, user, env);
    SendAllKeeps(registered, user, env);
    SendConfigIsQuiet(listed, user, env, user);
    forall c
      ensures Received(listed.store.frames, c) == Received(s.store.frames, c) +
              if Shown(s, m, user, c) then [ListNotifications(Listing(s.docs, env.order))] else []
      ensures Shown(s, m, user, c) ==> c in listed.owner && listed.owner[c] == user
    {
      ForgottenListing(s, m, user, c);
    }
    ShownIsHeard(s, m, listed, user);
    QuietBetween(s, listed, Step(s, m), user);
  }

  lemma ShownIsHeard(s: State, m: Move, listed: State, user: string)
    requires m.event.Connect? && forall id :: id in m.env.order ==> id in s.docs
    requires forall c :: Received(listed.store.frames, c) == Received(s.store.frames, c) +
               if Shown(s, m, user, c) then [ListNotifications(Listing(s.docs, m.env.order))] else []
    requires forall c :: Shown(s, m, user, c) ==> c in listed.owner && listed.owner[c] == user
    ensures Quiet(s, listed, user) <==> m.env.order == [] || forall c :: !Shown(s, m, user, c)
  {
    var payload := ListNotifications(Listing(s.docs, m.env.order));
    if m.env.order != [] {
      forall c | Shown(s, m, user, c)
        ensures !OnlySilentAdded(Received(s.store.frames, c), Received(listed.store.frames, c))
      {
        assert Received(listed.store.frames, c)[|Received(s.store.frames, c)|] == payload;
      }
    } else {
      assert Silent(payload);
    }
  }
}
