/** What each handler writes, to whom and where, for every outcome of the calls it makes: the frames of each
    connection, the notification documents, the preference documents and the records. */
module HandlerEffects {
  import opened Wrappers
  import opened KeyNormaliser
  import opened ObjectIds
  import opened NotificationModel
  import opened ConfigurationRepository
  import opened ClientModel
  import opened SessionModel
  import opened SessionInvariants

  // ---- One send ----

  // Nothing keeps a send to the user from its write loop.
  predicate Goes(store: Clients, user: string, bypass: bool, redisOk: bool) {
    user in store.lists && redisOk && user in store.redis && (bypass || store.redis[user].enableNotification)
  }

  // The connection is on the list and takes the write.
  predicate Takes(store: Clients, user: string, failing: set<Conn>, c: Conn) {
    Listed(store, user, c) && c !in store.broken && c !in failing
  }

  function If(b: bool, frame: Frame): seq<Frame> {
    if b then [frame] else []
  }

  // Who receives, who stays listed, and who is found broken
  lemma SendExactly(store: Clients, owner: map<Conn, string>, user: string, payload: Frame, bypass: bool,
                    redisOk: bool, failing: set<Conn>, c: Conn)
    requires StoreSound(store, owner)
    ensures var after, goes := SendToUser(store, user, payload, bypass, redisOk, failing),
                               Goes(store, user, bypass, redisOk);
      Received(after.frames, c) ==
        Received(store.frames, c) + If(goes && Takes(store, user, failing, c), payload) &&
      (forall u :: Listed(after, u, c) <==>
        Listed(store, u, c) && (goes && u == user ==> Takes(store, user, failing, c))) &&
      (c in after.broken <==> c in store.broken || (goes && Listed(store, user, c) && c in failing)) &&
      after.redis == store.redis && after.lists.Keys == store.lists.Keys
  {
    if Goes(store, user, bypass, redisOk) {
      HealthyMembers(store.lists[user], store.broken + failing);
      DeliverOnce(store.frames, store.lists[user], store.broken + failing, payload, c);
    }
  }

  // The items are the documents of the cursor, one by one.
  ghost predicate ShowsAll(items: seq<WireNotification>, docs: Notifications, order: seq<ObjectId>) {
    |items| == |order| &&
    forall i :: 0 <= i < |order| ==> order[i] in docs && Shows(items[i], order[i], docs[order[i]])
  }

  lemma SendAllExactly(s: State, user: string, env: Env, c: Conn) returns (items: seq<WireNotification>)
    requires StoreSound(s.store, s.owner) && forall id :: id in env.order ==> id in s.docs
    ensures ShowsAll(items, s.docs, env.order)
    ensures var after, goes := SendAllNotifications(s, user, env).store,
                               env.find && Goes(s.store, user, false, env.getInfo);
      Received(after.frames, c) ==
        Received(s.store.frames, c) + If(goes && Takes(s.store, user, env.failing, c), ListNotifications(items)) &&
      (forall u :: Listed(after, u, c) <==>
        Listed(s.store, u, c) && (goes && u == user ==> Takes(s.store, user, env.failing, c))) &&
      (c in after.broken <==> c in s.store.broken || (goes && Listed(s.store, user, c) && c in env.failing)) &&
      after.redis == s.store.redis && after.lists.Keys == s.store.lists.Keys
  {
    items := Listing(s.docs, env.order);
    SendExactly(s.store, s.owner, user, ListNotifications(items), false, env.getInfo, env.failing, c);
  }

  lemma SendEmptyExactly(s: State, user: string, env: Env, c: Conn)
    requires StoreSound(s.store, s.owner)
    ensures var after, goes := SendEmptyList(s, user, env).store, Goes(s.store, user, true, env.getInfo);
      Received(after.frames, c) ==
        Received(s.store.frames, c) + If(goes && Takes(s.store, user, env.failing, c), ListNotifications([])) &&
      (forall u :: Listed(after, u, c) <==>
        Listed(s.store, u, c) && (goes && u == user ==> Takes(s.store, user, env.failing, c))) &&
      (c in after.broken <==> c in s.store.broken || (goes && Listed(s.store, user, c) && c in env.failing)) &&
      after.redis == s.store.redis && after.lists.Keys == s.store.lists.Keys
  {
    SendExactly(s.store, s.owner, user, ListNotifications([]), true, env.getInfo, env.failing, c);
  }

  // The configuration that goes out is the one the lookup finds, under the user's name.
  lemma SendConfigExactly(s: State, user: string, env: Env, c: Conn)
    requires StoreSound(s.store, s.owner)
    ensures var after, found := SendConfigurations(s, user, env).store, FindOne(s.configs, user);
      var goes := env.refindConfig && found.Some? && Goes(s.store, user, true, env.regetInfo);
      Received(after.frames, c) == Received(s.store.frames, c) +
        (if goes && Takes(s.store, user, env.refailing, c)
         then [ListConfigurations(Hex(found.value.id), user, found.value.enableNotifications)] else []) &&
      (forall u :: Listed(after, u, c) <==>
        Listed(s.store, u, c) && (goes && u == user ==> Takes(s.store, user, env.refailing, c))) &&
      s.store.broken <= after.broken
  {
    var found := FindOne(s.configs, user);
    if found.Some? {
      var payload := ListConfigurations(Hex(found.value.id), user, found.value.enableNotifications);
      SendExactly(s.store, s.owner, user, payload, true, env.regetInfo, env.refailing, c);
    }
  }

  // ---- A list and then a configuration ----

  function ListThenConfig(s: State, user: string, enable: bool, env: Env): State
    requires forall id :: id in env.order ==> id in s.docs
  {
    SendConfigurations(if enable then SendAllNotifications(s, user, env) else SendEmptyList(s, user, env), user, env)
  }

  predicate ListGoes(s: State, user: string, enable: bool, env: Env) {
    Goes(s.store, user, !enable, env.getInfo) && (enable ==> env.find)
  }

  predicate ConfigGoes(s: State, user: string, env: Env) {
    env.refindConfig && FindOne(s.configs, user).Some? && Goes(s.store, user, true, env.regetInfo)
  }

  // A connection that fails the first write does not get the second one either.
  predicate TakesSecond(s: State, user: string, enable: bool, env: Env, c: Conn) {
    Takes(s.store, user, env.refailing, c) && !(ListGoes(s, user, enable, env) && c in env.failing)
  }

  lemma TwoFrames(s: State, user: string, enable: bool, env: Env, c: Conn) returns (items: seq<WireNotification>)
    requires StoreSound(s.store, s.owner) && forall id :: id in env.order ==> id in s.docs
    ensures if enable then ShowsAll(items, s.docs, env.order) else items == []
    ensures var found := FindOne(s.configs, user);
      Received(ListThenConfig(s, user, enable, env).store.frames, c) == Received(s.store.frames, c) +
        If(ListGoes(s, user, enable, env) && Takes(s.store, user, env.failing, c), ListNotifications(items)) +
        (if ConfigGoes(s, user, env) && TakesSecond(s, user, enable, env, c)
         then [ListConfigurations(Hex(found.value.id), user, found.value.enableNotifications)] else [])
    ensures var after := ListThenConfig(s, user, enable, env).store;
      (forall u :: Listed(after, u, c) <==>
        Listed(s.store, u, c) &&
        (u == user && ListGoes(s, user, enable, env) ==> Takes(s.store, user, env.failing, c)) &&
        (u == user && ConfigGoes(s, user, env) ==> TakesSecond(s, user, enable, env, c))) &&
      s.store.broken <= after.broken
  {
    if enable {
      items := SendAllExactly(s, user, env, c);
      SendAllKeeps(s, user, env);
      SendConfigExactly(SendAllNotifications(s, user, env), user, env, c);
    } else {
      items := [];
      SendEmptyExactly(s, user, env, c);
      SendEffect(s.store, s.owner, user, ListNotifications([]), true, env.getInfo, env.failing);
      SendConfigExactly(SendEmptyList(s, user, env), user, env, c);
    }
  }

  // ---- The handlers that answer with the list ----

  predicate IsListing(e: Event) {
    e.ReloadNotifications? || e.MarkRead? || e.DeleteScope?
  }

  // The list shows the documents as the handler leaves them.
  lemma ListingFrames(s: State, m: Move, c: Conn) returns (items: seq<WireNotification>)
    requires Sound(s) && Enabled(s, m) && IsListing(m.event)
    ensures IsCursorOrder(m.env.order, Step(s, m).docs, s.owner[m.event.conn])
    ensures ShowsAll(items, Step(s, m).docs, m.env.order)
    ensures var user := s.owner[m.event.conn];
      Received(Step(s, m).store.frames, c) == Received(s.store.frames, c) +
        If(m.env.find && Goes(s.store, user, false, m.env.getInfo) && Takes(s.store, user, m.env.failing, c),
           ListNotifications(items))
  {
    items := SendAllExactly(s.(docs := DocsAtQuery(s, m.event, m.env)), UserOf(s, m.event), m.env, c);
  }

  // ---- A new notification ----

  // The pushed item says what the draft says, times included.
  predicate Announces(item: WireNotification, id: ObjectId, d: Draft) {
    item.id == Hex(id) && item.appId == d.appId && item.userId == d.userId && item.groupKey == d.groupKey &&
    item.message == d.message && !item.readStatus && item.status == d.status &&
    item.createdAt == d.createdAt && item.updatedAt == d.updatedAt
  }

  // Stored and pushed, or nothing at all
  lemma PublishEffect(s: State, m: Move, c: Conn) returns (item: WireNotification)
    requires Sound(s) && Enabled(s, m) && m.event.Publish?
    ensures Announces(item, m.event.id, m.event.draft)
    ensures !m.env.write || m.event.id in s.docs ==> Step(s, m) == s
    ensures m.env.write && m.event.id !in s.docs ==>
      m.event.id in Step(s, m).docs && Records(Step(s, m).docs[m.event.id], m.event.draft) &&
      Step(s, m).docs == s.docs[m.event.id := Step(s, m).docs[m.event.id]]
    ensures m.env.write && m.event.id !in s.docs ==>
      var user := m.event.draft.userId;
      Received(Step(s, m).store.frames, c) == Received(s.store.frames, c) +
        If(Goes(s.store, user, false, m.env.getInfo) && Takes(s.store, user, m.env.failing, c), NewNotification(item))
  {
    item := ToWire(m.event.id, Drafted(m.event.draft));
    SendExactly(s.store, s.owner, m.event.draft.userId, NewNotification(item), false, m.env.getInfo, m.env.failing, c);
  }

  // A later mark of the user by app, or by app and group, reads it exactly when the keys it sends normalise to those
  // of the draft.
  lemma PublishedThenMarked(docs: Notifications, id: ObjectId, d: Draft, app: string, group: string, at: Time)
    requires id !in docs
    ensures var after := Apply(docs, Insert(id, Drafted(d)));
      id in Apply(after, Mark(d.userId, App(app), at)) &&
      (Apply(after, Mark(d.userId, App(app), at))[id].readStatus <==> Normalise(app) == d.appId) &&
      id in Apply(after, Mark(d.userId, Group(app, group), at)) &&
      (Apply(after, Mark(d.userId, Group(app, group), at))[id].readStatus <==>
        Normalise(app) == d.appId && Normalise(group) == d.groupKey)
  {
  }

  // ---- The preference ----

  // Go's zero time: the first of January of year 1, so many days before 1970
  const DAYS_BEFORE_1970 := 719_162

  // Sends touch neither the documents nor the records.
  lemma SendsWriteNothing(s: State, user: string, enable: bool, env: Env)
    requires forall id :: id in env.order ==> id in s.docs
    ensures var after := ListThenConfig(s, user, enable, env);
      after == s.(store := s.store.(lists := after.store.lists, frames := after.store.frames,
                                    broken := after.store.broken))
  {
  }

  // What a toggle leaves in the two homes of the flag
  lemma ToggleWrites(s: State, m: Move, u: string)
    requires Enabled(s, m) && m.event.SetNotificationStatus?
    ensures var user, after := s.owner[m.event.conn], Step(s, m);
      FindOne(after.configs, u) ==
        (if u == user && m.env.updateConfig && FindOne(s.configs, u).Some?
         then Some(FindOne(s.configs, u).value.(enableNotifications := m.event.enable)) else FindOne(s.configs, u)) &&
      after.docs == s.docs &&
      (if m.env.setInfo
       then user in after.store.redis && after.store.redis[user].id == user &&
            after.store.redis[user].connectedAt == -DAYS_BEFORE_1970 * 86_400 * 1_000_000_000 &&
            after.store.redis[user].enableNotification == m.event.enable &&
            after.store.redis == s.store.redis[user := after.store.redis[user]]
       else after.store.redis == s.store.redis)
  {
    var user := s.owner[m.event.conn];
    UpdateSets(s.configs, user, m.event.enable, u);
    SendsWriteNothing(Toggled(s, user, m.event.enable, m.env), user, m.event.enable, m.env);
  }

  // The flag of the record once the toggle has tried to write it
  predicate OnAfter(s: State, user: string, enable: bool, env: Env) {
    if env.setInfo then enable else user in s.store.redis && s.store.redis[user].enableNotification
  }

  predicate RecordedAfter(s: State, user: string, env: Env) {
    env.setInfo || user in s.store.redis
  }

  // The list, or the empty one, goes out.
  predicate ToggleLists(s: State, user: string, enable: bool, env: Env) {
    env.getInfo && RecordedAfter(s, user, env) && (enable ==> env.find && OnAfter(s, user, enable, env))
  }

  predicate ToggleReplies(s: State, user: string, env: Env) {
    env.refindConfig && env.regetInfo && RecordedAfter(s, user, env) && FindOne(s.configs, user).Some?
  }

  // The reply to a toggle: the list or the empty one, then the configuration with the document's flag as it is now
  lemma ToggleFrames(s: State, m: Move, c: Conn) returns (items: seq<WireNotification>)
    requires Sound(s) && Enabled(s, m) && m.event.SetNotificationStatus?
    ensures if m.event.enable then ShowsAll(items, s.docs, m.env.order) else items == []
    ensures var env, user, enable := m.env, s.owner[m.event.conn], m.event.enable;
      var found, lists := FindOne(s.configs, user), ToggleLists(s, user, enable, env);
      Received(Step(s, m).store.frames, c) == Received(s.store.frames, c) +
        If(lists && Takes(s.store, user, env.failing, c), ListNotifications(items)) +
        (if ToggleReplies(s, user, env) && Takes(s.store, user, env.refailing, c) && !(lists && c in env.failing)
         then [ListConfigurations(Hex(found.value.id), user,
                                  if env.updateConfig then enable else found.value.enableNotifications)]
         else [])
  {
    var user := s.owner[m.event.conn];
    UpdateSets(s.configs, user, m.event.enable, user);
    items := TwoFrames(Toggled(s, user, m.event.enable, m.env), user, m.event.enable, m.env, c);
  }

  // ---- A new connection ----

  predicate Finds(s: State, m: Move)
    requires m.event.Connect?
  {
    m.env.findConfig && FindOne(s.configs, m.event.user).Some?
  }

  // The preference is read or created, and the record is written.
  predicate Registers(s: State, m: Move)
    requires m.event.Connect?
  {
    (Finds(s, m) || m.env.insertConfig) && m.env.setInfo
  }

  // What the handler knows of the preference: the document's flag, or on when no document was read
  predicate StartsEnabled(s: State, m: Move)
    requires m.event.Connect?
  {
    Finds(s, m) ==> FindOne(s.configs, m.event.user).value.enableNotifications
  }

  // The document of the user behind which the reply stands: the one there was, or the one the connect created
  function DocumentAfter(s: State, m: Move): Option<Configuration>
    requires m.event.Connect?
  {
    if FindOne(s.configs, m.event.user).Some? then FindOne(s.configs, m.event.user)
    else if m.env.insertConfig then Some(Configuration(m.event.configId, m.event.user, true))
    else None
  }

  // The state between StoreClient and the two frames
  lemma RegisterWrites(s: State, m: Move)
    requires Enabled(s, m) && m.event.Connect?
    ensures var conn, user := m.event.conn, m.event.user;
      var (registered, ok) := Register(s, conn, user, m.event.at, m.event.configId, m.env);
      ok == Registers(s, m) && FindOne(registered.configs, user) == DocumentAfter(s, m) &&
      (forall u :: u != user ==> FindOne(registered.configs, u) == FindOne(s.configs, u)) &&
      registered.configs == s.configs + (if !Finds(s, m) && m.env.insertConfig
                                         then [Configuration(m.event.configId, user, true)] else []) &&
      registered.docs == s.docs && registered.store.frames == s.store.frames &&
      registered.owner == s.owner[conn := user] && registered.loops == s.loops &&
      registered.pings == s.pings + {conn} &&
      registered.store.broken == s.store.broken + (if ok then {} else {conn}) &&
      registered.store.lists == (if Finds(s, m) || m.env.insertConfig then Appended(s.store.lists, user, conn)
                                 else s.store.lists) &&
      registered.store.redis == (if ok then s.store.redis[user := ClientInfo(user, m.event.at, StartsEnabled(s, m))]
                                 else s.store.redis)
  {
    forall u
      ensures FindOne(s.configs + [Configuration(m.event.configId, m.event.user, true)], u) ==
              if FindOne(s.configs, u).Some? then FindOne(s.configs, u)
              else if u == m.event.user then Some(Configuration(m.event.configId, m.event.user, true)) else None
    {
      InsertCounts(s.configs, Configuration(m.event.configId, m.event.user, true), u);
    }
  }

  // A connect that registers leaves the record and the document so, and a running loop; one that does not leaves a
  // closed connection and sends nothing.
  lemma ConnectWrites(s: State, m: Move)
    requires Sound(s) && Enabled(s, m) && m.event.Connect?
    ensures var after, conn, user := Step(s, m), m.event.conn, m.event.user;
      after.docs == s.docs && FindOne(after.configs, user) == DocumentAfter(s, m) &&
      after.owner == s.owner[conn := user] && after.pings == s.pings + {conn} &&
      after.loops == s.loops + (if Registers(s, m) then {conn} else {}) &&
      after.store.redis ==
        (if Registers(s, m) then s.store.redis[user := ClientInfo(user, m.event.at, StartsEnabled(s, m))]
         else s.store.redis) &&
      (!Registers(s, m) ==> conn in after.store.broken && after.store.frames == s.store.frames)
  {
    RegisterWrites(s, m);
    var registered := Register(s, m.event.conn, m.event.user, m.event.at, m.event.configId, m.env).0;
    SendsWriteNothing(registered, m.event.user, true, m.env);
  }

  // The connection is on its user's list by now.
  predicate TakesGreeting(s: State, m: Move, failing: set<Conn>, c: Conn)
    requires m.event.Connect?
  {
    (c == m.event.conn || Listed(s.store, m.event.user, c)) && c !in s.store.broken && c !in failing
  }

  predicate ConnectLists(s: State, m: Move)
    requires m.event.Connect?
  {
    m.env.find && m.env.getInfo && StartsEnabled(s, m)
  }

  // The greeting, which every connection of the user gets: the list when enabled, then the configuration
  lemma ConnectFrames(s: State, m: Move, c: Conn) returns (items: seq<WireNotification>)
    requires Sound(s) && Enabled(s, m) && m.event.Connect? && Registers(s, m)
    ensures ShowsAll(items, s.docs, m.env.order)
    ensures var env, found := m.env, DocumentAfter(s, m);
      var lists := ConnectLists(s, m);
      Received(Step(s, m).store.frames, c) == Received(s.store.frames, c) +
        If(lists && TakesGreeting(s, m, env.failing, c), ListNotifications(items)) +
        (if env.refindConfig && env.regetInfo && TakesGreeting(s, m, env.refailing, c) &&
            !(lists && c in env.failing)
         then [ListConfigurations(Hex(found.value.id), m.event.user, found.value.enableNotifications)] else [])
  {
    var conn, user := m.event.conn, m.event.user;
    RegisterWrites(s, m);
    RegisterKeeps(s, conn, user, m.event.at, m.event.configId, m.env);
    var registered := Register(s, conn, user, m.event.at, m.event.configId, m.env).0;
    assert Listed(registered.store, user, c) <==> c == conn || Listed(s.store, user, c);
    assert Goes(registered.store, user, true, m.env.regetInfo) <==> m.env.regetInfo;
    items := TwoFrames(registered, user, true, m.env, c);
  }

  // ---- The other handlers ----

  // A removal writes to nobody, closes the connection, takes it off the list, and deletes the record with the last
  // one when the Del succeeds.
  lemma RemovalWrites(s: State, m: Move)
    requires Sound(s) && Enabled(s, m) && (m.event.ReadFails? || m.event.PingFails?)
    ensures var after, conn, user := Step(s, m), m.event.conn, s.owner[m.event.conn];
      after.store.frames == s.store.frames && after.store.broken == s.store.broken + {conn} &&
      after.docs == s.docs && after.configs == s.configs && after.owner == s.owner &&
      after.loops == s.loops - (if m.event.ReadFails? then {conn} else {}) &&
      after.pings == s.pings - (if m.event.PingFails? then {conn} else {}) &&
      (forall u, c :: Listed(after.store, u, c) <==> Listed(s.store, u, c) && c != conn) &&
      (forall u :: u in s.store.lists && u !in after.store.lists <==>
         u == user && u in s.store.lists && forall c :: Listed(s.store, u, c) ==> c == conn) &&
      after.store.redis == (if m.env.delInfo && user in s.store.lists && user !in after.store.lists
                            then s.store.redis - {user} else s.store.redis)
  {
    var conn, user := m.event.conn, s.owner[m.event.conn];
    RemoveEffect(s.store, s.owner, user, conn, m.env.delInfo);
    if user in s.store.lists {
      WithoutMembers(s.store.lists[user], conn);
      var rest := Without(s.store.lists[user], conn);
      assert rest != [] ==> Listed(s.store, user, rest[0]) && rest[0] != conn;
    }
  }

  lemma IgnoredDoesNothing(s: State, m: Move)
    requires Enabled(s, m) && m.event.Ignored?
    ensures Step(s, m) == s
  {
  }

  // ---- The documents ----

  // A mark sets the read status and the time of what it selects, cut to milliseconds, and nothing else anywhere.
  lemma MarkWrites(docs: Notifications, caller: string, scope: Scope, at: Time, id: ObjectId)
    requires id in docs
    ensures var after, n := Apply(docs, Mark(caller, scope, at)), docs[id];
      id in after &&
      after[id].appId == n.appId && after[id].userId == n.userId && after[id].groupKey == n.groupKey &&
      after[id].message == n.message && after[id].status == n.status && after[id].createdAt == n.createdAt &&
      (MarkSelects(caller, scope, id, n) ==>
        after[id].readStatus && after[id].updatedAt % 1_000_000 == 0 &&
        after[id].updatedAt <= at < after[id].updatedAt + 1_000_000) &&
      (!MarkSelects(caller, scope, id, n) ==> after[id] == n)
  {
  }

  // Only marks, deletes and new notifications touch the documents, and only when the write succeeds.
  lemma DocumentsFollow(s: State, m: Move)
    requires Enabled(s, m)
    ensures m.event.MarkRead? && m.env.write ==>
      Step(s, m).docs == Apply(s.docs, Mark(s.owner[m.event.conn], m.event.scope, m.event.at))
    ensures m.event.DeleteScope? && m.env.write ==>
      Step(s, m).docs == Apply(s.docs, Delete(s.owner[m.event.conn], m.event.scope))
    ensures !m.env.write || !(m.event.MarkRead? || m.event.DeleteScope? || m.event.Publish?) ==>
      Step(s, m).docs == s.docs
  {
    if m.event.Connect? {
      RegisterWrites(s, m);
    } else if IsListing(m.event) {
      ListingDocuments(s, m);
    }
  }

  lemma ListingDocuments(s: State, m: Move)
    requires Enabled(s, m) && IsListing(m.event)
    ensures Step(s, m).docs == DocsAtQuery(s, m.event, m.env)
  {
  }

  // ---- Closed connections ----

  // Closed and off every list
  ghost predicate Gone(s: State, c: Conn) {
    c in s.owner && c in s.store.broken && forall u :: !Listed(s.store, u, c)
  }

  lemma StepKeepsGone(s: State, m: Move, c: Conn)
    requires Sound(s) && Gone(s, c) && Enabled(s, m)
    ensures Gone(Step(s, m), c) && Received(Step(s, m).store.frames, c) == Received(s.store.frames, c)
  {
    if m.event.Connect? {
      ConnectKeepsGone(s, m, c);
    } else if m.event.SetNotificationStatus? {
      ToggleKeepsGone(s, m, c);
    } else if IsListing(m.event) {
      var items := SendAllExactly(s.(docs := DocsAtQuery(s, m.event, m.env)), UserOf(s, m.event), m.env, c);
    } else if m.event.Publish? {
      PublishKeepsGone(s, m, c);
    } else if !m.event.Ignored? {
      RemovalWrites(s, m);
    }
  }

  lemma ToggleKeepsGone(s: State, m: Move, c: Conn)
    requires Sound(s) && Gone(s, c) && Enabled(s, m) && m.event.SetNotificationStatus?
    ensures Gone(Step(s, m), c) && Received(Step(s, m).store.frames, c) == Received(s.store.frames, c)
  {
    var user, enable := s.owner[m.event.conn], m.event.enable;
    var toggled := Toggled(s, user, enable, m.env);
    assert forall u :: Listed(toggled.store, u, c) <==> Listed(s.store, u, c);
    var items := TwoFrames(toggled, user, enable, m.env, c);
    SendsWriteNothing(toggled, user, enable, m.env);
    assert Step(s, m) == ListThenConfig(toggled, user, enable, m.env);
  }

  lemma PublishKeepsGone(s: State, m: Move, c: Conn)
    requires Sound(s) && Gone(s, c) && Enabled(s, m) && m.event.Publish?
    ensures Gone(Step(s, m), c) && Received(Step(s, m).store.frames, c) == Received(s.store.frames, c)
  {
    var user, frame := m.event.draft.userId, NewNotification(ToWire(m.event.id, Drafted(m.event.draft)));
    SendExactly(s.store, s.owner, user, frame, false, m.env.getInfo, m.env.failing, c);
    assert !Takes(s.store, user, m.env.failing, c);
  }

  lemma ConnectKeepsGone(s: State, m: Move, c: Conn)
    requires Sound(s) && Gone(s, c) && Enabled(s, m) && m.event.Connect?
    ensures Gone(Step(s, m), c) && Received(Step(s, m).store.frames, c) == Received(s.store.frames, c)
  {
    var conn, user := m.event.conn, m.event.user;
    RegisterWrites(s, m);
    RegisterKeeps(s, conn, user, m.event.at, m.event.configId, m.env);
    var registered := Register(s, conn, user, m.event.at, m.event.configId, m.env).0;
    assert forall u :: Listed(registered.store, u, c) ==> Listed(s.store, u, c);
    var items := TwoFrames(registered, user, true, m.env, c);
  }

  // Once its read has failed, or its ping, a connection is never listed again and never receives anything.
  lemma {:induction false} GoneForGood(states: seq<State>, moves: seq<Move>, j: nat, i: nat)
    requires IsRun(states, moves) && j < i < |states| && (moves[j].event.ReadFails? || moves[j].event.PingFails?)
    ensures Gone(states[i], moves[j].event.conn)
    ensures Received(states[i].store.frames, moves[j].event.conn) ==
            Received(states[j].store.frames, moves[j].event.conn)
    decreases i
  {
    RunIsSound(states, moves, i - 1);
    assert Happens(states, moves, i - 1);
    if i == j + 1 {
      RemovalWrites(states[j], moves[j]);
    } else {
      GoneForGood(states, moves, j, i - 1);
      StepKeepsGone(states[i - 1], moves[i - 1], moves[j].event.conn);
    }
  }
}
