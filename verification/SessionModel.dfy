/** The server as a state machine whose steps are whole handler runs: handlers/websocket.go, the create-and-push
    step of controller/notification_controller.go, and the one of event-hub/consumer/consumer.go. */
module SessionModel {
  import opened Wrappers
  import opened ObjectIds
  import opened NotificationModel
  import opened ConfigurationRepository
  import opened ClientModel

  datatype State = State(
    docs: Notifications,
    configs: Configurations,
    store: Clients,
    owner: map<Conn, string>,   // every upgraded connection, with the user its token names
    loops: set<Conn>,           // connections whose read loop is running
    pings: set<Conn>)           // connections whose ping goroutine is running

  datatype Event =
    | Connect(conn: Conn, user: string, at: Time, configId: ObjectId)
    | ReloadNotifications(conn: Conn)
    | MarkRead(conn: Conn, scope: Scope, at: Time)
    | DeleteScope(conn: Conn, scope: Scope)
    | SetNotificationStatus(conn: Conn, enable: bool)
    | Ignored(conn: Conn)       // an unparsable, empty, control or unknown message
    | Publish(id: ObjectId, draft: Draft)
    | ReadFails(conn: Conn)     // ReadMessage returns an error: the client disconnected
    | PingFails(conn: Conn)     // the periodic ping could not be written

  // What the controller and the event hub consumer fill in
  datatype Draft = Draft(userId: string, appId: string, groupKey: string, message: string, status: string,
                         createdAt: Time, updatedAt: Time)

  function Drafted(d: Draft): Notification {
    Notification(d.appId, d.userId, d.groupKey, d.message, d.status, false, d.createdAt, d.updatedAt)
  }

  // The stored document carries the fields of the draft, unread, with its times cut to whole milliseconds.
  predicate Records(n: Notification, d: Draft) {
    n.appId == d.appId && n.userId == d.userId && n.groupKey == d.groupKey && n.message == d.message &&
    n.status == d.status && !n.readStatus &&
    n.createdAt <= d.createdAt < n.createdAt + 1_000_000 && n.createdAt % 1_000_000 == 0 &&
    n.updatedAt <= d.updatedAt < n.updatedAt + 1_000_000 && n.updatedAt % 1_000_000 == 0
  }

  // The environment's choices during one step: which calls of Mongo and Redis succeed, in which order the
  // cursor yields, and on which sockets the writes of the first and the second send fail
  datatype Env = Env(
    findConfig: bool,
    insertConfig: bool,
    updateConfig: bool,
    refindConfig: bool,
    write: bool,
    find: bool,
    setInfo: bool,
    delInfo: bool,
    getInfo: bool,
    regetInfo: bool,
    order: seq<ObjectId>,
    failing: set<Conn>,
    refailing: set<Conn>)

  datatype Move = Move(event: Event, env: Env)

  predicate FaultFree(env: Env) {
    env.findConfig && env.insertConfig && env.updateConfig && env.refindConfig && env.write && env.find &&
    env.setInfo && env.delInfo && env.getInfo && env.regetInfo
  }

  // ---- When a step can happen ----

  // The user whose handler runs
  function UserOf(s: State, e: Event): string
    requires !e.Connect? && !e.Publish? ==> e.conn in s.owner
  {
    match e
    case Connect(_, user, _, _) => user
    case Publish(_, draft) => draft.userId
    case _ => s.owner[e.conn]
  }

  predicate Possible(s: State, e: Event) {
    match e
    case Connect(conn, _, _, _) => conn !in s.owner
    case Publish(_, _) => true
    case PingFails(conn) => conn in s.pings && conn in s.owner
    case _ => e.conn in s.loops && e.conn in s.owner
  }

  // The collection when the handler gets to its unread query
  function DocsAtQuery(s: State, e: Event, env: Env): Notifications
    requires Possible(s, e)
  {
    match e
    case MarkRead(_, scope, at) => if env.write then Apply(s.docs, Mark(UserOf(s, e), scope, at)) else s.docs
    case DeleteScope(_, scope) => if env.write then Apply(s.docs, Delete(UserOf(s, e), scope)) else s.docs
    case Publish(id, draft) => if env.write then Apply(s.docs, Insert(id, Drafted(draft))) else s.docs
    case _ => s.docs
  }

  // The order is one the unread query could yield; steps without a query do not look at it.
  ghost predicate Enabled(s: State, m: Move) {
    Possible(s, m.event) && IsCursorOrder(m.env.order, DocsAtQuery(s, m.event, m.env), UserOf(s, m.event))
  }

  // ---- The pieces of the handlers ----

  // sendAllNotificationsToClient without bypass
  function SendAllNotifications(s: State, user: string, env: Env): State
    requires forall id :: id in env.order ==> id in s.docs
  {
    if !env.find then s
    else s.(store := SendToUser(s.store, user, ListNotifications(Listing(s.docs, env.order)), false, env.getInfo,
        env.failing))
  }

  // sendEmptyNotificationListToClient with bypass
  function SendEmptyList(s: State, user: string, env: Env): State {
    s.(store := SendToUser(s.store, user, ListNotifications([]), true, env.getInfo, env.failing))
  }

  // sendConfigurationsToClient
  function SendConfigurations(s: State, user: string, env: Env): State {
    var config := FindOne(s.configs, user);
    if !env.refindConfig || config.None? then s
    else
      var payload := ListConfigurations(Hex(config.value.id), user, config.value.enableNotifications);
      s.(store := SendToUser(s.store, user, payload, true, env.regetInfo, env.refailing))
  }

  // conn.Close(): writes fail from here on
  function Closed(s: State, conn: Conn): State {
    s.(store := s.store.(broken := s.store.broken + {conn}))
  }

  // A new connection until its user's preference is known: the ping goroutine runs, the document exists.
  function Begun(s: State, conn: Conn, user: string, configId: ObjectId, env: Env): (State, Result<bool>) {
    var found := if env.findConfig then FindOne(s.configs, user) else None;
    var s := s.(owner := s.owner[conn := user], pings := s.pings + {conn});
    if found.Some? then (s, Ok(found.value.enableNotifications))
    else if env.insertConfig then (s.(configs := s.configs + [Configuration(configId, user, true)]), Ok(true))
    else (s, Err(DatabaseFault))
  }

  // StoreClient, and conn.Close() when it fails
  function StoredOrClosed(s: State, conn: Conn, info: ClientInfo, env: Env): State {
    var stored := s.(store := StoreClient(s.store, info, conn, env.setInfo));
    if env.setInfo then stored else Closed(stored, conn)
  }

  // From the ping goroutine's start to StoreClient; ok is false when the handler gives up and closes.
  function Register(s: State, conn: Conn, user: string, at: Time, configId: ObjectId, env: Env): (State, bool) {
    var (begun, preference) := Begun(s, conn, user, configId, env);
    if preference.Err? then (Closed(begun, conn), false)
    else (StoredOrClosed(begun, conn, ClientInfo(user, at, preference.value), env), env.setInfo)
  }

  function Toggled(s: State, user: string, enable: bool, env: Env): State {
    s.(configs := if env.updateConfig then UpdateOne(s.configs, user, enable) else s.configs,
       store := UpdateClientInfo(s.store, ClientInfo(user, ZERO_TIME, enable), env.setInfo))
  }

  // The handler of a new connection, up to the start of its read loop
  function Connected(s: State, conn: Conn, user: string, at: Time, configId: ObjectId, env: Env): State
    requires forall id :: id in env.order ==> id in s.docs
  {
    var (registered, ok) := Register(s, conn, user, at, configId, env);
    if !ok then registered
    else
      var greeted := SendConfigurations(SendAllNotifications(registered, user, env), user, env);
      greeted.(loops := greeted.loops + {conn})
  }

  // setNotificationStatusAction
  function StatusSet(s: State, user: string, enable: bool, env: Env): State
    requires forall id :: id in env.order ==> id in s.docs
  {
    var toggled := Toggled(s, user, enable, env);
    var listed := if enable then SendAllNotifications(toggled, user, env) else SendEmptyList(toggled, user, env);
    SendConfigurations(listed, user, env)
  }

  function Pushed(s: State, id: ObjectId, draft: Draft, env: Env): State {
    if !env.write || id in s.docs then s
    else
      s.(docs := Apply(s.docs, Insert(id, Drafted(draft))),
         store := SendToUser(s.store, draft.userId, NewNotification(ToWire(id, Drafted(draft))), false,
             env.getInfo, env.failing))
  }

  ghost function Step(s: State, m: Move): State
    requires Enabled(s, m)
  {
    var env, user := m.env, UserOf(s, m.event);
    match m.event
    case Connect(conn, _, at, configId) => Connected(s, conn, user, at, configId, env)
    case ReloadNotifications(_) => SendAllNotifications(s, user, env)
    case MarkRead(_, _, _) => SendAllNotifications(s.(docs := DocsAtQuery(s, m.event, env)), user, env)
    case DeleteScope(_, _) => SendAllNotifications(s.(docs := DocsAtQuery(s, m.event, env)), user, env)
    case SetNotificationStatus(_, enable) => StatusSet(s, user, enable, env)
    case Ignored(_) => s
    case Publish(id, draft) => Pushed(s, id, draft, env)
    case ReadFails(conn) =>
      var removed := s.(store := RemoveConnection(s.store, user, conn, env.delInfo));
      Closed(removed, conn).(loops := s.loops - {conn})
    case PingFails(conn) =>
      var failed := Closed(s, conn);
      failed.(store := RemoveConnection(failed.store, user, conn, env.delInfo), pings := s.pings - {conn})
  }

  // ---- Runs ----

  // A fresh process with an empty Redis; the database may hold documents from before.
  ghost predicate Start(s: State) {
    s.store == Clients(map[], map[], map[], {}) && s.owner == map[] && s.loops == {} && s.pings == {} &&
    forall user :: CountOf(s.configs, user) <= 1
  }

  ghost predicate Happens(states: seq<State>, moves: seq<Move>, i: nat)
    requires i < |moves| && i + 1 < |states|
  {
    Enabled(states[i], moves[i]) && states[i + 1] == Step(states[i], moves[i])
  }

  ghost predicate IsRun(states: seq<State>, moves: seq<Move>) {
    |states| == |moves| + 1 && Start(states[0]) &&
    forall i :: 0 <= i < |moves| ==> Happens(states, moves, i)
  }

  // ---- What a client makes of the frames ----

  // Everything but the timestamps: the pushed ones are finer than the ones the database keeps.
  function Core(item: WireNotification): WireNotification {
    item.(createdAt := 0, updatedAt := 0)
  }

  function Cores(items: seq<WireNotification>): set<WireNotification> {
    set i | 0 <= i < |items| :: Core(items[i])
  }

  // listNotifications replaces what the client holds, newNotification adds to it.
  function Absorb(held: set<WireNotification>, frame: Frame): set<WireNotification> {
    match frame
    case NewNotification(item) => held + {Core(item)}
    case ListNotifications(items) => Cores(items)
    case ListConfigurations(_, _, _) => held
  }

  function Replica(received: seq<Frame>): set<WireNotification> {
    if received == [] then {} else Absorb(Replica(received[..|received| - 1]), received[|received| - 1])
  }

  function UnreadCores(docs: Notifications, user: string): set<WireNotification> {
    set id | id in docs && docs[id].userId == user && !docs[id].readStatus :: Core(ToWire(id, docs[id]))
  }
}
