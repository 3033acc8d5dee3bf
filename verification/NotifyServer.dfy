/** The handlers as methods over the client store and the two repositories; every one of them takes the whole
    server from one state of the session model to the next. Which calls fail is read from env; the order in
    which the unread query yields comes back as a ghost. */
module NotifyServer {
  import opened Wrappers
  import opened ObjectIds
  import opened NotificationModel
  import opened ClientModel
  import opened SessionModel
  import CS = ClientStore
  import NR = NotificationRepository
  import CR = ConfigurationRepository

  // A message from a client after JSON decoding
  datatype Message =
    | MarkAsRead
    | MarkAppAsRead(appId: string)
    | MarkGroupAsRead(appId: string, groupKey: string)
    | MarkNotificationAsRead(id: string)
    | DeleteNotifications
    | DeleteAppNotifications(appId: string)
    | DeleteGroupNotifications(appId: string, groupKey: string)
    | DeleteNotification(id: string)
    | Reload
    | SetStatus(enable: bool)
    | Unusable    // empty, a control message, not JSON, or an unknown event

  function EventOf(conn: Conn, message: Message, at: Time): Event {
    match message
    case MarkAsRead => MarkRead(conn, Everything, at)
    case MarkAppAsRead(appId) => MarkRead(conn, App(appId), at)
    case MarkGroupAsRead(appId, groupKey) => MarkRead(conn, Group(appId, groupKey), at)
    case MarkNotificationAsRead(id) => MarkRead(conn, One(id), at)
    case DeleteNotifications => DeleteScope(conn, Everything)
    case DeleteAppNotifications(appId) => DeleteScope(conn, App(appId))
    case DeleteGroupNotifications(appId, groupKey) => DeleteScope(conn, Group(appId, groupKey))
    case DeleteNotification(id) => DeleteScope(conn, One(id))
    case Reload => ReloadNotifications(conn)
    case SetStatus(enable) => SetNotificationStatus(conn, enable)
    case Unusable => Ignored(conn)
  }

  predicate IsMark(message: Message) {
    message.MarkAsRead? || message.MarkAppAsRead? || message.MarkGroupAsRead? || message.MarkNotificationAsRead?
  }

  predicate IsDelete(message: Message) {
    message.DeleteNotifications? || message.DeleteAppNotifications? || message.DeleteGroupNotifications? ||
    message.DeleteNotification?
  }

  // The server moved by one step of the session model.
  ghost predicate Moved(before: State, after: State, event: Event, env: Env, order: seq<ObjectId>) {
    Enabled(before, Move(event, env.(order := order))) && after == Step(before, Move(event, env.(order := order)))
  }

  // sendAllNotificationsToClient, with the order its query yielded
  ghost predicate ListSent(before: State, after: State, user: string, env: Env, order: seq<ObjectId>) {
    IsCursorOrder(order, before.docs, user) && after == SendAllNotifications(before, user, env.(order := order))
  }

  // A mark or delete handler: a failed repository call is logged, and the list is sent all the same.
  ghost predicate Acted(before: State, after: State, op: Operation, env: Env, order: seq<ObjectId>)
    requires !op.Insert?
  {
    ListSent(before.(docs := if env.write then Apply(before.docs, op) else before.docs), after, op.caller, env, order)
  }

  // What the switch makes of a message
  ghost predicate Answered(before: State, after: State, user: string, message: Message, at: Time, env: Env,
      order: seq<ObjectId>)
  {
    match message
    case MarkAsRead => Acted(before, after, Mark(user, Everything, at), env, order)
    case MarkAppAsRead(appId) => Acted(before, after, Mark(user, App(appId), at), env, order)
    case MarkGroupAsRead(appId, groupKey) => Acted(before, after, Mark(user, Group(appId, groupKey), at), env, order)
    case MarkNotificationAsRead(id) => Acted(before, after, Mark(user, One(id), at), env, order)
    case DeleteNotifications => Acted(before, after, Delete(user, Everything), env, order)
    case DeleteAppNotifications(appId) => Acted(before, after, Delete(user, App(appId)), env, order)
    case DeleteGroupNotifications(appId, groupKey) =>
      Acted(before, after, Delete(user, Group(appId, groupKey)), env, order)
    case DeleteNotification(id) => Acted(before, after, Delete(user, One(id)), env, order)
    case Reload => ListSent(before, after, user, env, order)
    case SetStatus(enable) =>
      IsCursorOrder(order, before.docs, user) && after == StatusSet(before, user, enable, env.(order := order))
    case Unusable => IsCursorOrder(order, before.docs, user) && after == before
  }

  lemma MessageMoves(s: State, after: State, conn: Conn, message: Message, at: Time, env: Env, order: seq<ObjectId>)
    requires conn in s.loops && conn in s.owner && Answered(s, after, s.owner[conn], message, at, env, order)
    ensures Moved(s, after, EventOf(conn, message, at), env, order)
  {
  }

  lemma {:induction false} ConnectMoves(s: State, conn: Conn, user: string, at: Time, configId: ObjectId, env: Env,
      order: seq<ObjectId>)
    requires conn !in s.owner && IsCursorOrder(order, s.docs, user)
    ensures var (registered, ok) := Register(s, conn, user, at, configId, env);
      registered.docs == s.docs &&
      var listed := SendAllNotifications(registered, user, env.(order := order));
      var greeted := SendConfigurations(listed, user, env);
      Moved(s, if ok then greeted.(loops := greeted.loops + {conn}) else registered,
            Connect(conn, user, at, configId), env, order)
  {
    assert Register(s, conn, user, at, configId, env) == Register(s, conn, user, at, configId, env.(order := order));
  }

  lemma DisconnectMoves(s: State, conn: Conn, env: Env, order: seq<ObjectId>)
    requires conn in s.loops && conn in s.owner && IsCursorOrder(order, s.docs, s.owner[conn])
    ensures var removed := s.(store := RemoveConnection(s.store, s.owner[conn], conn, env.delInfo));
      Moved(s, Closed(removed, conn).(loops := s.loops - {conn}), ReadFails(conn), env, order)
  {
  }

  lemma PingMoves(s: State, conn: Conn, env: Env, order: seq<ObjectId>)
    requires conn in s.pings && conn in s.owner && IsCursorOrder(order, s.docs, s.owner[conn])
    ensures var failed := Closed(s, conn);
      Moved(s, failed.(store := RemoveConnection(failed.store, s.owner[conn], conn, env.delInfo),
          pings := s.pings - {conn}),
            PingFails(conn), env, order)
  {
  }

  lemma PublishMoves(s: State, id: ObjectId, draft: Draft, env: Env, order: seq<ObjectId>)
    requires IsCursorOrder(order, if env.write then Apply(s.docs, Insert(id, Drafted(draft))) else s.docs, draft.userId)
    ensures Moved(s, Pushed(s, id, draft, env), Publish(id, draft), env, order)
  {
  }

  class NotifyServer {
    const store: CS.ClientStore
    const notifications: NR.NotificationRepository
    const service: NR.NotificationService
    const configurations: CR.ConfigurationRepository
    var owner: map<Conn, string>
    var loops: set<Conn>
    var pings: set<Conn>

    ghost predicate Valid()
      reads store, store.Owners.Keys
    {
      store.Valid() && service.repository == notifications
    }

    ghost function Model(): State
      reads this, store, notifications, configurations
    {
      State(notifications.docs, configurations.configs, store.Model(), owner, loops, pings)
    }

    constructor ()
      ensures Valid() && Start(Model())
      ensures fresh(store) && fresh(notifications) && fresh(configurations)
    {
      var repository := new NR.NotificationRepository();
      store := new CS.ClientStore();
      notifications := repository;
      service := new NR.NotificationService(repository);
      configurations := new CR.ConfigurationRepository();
      owner, loops, pings := map[], {}, {};
    }

    method SendAllNotificationsToClient(clientId: string, env: Env) returns (ghost order: seq<ObjectId>)
      requires Valid()
      modifies store
      ensures Valid() && fresh(store.Owners.Keys - old(store.Owners.Keys))
      ensures ListSent(old(Model()), Model(), clientId, env, order)
      ensures !env.find ==> Model() == old(Model())
    {
      var items;
      items, order := service.FindAll(clientId, env.find);
      if items.Err? {
        order := SomeCursorOrder(notifications.docs, clientId, Unread(notifications.docs, clientId).Keys);
        return;
      }
      var sent := store.SendToUser(clientId, ListNotifications(items.value), false, env.getInfo, env.failing);
    }

    method SendEmptyNotificationListToClient(clientId: string, env: Env)
      requires Valid()
      modifies store
      ensures Valid() && fresh(store.Owners.Keys - old(store.Owners.Keys))
      ensures Model() == SendEmptyList(old(Model()), clientId, env)
    {
      var sent := store.SendToUser(clientId, ListNotifications([]), true, env.getInfo, env.failing);
    }

    method SendConfigurationsToClient(clientId: string, env: Env)
      requires Valid()
      modifies store
      ensures Valid() && fresh(store.Owners.Keys - old(store.Owners.Keys))
      ensures Model() == SendConfigurations(old(Model()), clientId, env)
      ensures !env.refindConfig || CR.FindOne(configurations.configs, clientId).None? ==> Model() == old(Model())
    {
      var config := configurations.FindByAppAndUser(clientId, env.refindConfig);
      if config.Ok? {
        var payload := ListConfigurations(Hex(config.value.id), clientId, config.value.enableNotifications);
        var sent := store.SendToUser(clientId, payload, true, env.regetInfo, env.refailing);
      }
    }

    // conn.Close()
    method CloseConnection(conn: Conn)
      requires Valid()
      modifies store`broken
      ensures Valid() && Model() == Closed(old(Model()), conn)
    {
      store.broken := store.broken + {conn};
    }

    // The user's flag from the configuration document, which is created when the lookup fails in any way
    method LoadPreference(conn: Conn, userId: string, configId: ObjectId, env: Env) returns (r: Result<bool>)
      requires Valid()
      modifies this, configurations
      ensures Valid() && (Model(), r) == Begun(old(Model()), conn, userId, configId, env)
    {
      owner, pings := owner[conn := userId], pings + {conn};
      var isEnableNotification := true;
      var configuration := configurations.FindByAppAndUser(userId, env.findConfig);
      if configuration.Err? {
        var created := configurations.Create(userId, isEnableNotification, configId, env.insertConfig);
        if created.Err? {
          return Err(DatabaseFault);
        }
      } else {
        isEnableNotification := configuration.value.enableNotifications;
      }
      r := Ok(isEnableNotification);
    }

    method StoreOrClose(conn: Conn, info: ClientInfo, env: Env) returns (ok: bool)
      requires Valid()
      modifies store, store.Owners.Keys
      ensures Valid() && fresh(store.Owners.Keys - old(store.Owners.Keys))
      ensures ok == env.setInfo && Model() == StoredOrClosed(old(Model()), conn, info, env)
    {
      var stored := store.StoreClient(info, conn, env.setInfo);
      ok := stored.Ok?;
      if !ok {
        CloseConnection(conn);
      }
    }

    // From the start of the ping goroutine to StoreClient
    method RegisterConnection(conn: Conn, userId: string, at: Time, configId: ObjectId, env: Env) returns (ok: bool)
      requires Valid()
      modifies this, store, store.Owners.Keys, configurations
      ensures Valid() && fresh(store.Owners.Keys - old(store.Owners.Keys))
      ensures (Model(), ok) == Register(old(Model()), conn, userId, at, configId, env)
    {
      var preference := LoadPreference(conn, userId, configId, env);
      ok := preference.Ok?;
      if ok {
        ok := StoreOrClose(conn, ClientInfo(userId, at, preference.value), env);
      } else {
        CloseConnection(conn);
      }
    }

    // The two frames of a new connection
    method Greet(userId: string, env: Env) returns (ghost order: seq<ObjectId>)
      requires Valid()
      modifies store
      ensures Valid() && fresh(store.Owners.Keys - old(store.Owners.Keys))
      ensures IsCursorOrder(order, notifications.docs, userId)
      ensures Model() ==
        SendConfigurations(SendAllNotifications(old(Model()), userId, env.(order := order)), userId, env)
    {
      order := SendAllNotificationsToClient(userId, env);
      SendConfigurationsToClient(userId, env);
    }

    // A new connection whose token names userId
    method HandleConnection(conn: Conn, userId: string, at: Time, configId: ObjectId, env: Env)
      returns (ghost order: seq<ObjectId>)
      requires Valid() && conn !in owner
      modifies this, store, store.Owners.Keys, configurations
      ensures Valid() && fresh(store.Owners.Keys - old(store.Owners.Keys))
      ensures Moved(old(Model()), Model(), Connect(conn, userId, at, configId), env, order)
    {
      ghost var s := Model();
      order := SomeCursorOrder(notifications.docs, userId, Unread(notifications.docs, userId).Keys);
      var ok := RegisterConnection(conn, userId, at, configId, env);
      if ok {
        order := Greet(userId, env);
        loops := loops + {conn};
      }
      ConnectMoves(s, conn, userId, at, configId, env, order);
    }

    method RemoveFromStore(conn: Conn, userId: string, env: Env)
      requires Valid()
      modifies store, store.Owners.Keys
      ensures Valid() && fresh(store.Owners.Keys - old(store.Owners.Keys))
      ensures Model() == old(Model()).(store := RemoveConnection(old(Model()).store, userId, conn, env.delInfo))
    {
      store.RemoveConnection(userId, conn, env.delInfo);
    }

    method RemoveBroken(conn: Conn, userId: string, env: Env)
      requires Valid()
      modifies store, store.Owners.Keys
      ensures Valid() && fresh(store.Owners.Keys - old(store.Owners.Keys))
      ensures var failed := Closed(old(Model()), conn);
        Model() == failed.(store := RemoveConnection(failed.store, userId, conn, env.delInfo))
    {
      CloseConnection(conn);
      RemoveFromStore(conn, userId, env);
    }

    // ReadMessage failed
    method HandleDisconnect(conn: Conn, env: Env) returns (ghost order: seq<ObjectId>)
      requires Valid() && conn in loops && conn in owner
      modifies this, store, store.Owners.Keys
      ensures Valid() && fresh(store.Owners.Keys - old(store.Owners.Keys))
      ensures Moved(old(Model()), Model(), ReadFails(conn), env, order)
    {
      ghost var s := Model();
      order := SomeCursorOrder(notifications.docs, owner[conn], Unread(notifications.docs, owner[conn]).Keys);
      RemoveFromStore(conn, owner[conn], env);
      CloseConnection(conn);
      loops := loops - {conn};
      DisconnectMoves(s, conn, env, order);
    }

    // The ping could not be written
    method HandlePingFailure(conn: Conn, env: Env) returns (ghost order: seq<ObjectId>)
      requires Valid() && conn in pings && conn in owner
      modifies this, store, store.Owners.Keys
      ensures Valid() && fresh(store.Owners.Keys - old(store.Owners.Keys))
      ensures Moved(old(Model()), Model(), PingFails(conn), env, order)
    {
      ghost var s := Model();
      order := SomeCursorOrder(notifications.docs, owner[conn], Unread(notifications.docs, owner[conn]).Keys);
      RemoveBroken(conn, owner[conn], env);
      pings := pings - {conn};
      PingMoves(s, conn, env, order);
    }

    method MarkAsReadAction(clientId: string, at: Time, env: Env) returns (ghost order: seq<ObjectId>)
      requires Valid()
      modifies store, notifications
      ensures Valid() && fresh(store.Owners.Keys - old(store.Owners.Keys))
      ensures Acted(old(Model()), Model(), Mark(clientId, Everything, at), env, order)
    {
      var done := notifications.MarkAsRead(clientId, at, env.write);
      order := SendAllNotificationsToClient(clientId, env);
    }

    method MarkAppAsReadAction(clientId: string, appId: string, at: Time, env: Env) returns (ghost order: seq<ObjectId>)
      requires Valid()
      modifies store, notifications
      ensures Valid() && fresh(store.Owners.Keys - old(store.Owners.Keys))
      ensures Acted(old(Model()), Model(), Mark(clientId, App(appId), at), env, order)
    {
      var done := notifications.MarkAppAsRead(clientId, appId, at, env.write);
      order := SendAllNotificationsToClient(clientId, env);
    }

    method MarkGroupAsReadAction(clientId: string, appId: string, groupKey: string, at: Time, env: Env)
      returns (ghost order: seq<ObjectId>)
      requires Valid()
      modifies store, notifications
      ensures Valid() && fresh(store.Owners.Keys - old(store.Owners.Keys))
      ensures Acted(old(Model()), Model(), Mark(clientId, Group(appId, groupKey), at), env, order)
    {
      var done := notifications.MarkGroupAsRead(clientId, appId, groupKey, at, env.write);
      order := SendAllNotificationsToClient(clientId, env);
    }

    method MarkNotificationAsReadAction(clientId: string, id: string, at: Time, env: Env)
      returns (ghost order: seq<ObjectId>)
      requires Valid()
      modifies store, notifications
      ensures Valid() && fresh(store.Owners.Keys - old(store.Owners.Keys))
      ensures Acted(old(Model()), Model(), Mark(clientId, One(id), at), env, order)
    {
      var done := notifications.MarkNotificationAsRead(clientId, id, at, env.write);
      order := SendAllNotificationsToClient(clientId, env);
    }

    method DeleteNotificationsAction(clientId: string, env: Env) returns (ghost order: seq<ObjectId>)
      requires Valid()
      modifies store, notifications
      ensures Valid() && fresh(store.Owners.Keys - old(store.Owners.Keys))
      ensures Acted(old(Model()), Model(), Delete(clientId, Everything), env, order)
    {
      var done := notifications.DeleteNotifications(clientId, env.write);
      order := SendAllNotificationsToClient(clientId, env);
    }

    method DeleteAppNotificationsAction(clientId: string, appId: string, env: Env) returns (ghost order: seq<ObjectId>)
      requires Valid()
      modifies store, notifications
      ensures Valid() && fresh(store.Owners.Keys - old(store.Owners.Keys))
      ensures Acted(old(Model()), Model(), Delete(clientId, App(appId)), env, order)
    {
      var done := notifications.DeleteAppNotifications(clientId, appId, env.write);
      order := SendAllNotificationsToClient(clientId, env);
    }

    method DeleteGroupNotificationsAction(clientId: string, appId: string, groupKey: string, env: Env)
      returns (ghost order: seq<ObjectId>)
      requires Valid()
      modifies store, notifications
      ensures Valid() && fresh(store.Owners.Keys - old(store.Owners.Keys))
      ensures Acted(old(Model()), Model(), Delete(clientId, Group(appId, groupKey)), env, order)
    {
      var done := notifications.DeleteGroupNotifications(clientId, appId, groupKey, env.write);
      order := SendAllNotificationsToClient(clientId, env);
    }

    method DeleteNotificationAction(clientId: string, id: string, env: Env) returns (ghost order: seq<ObjectId>)
      requires Valid()
      modifies store, notifications
      ensures Valid() && fresh(store.Owners.Keys - old(store.Owners.Keys))
      ensures Acted(old(Model()), Model(), Delete(clientId, One(id)), env, order)
    {
      var done := notifications.DeleteNotification(clientId, id, env.write);
      order := SendAllNotificationsToClient(clientId, env);
    }

    method RecordStatus(clientId: string, enable: bool, env: Env)
      requires Valid()
      modifies store`redis, configurations
      ensures Valid() && Model() == Toggled(old(Model()), clientId, enable, env)
    {
      var updated := configurations.Update(clientId, enable, env.updateConfig);
      var stored := store.UpdateClientInfo(ClientInfo(clientId, ZERO_TIME, enable), env.setInfo);
    }

    method SendCurrentList(clientId: string, enable: bool, env: Env) returns (ghost order: seq<ObjectId>)
      requires Valid()
      modifies store
      ensures Valid() && fresh(store.Owners.Keys - old(store.Owners.Keys))
      ensures IsCursorOrder(order, notifications.docs, clientId)
      ensures Model() == if enable then SendAllNotifications(old(Model()), clientId, env.(order := order))
                         else SendEmptyList(old(Model()), clientId, env)
    {
      if enable {
        order := SendAllNotificationsToClient(clientId, env);
      } else {
        order := SomeCursorOrder(notifications.docs, clientId, Unread(notifications.docs, clientId).Keys);
        SendEmptyNotificationListToClient(clientId, env);
      }
    }

    method ReplyToStatus(clientId: string, enable: bool, env: Env) returns (ghost order: seq<ObjectId>)
      requires Valid()
      modifies store
      ensures Valid() && fresh(store.Owners.Keys - old(store.Owners.Keys))
      ensures IsCursorOrder(order, notifications.docs, clientId)
      ensures var listed := if enable then SendAllNotifications(old(Model()), clientId, env.(order := order))
                            else SendEmptyList(old(Model()), clientId, env);
        Model() == SendConfigurations(listed, clientId, env)
    {
      order := SendCurrentList(clientId, enable, env);
      SendConfigurationsToClient(clientId, env);
    }

    method SetNotificationStatusAction(clientId: string, enable: bool, env: Env) returns (ghost order: seq<ObjectId>)
      requires Valid()
      modifies store, configurations
      ensures Valid() && fresh(store.Owners.Keys - old(store.Owners.Keys))
      ensures IsCursorOrder(order, notifications.docs, clientId)
      ensures Model() == StatusSet(old(Model()), clientId, enable, env.(order := order))
    {
      RecordStatus(clientId, enable, env);
      order := ReplyToStatus(clientId, enable, env);
    }

    // One turn of the read loop: the event switch
    method HandleMessage(conn: Conn, message: Message, at: Time, env: Env) returns (ghost order: seq<ObjectId>)
      requires Valid() && conn in loops && conn in owner
      modifies store, notifications, configurations
      ensures Valid() && fresh(store.Owners.Keys - old(store.Owners.Keys))
      ensures Moved(old(Model()), Model(), EventOf(conn, message, at), env, order)
      ensures message.MarkAsRead? ==> Acted(old(Model()), Model(), Mark(owner[conn], Everything, at), env, order)
      ensures message.MarkAppAsRead? ==>
        Acted(old(Model()), Model(), Mark(owner[conn], App(message.appId), at), env, order)
      ensures message.MarkGroupAsRead? ==>
        Acted(old(Model()), Model(), Mark(owner[conn], Group(message.appId, message.groupKey), at), env, order)
      ensures message.MarkNotificationAsRead? ==>
        Acted(old(Model()), Model(), Mark(owner[conn], One(message.id), at), env, order)
      ensures message.DeleteNotifications? ==> Acted(old(Model()), Model(), Delete(owner[conn], Everything), env, order)
      ensures message.DeleteAppNotifications? ==>
        Acted(old(Model()), Model(), Delete(owner[conn], App(message.appId)), env, order)
      ensures message.DeleteGroupNotifications? ==>
        Acted(old(Model()), Model(), Delete(owner[conn], Group(message.appId, message.groupKey)), env, order)
      ensures message.DeleteNotification? ==>
        Acted(old(Model()), Model(), Delete(owner[conn], One(message.id)), env, order)
      ensures message.Reload? ==> ListSent(old(Model()), Model(), owner[conn], env, order)
      ensures message.SetStatus? ==> IsCursorOrder(order, old(notifications.docs), owner[conn])
      ensures message.SetStatus? ==>
        Model() == StatusSet(old(Model()), owner[conn], message.enable, env.(order := order))
      ensures message.Unusable? ==> Model() == old(Model())
    {
      ghost var s := Model();
      order := HandleEvent(owner[conn], message, at, env);
      MessageMoves(s, Model(), conn, message, at, env, order);
    }

    method HandleEvent(clientId: string, message: Message, at: Time, env: Env) returns (ghost order: seq<ObjectId>)
      requires Valid()
      modifies store, notifications, configurations
      ensures Valid() && fresh(store.Owners.Keys - old(store.Owners.Keys))
      ensures Answered(old(Model()), Model(), clientId, message, at, env, order)
    {
      if IsMark(message) {
        order := HandleMark(clientId, message, at, env);
      } else if IsDelete(message) {
        order := HandleDelete(clientId, message, at, env);
      } else {
        order := HandleOther(clientId, message, at, env);
      }
    }

    // The cases of the switch, by kind
    method HandleMark(clientId: string, message: Message, at: Time, env: Env) returns (ghost order: seq<ObjectId>)
      requires Valid() && IsMark(message)
      modifies store, notifications
      ensures Valid() && fresh(store.Owners.Keys - old(store.Owners.Keys))
      ensures Answered(old(Model()), Model(), clientId, message, at, env, order)
    {
      match message {
        case MarkAsRead => order := MarkAsReadAction(clientId, at, env);
        case MarkAppAsRead(appId) => order := MarkAppAsReadAction(clientId, appId, at, env);
        case MarkGroupAsRead(appId, groupKey) => order := MarkGroupAsReadAction(clientId, appId, groupKey, at, env);
        case MarkNotificationAsRead(id) => order := MarkNotificationAsReadAction(clientId, id, at, env);
      }
    }

    method HandleDelete(clientId: string, message: Message, ghost at: Time, env: Env)
      returns (ghost order: seq<ObjectId>)
      requires Valid() && IsDelete(message)
      modifies store, notifications
      ensures Valid() && fresh(store.Owners.Keys - old(store.Owners.Keys))
      ensures Answered(old(Model()), Model(), clientId, message, at, env, order)
    {
      match message {
        case DeleteNotifications => order := DeleteNotificationsAction(clientId, env);
        case DeleteAppNotifications(appId) => order := DeleteAppNotificationsAction(clientId, appId, env);
        case DeleteGroupNotifications(appId, groupKey) =>
          order := DeleteGroupNotificationsAction(clientId, appId, groupKey, env);
        case DeleteNotification(id) => order := DeleteNotificationAction(clientId, id, env);
      }
    }

    method HandleOther(clientId: string, message: Message, ghost at: Time, env: Env)
      returns (ghost order: seq<ObjectId>)
      requires Valid() && !IsMark(message) && !IsDelete(message)
      modifies store, configurations
      ensures Valid() && fresh(store.Owners.Keys - old(store.Owners.Keys))
      ensures Answered(old(Model()), Model(), clientId, message, at, env, order)
    {
      match message {
        case Unusable =>
          order := SomeCursorOrder(notifications.docs, clientId, Unread(notifications.docs, clientId).Keys);
        case Reload => order := SendAllNotificationsToClient(clientId, env);
        case SetStatus(enable) => order := SetNotificationStatusAction(clientId, enable, env);
      }
    }

    // The event hub callback after decoding: create, then push; every failure is swallowed.
    method ConsumeEvent(draft: Draft, newId: ObjectId, env: Env)
      returns (ghost order: seq<ObjectId>, id: Result<ObjectId>)
      requires Valid()
      modifies store, notifications
      ensures Valid() && fresh(store.Owners.Keys - old(store.Owners.Keys))
      ensures Moved(old(Model()), Model(), Publish(newId, draft), env, order)
      ensures id == if env.write && newId !in old(notifications.docs) then Ok(newId) else Err(DatabaseFault)
      ensures id.Err? ==> Model() == old(Model())
      ensures id.Ok? ==> newId in notifications.docs && Records(notifications.docs[newId], draft)
      ensures id.Ok? ==>
        notifications.docs == old(notifications.docs)[newId := Notification(draft.appId, draft.userId, draft.groupKey,
          draft.message, draft.status, false, DbTime(draft.createdAt), DbTime(draft.updatedAt))]
    {
      ghost var s := Model();
      var m := Drafted(draft);
      ghost var after := if env.write then Apply(notifications.docs, Insert(newId, m)) else notifications.docs;
      order := SomeCursorOrder(after, draft.userId, Unread(after, draft.userId).Keys);
      id := notifications.Create(m, newId, env.write);
      if id.Ok? {
        // the pushed readStatus is the zero value
        var payload := WireNotification(Hex(id.value), draft.appId, draft.userId, draft.groupKey, draft.message, false,
                                        draft.status, m.createdAt, m.updatedAt);
        var sent := store.SendToUser(draft.userId, NewNotification(payload), false, env.getInfo, env.failing);
      }
      PublishMoves(s, newId, draft, env, order);
    }

    // The REST endpoint after the token check: the same step, behind the validation of the required fields.
    method CreateNotification(draft: Draft, newId: ObjectId, env: Env)
      returns (ghost order: seq<ObjectId>, r: Result<ObjectId>)
      requires Valid()
      modifies store, notifications
      ensures Valid() && fresh(store.Owners.Keys - old(store.Owners.Keys))
      ensures r == Err(BadRequest) <==>
        draft.userId == "" || draft.appId == "" || draft.groupKey == "" || draft.message == "" || draft.status == ""
      ensures r == Err(BadRequest) ==> Model() == old(Model())
      ensures r != Err(BadRequest) ==> Moved(old(Model()), Model(), Publish(newId, draft), env, order)
      ensures r != Err(BadRequest) ==>
        r == if env.write && newId !in old(notifications.docs) then Ok(newId) else Err(DatabaseFault)
      ensures r.Err? ==> Model() == old(Model())
      ensures r.Ok? ==> newId in notifications.docs && Records(notifications.docs[newId], draft)
      ensures r.Ok? ==> notifications.docs == old(notifications.docs)[newId := notifications.docs[newId]]
    {
      order := [];
      if draft.userId == "" || draft.appId == "" {
        return order, Err(BadRequest);
      }
      if draft.groupKey == "" || draft.message == "" || draft.status == "" {
        return order, Err(BadRequest);
      }
      order, r := ConsumeEvent(draft, newId, env);
    }
  }
}
