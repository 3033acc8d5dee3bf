/** repository/notification/notification_repository_impl.go and the list conversion of
    services/notification/notification_service_impl.go; dbOk is whether Mongo answers the call. */
module NotificationRepository {
  import opened Wrappers
  import opened KeyNormaliser
  import opened ObjectIds
  import opened NotificationModel

  class NotificationRepository {
    // the "notifications" collection
    var docs: Notifications

    constructor ()
      ensures docs == map[]
    {
      docs := map[];
    }

    // The unread documents, in the order the cursor happens to yield them
    method FindAll(userId: string, dbOk: bool)
      returns (r: Result<seq<(ObjectId, Notification)>>, ghost order: seq<ObjectId>)
      ensures r.Ok? <==> dbOk
      ensures r.Ok? ==> IsCursorOrder(order, docs, userId) && |r.value| == |order|
      ensures r.Ok? ==> forall i :: 0 <= i < |order| ==> order[i] in docs && r.value[i] == (order[i], docs[order[i]])
      ensures r.Ok? ==> forall i, j :: 0 <= i < j < |r.value| ==> r.value[i].0 != r.value[j].0
      ensures r.Ok? ==> forall id ::
        id in order <==> id in docs && docs[id].userId == userId && !docs[id].readStatus
    {
      order := [];
      if !dbOk {
        return Err(DatabaseFault), order;
      }
      var cursor := set id | id in docs && docs[id].userId == userId && !docs[id].readStatus;
      var notifications := [];
      while cursor != {}
        invariant |notifications| == |order|
        invariant forall i :: 0 <= i < |order| ==> order[i] in docs && notifications[i] == (order[i], docs[order[i]])
        invariant forall i, j :: 0 <= i < j < |order| ==> order[i] != order[j]
        invariant forall id :: id in Unread(docs, userId) <==> id in order || id in cursor
        invariant forall id :: id in cursor ==> id in docs && id !in order
      {
        var id :| id in cursor;
        notifications := notifications + [(id, docs[id])];
        order := order + [id];
        cursor := cursor - {id};
      }
      r := Ok(notifications);
    }

    // InsertOne; newId is the id the driver generates.
    method Create(notification: Notification, newId: ObjectId, dbOk: bool) returns (r: Result<ObjectId>)
      modifies this
      ensures docs == if dbOk then Apply(old(docs), Insert(newId, notification)) else old(docs)
      ensures r == if dbOk && newId !in old(docs) then Ok(newId) else Err(DatabaseFault)
    {
      if !dbOk || newId in docs {
        return Err(DatabaseFault);
      }
      docs := docs[newId := Stored(notification)];
      r := Ok(newId);
    }

    method MarkAsRead(clientId: string, at: Time, dbOk: bool) returns (r: Result<()>)
      modifies this
      ensures docs == if dbOk then Apply(old(docs), Mark(clientId, Everything, at)) else old(docs)
      ensures r.Ok? <==> dbOk
    {
      if !dbOk {
        return Err(DatabaseFault);
      }
      docs := map id | id in docs :: if docs[id].userId == clientId then MarkedRead(docs[id], at) else docs[id];
      r := Ok(());
    }

    method MarkAppAsRead(clientId: string, appId: string, at: Time, dbOk: bool) returns (r: Result<()>)
      modifies this
      ensures docs == if dbOk then Apply(old(docs), Mark(clientId, App(appId), at)) else old(docs)
      ensures r.Ok? <==> dbOk
    {
      var app := TrimSpace(appId);
      app := Trim(app, QUOTES);
      if !dbOk {
        return Err(DatabaseFault);
      }
      docs := map id | id in docs ::
        if docs[id].userId == clientId && docs[id].appId == app then MarkedRead(docs[id], at) else docs[id];
      r := Ok(());
    }

    method MarkGroupAsRead(clientId: string, appId: string, groupKey: string, at: Time, dbOk: bool)
      returns (r: Result<()>)
      modifies this
      ensures docs == if dbOk then Apply(old(docs), Mark(clientId, Group(appId, groupKey), at)) else old(docs)
      ensures r.Ok? <==> dbOk
    {
      var app := TrimSpace(appId);
      var group := TrimSpace(groupKey);
      app := Trim(app, QUOTES);
      group := Trim(group, QUOTES);
      if !dbOk {
        return Err(DatabaseFault);
      }
      docs := map id | id in docs ::
        if docs[id].userId == clientId && docs[id].appId == app && docs[id].groupKey == group
        then MarkedRead(docs[id], at) else docs[id];
      r := Ok(());
    }

    // UpdateByID: clientId does not take part in the filter.
    method MarkNotificationAsRead(clientId: string, notificationId: string, at: Time, dbOk: bool)
      returns (r: Result<()>)
      modifies this
      ensures docs == if dbOk then Apply(old(docs), Mark(clientId, One(notificationId), at)) else old(docs)
      ensures r == if ParseClientId(notificationId).Err? then Err(InvalidId)
                   else if dbOk then Ok(()) else Err(DatabaseFault)
    {
      var text := TrimSpace(notificationId);
      text := Trim(text, QUOTES);
      var objID := FromHex(text);
      if objID.Err? {
        assert Apply(docs, Mark(clientId, One(notificationId), at)) == docs;
        return Err(objID.error);
      }
      if !dbOk {
        return Err(DatabaseFault);
      }
      if objID.value in docs {
        docs := docs[objID.value := MarkedRead(docs[objID.value], at)];
      }
      r := Ok(());
    }

    method DeleteNotifications(clientId: string, dbOk: bool) returns (r: Result<()>)
      modifies this
      ensures docs == if dbOk then Apply(old(docs), Delete(clientId, Everything)) else old(docs)
      ensures r.Ok? <==> dbOk
    {
      if !dbOk {
        return Err(DatabaseFault);
      }
      docs := map id | id in docs && docs[id].userId != clientId :: docs[id];
      r := Ok(());
    }

    method DeleteAppNotifications(clientId: string, appId: string, dbOk: bool) returns (r: Result<()>)
      modifies this
      ensures docs == if dbOk then Apply(old(docs), Delete(clientId, App(appId))) else old(docs)
      ensures r.Ok? <==> dbOk
    {
      var app := TrimSpace(appId);
      app := Trim(app, QUOTES);
      if !dbOk {
        return Err(DatabaseFault);
      }
      docs := map id | id in docs && !(docs[id].userId == clientId && docs[id].appId == app) :: docs[id];
      r := Ok(());
    }

    method DeleteGroupNotifications(clientId: string, appId: string, groupKey: string, dbOk: bool)
      returns (r: Result<()>)
      modifies this
      ensures docs == if dbOk then Apply(old(docs), Delete(clientId, Group(appId, groupKey))) else old(docs)
      ensures r.Ok? <==> dbOk
    {
      var app := TrimSpace(appId);
      var group := TrimSpace(groupKey);
      app := Trim(app, QUOTES);
      group := Trim(group, QUOTES);
      if !dbOk {
        return Err(DatabaseFault);
      }
      docs := map id | id in docs &&
        !(docs[id].userId == clientId && docs[id].appId == app && docs[id].groupKey == group) :: docs[id];
      r := Ok(());
    }

    // DeleteOne with the user and the id in the filter
    method DeleteNotification(clientId: string, notificationId: string, dbOk: bool) returns (r: Result<()>)
      modifies this
      ensures docs == if dbOk then Apply(old(docs), Delete(clientId, One(notificationId))) else old(docs)
      ensures r == if ParseClientId(notificationId).Err? then Err(InvalidId)
                   else if dbOk then Ok(()) else Err(DatabaseFault)
    {
      var text := TrimSpace(notificationId);
      text := Trim(text, QUOTES);
      var objID := FromHex(text);
      if objID.Err? {
        assert Apply(docs, Delete(clientId, One(notificationId))) == docs;
        return Err(objID.error);
      }
      if !dbOk {
        return Err(DatabaseFault);
      }
      if objID.value in docs && docs[objID.value].userId == clientId {
        docs := docs - {objID.value};
      }
      r := Ok(());
    }
  }

  class NotificationService {
    const repository: NotificationRepository

    constructor (repository: NotificationRepository)
      ensures this.repository == repository
    {
      this.repository := repository;
    }

    // Stored notifications become wire notifications one by one; nothing found is an empty list, not an error.
    method FindAll(userId: string, dbOk: bool) returns (r: Result<seq<WireNotification>>, ghost order: seq<ObjectId>)
      ensures r.Ok? <==> dbOk
      ensures r.Ok? ==> IsCursorOrder(order, repository.docs, userId)
      ensures r.Ok? ==> r.value == Listing(repository.docs, order)
      ensures r.Ok? ==> |r.value| == |order| && forall i :: 0 <= i < |order| ==>
        order[i] in repository.docs &&
        r.value[i].id == Hex(order[i]) &&
        r.value[i].appId == repository.docs[order[i]].appId &&
        r.value[i].userId == repository.docs[order[i]].userId &&
        r.value[i].groupKey == repository.docs[order[i]].groupKey &&
        r.value[i].message == repository.docs[order[i]].message &&
        r.value[i].readStatus == repository.docs[order[i]].readStatus &&
        r.value[i].status == repository.docs[order[i]].status &&
        r.value[i].createdAt == repository.docs[order[i]].createdAt &&
        r.value[i].updatedAt == repository.docs[order[i]].updatedAt
    {
      var result;
      result, order := repository.FindAll(userId, dbOk);
      if result.Err? {
        return Err(result.error), order;
      }
      var notifications := [];
      for i := 0 to |result.value|
        invariant |notifications| == i
        invariant forall j :: 0 <= j < i ==> notifications[j] == ToWire(order[j], repository.docs[order[j]])
      {
        var value := result.value[i];
        notifications := notifications + [ToWire(value.0, value.1)];
      }
      r := Ok(notifications);
    }
  }
}
