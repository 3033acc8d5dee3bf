/** The notifications collection as a value, and the repository operations as functions on it. */
module NotificationModel {
  import opened Wrappers
  import opened KeyNormaliser
  import opened ObjectIds

  // Nanoseconds, as in Go's time.Time
  type Time = int

  datatype Notification = Notification(
    appId: string,
    userId: string,
    groupKey: string,
    message: string,
    status: string,
    readStatus: bool,
    createdAt: Time,
    updatedAt: Time)

  // The collection, keyed by _id; no order of documents is assumed.
  type Notifications = map<ObjectId, Notification>

  // A BSON date keeps whole milliseconds.
  function DbTime(t: Time): Time {
    t / 1_000_000 * 1_000_000
  }

  function Stored(n: Notification): Notification {
    n.(createdAt := DbTime(n.createdAt), updatedAt := DbTime(n.updatedAt))
  }

  // What a mark or delete event names, with the keys as the client sent them
  datatype Scope = Everything | App(appKey: string) | Group(appKey: string, groupKey: string) | One(idText: string)

  // The filters of the four mark operations. By id, the caller is not part of the filter.
  predicate MarkSelects(caller: string, scope: Scope, id: ObjectId, n: Notification) {
    match scope
    case Everything => n.userId == caller
    case App(appKey) => n.userId == caller && n.appId == Normalise(appKey)
    case Group(appKey, groupKey) =>
      n.userId == caller && n.appId == Normalise(appKey) && n.groupKey == Normalise(groupKey)
    case One(idText) => ParseClientId(idText) == Ok(id)
  }

  // The filters of the four delete operations
  predicate DeleteSelects(caller: string, scope: Scope, id: ObjectId, n: Notification) {
    n.userId == caller && MarkSelects(caller, scope, id, n)
  }

  datatype Operation =
    | Insert(id: ObjectId, notification: Notification)
    | Mark(caller: string, scope: Scope, at: Time)
    | Delete(caller: string, scope: Scope)

  // The unread notification that a scope names by id
  function NamedUnread(docs: Notifications, scope: Scope): Option<ObjectId> {
    if scope.One? && ParseClientId(scope.idText).Ok? then
      var id := ParseClientId(scope.idText).value;
      if id in docs && !docs[id].readStatus then Some(id) else None
    else None
  }

  function MarkedRead(n: Notification, at: Time): Notification {
    n.(readStatus := true, updatedAt := DbTime(at))
  }

  function Apply(docs: Notifications, op: Operation): Notifications {
    match op
    case Insert(id, n) => if id in docs then docs else docs[id := Stored(n)]
    case Mark(caller, scope, at) =>
      map id | id in docs :: if MarkSelects(caller, scope, id, docs[id]) then MarkedRead(docs[id], at) else docs[id]
    case Delete(caller, scope) =>
      map id | id in docs && !DeleteSelects(caller, scope, id, docs[id]) :: docs[id]
  }

  function Run(docs: Notifications, ops: seq<Operation>): Notifications {
    if ops == [] then docs else Apply(Run(docs, ops[..|ops| - 1]), ops[|ops| - 1])
  }

  // What the unread query selects for a user
  function Unread(docs: Notifications, user: string): Notifications {
    map id | id in docs && docs[id].userId == user && !docs[id].readStatus :: docs[id]
  }

  // An order in which the cursor of the unread query may yield the documents
  ghost predicate IsCursorOrder(order: seq<ObjectId>, docs: Notifications, user: string) {
    (forall i, j :: 0 <= i < j < |order| ==> order[i] != order[j]) &&
    (forall id :: id in order <==> id in Unread(docs, user))
  }

  lemma {:induction false} SomeCursorOrder(docs: Notifications, user: string, ids: set<ObjectId>)
    returns (order: seq<ObjectId>)
    requires ids <= Unread(docs, user).Keys
    ensures forall i, j :: 0 <= i < j < |order| ==> order[i] != order[j]
    ensures forall id :: id in order <==> id in ids
  {
    if ids == {} {
      order := [];
    } else {
      var id :| id in ids;
      var rest := SomeCursorOrder(docs, user, ids - {id});
      order := rest + [id];
    }
  }

  // The JSON form of a notification; the id is hex text.
  datatype WireNotification = WireNotification(
    id: string,
    appId: string,
    userId: string,
    groupKey: string,
    message: string,
    readStatus: bool,
    status: string,
    createdAt: Time,
    updatedAt: Time)

  function ToWire(id: ObjectId, n: Notification): WireNotification {
    WireNotification(Hex(id), n.appId, n.userId, n.groupKey, n.message, n.readStatus, n.status, n.createdAt,
        n.updatedAt)
  }

  // The item says of the document what it holds, field by field.
  predicate Shows(item: WireNotification, id: ObjectId, n: Notification) {
    item.id == Hex(id) && item.appId == n.appId && item.userId == n.userId && item.groupKey == n.groupKey &&
    item.message == n.message && item.readStatus == n.readStatus && item.status == n.status &&
    item.createdAt == n.createdAt && item.updatedAt == n.updatedAt
  }

  // The list the service returns for a cursor order
  function Listing(docs: Notifications, order: seq<ObjectId>): (items: seq<WireNotification>)
    requires forall id :: id in order ==> id in docs
    ensures |items| == |order|
    ensures forall i :: 0 <= i < |items| ==> items[i] == ToWire(order[i], docs[order[i]])
  {
    seq(|order|, i requires 0 <= i < |order| => ToWire(order[i], docs[order[i]]))
  }
}
