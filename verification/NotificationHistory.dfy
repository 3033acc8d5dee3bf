/** Traces of repository operations: what the unread query shows after any history. */
module NotificationHistory {
  import opened Wrappers
  import opened KeyNormaliser
  import opened ObjectIds
  import opened NotificationModel

  // No id is issued twice.
  ghost predicate FreshIds(ops: seq<Operation>) {
    forall i, j :: 0 <= i < j < |ops| && ops[i].Insert? && ops[j].Insert? ==> ops[i].id != ops[j].id
  }

  // The filter of a mark or delete matches the notification as it was created.
  predicate Hits(op: Operation, id: ObjectId, n: Notification) {
    match op
    case Insert(_, _) => false
    case Mark(caller, scope, _) => MarkSelects(caller, scope, id, n)
    case Delete(caller, scope) => DeleteSelects(caller, scope, id, n)
  }

  // Equal up to what a mark writes
  predicate SameContent(a: Notification, b: Notification) {
    a.(readStatus := false, updatedAt := 0) == b.(readStatus := false, updatedAt := 0)
  }

  function After(ops: seq<Operation>, k: nat): Notifications
    requires k <= |ops|
  {
    Run(map[], ops[..k])
  }

  lemma AfterStep(ops: seq<Operation>, k: nat)
    requires k < |ops|
    ensures After(ops, k + 1) == Apply(After(ops, k), ops[k])
  {
    assert ops[..k + 1][..k] == ops[..k];
  }

  // ---- History characterisation ----

  // Only an insert brings an id in.
  lemma {:induction false} OnlyInsertsAdd(ops: seq<Operation>, k: nat, id: ObjectId)
    requires k <= |ops|
    requires forall i :: 0 <= i < k && ops[i].Insert? ==> ops[i].id != id
    ensures id !in After(ops, k)
  {
    if k == 0 {
    } else {
      OnlyInsertsAdd(ops, k - 1, id);
      AfterStep(ops, k - 1);
    }
  }

  // The life of the notification created at position k, seen at a later position m
  lemma {:induction false} LifeOf(ops: seq<Operation>, k: nat, m: nat)
    requires FreshIds(ops)
    requires k < m <= |ops| && ops[k].Insert?
    ensures ops[k].id in After(ops, m) ==>
              SameContent(After(ops, m)[ops[k].id], Stored(ops[k].notification))
    ensures ops[k].id in After(ops, m) && !After(ops, m)[ops[k].id].readStatus ==>
              After(ops, m)[ops[k].id] == Stored(ops[k].notification)
    ensures ops[k].id in After(ops, m) && !After(ops, m)[ops[k].id].readStatus <==>
              !ops[k].notification.readStatus &&
              forall j :: k < j < m ==> !Hits(ops[j], ops[k].id, ops[k].notification)
    decreases m
  {
    AfterStep(ops, m - 1);
    if m == k + 1 {
      OnlyInsertsAdd(ops, k, ops[k].id);
    } else {
      LifeOf(ops, k, m - 1);
      LifeStep(After(ops, m - 1), ops[m - 1], ops[k].id, ops[k].notification);
      assert (forall j :: k < j < m ==> !Hits(ops[j], ops[k].id, ops[k].notification)) <==>
        (forall j :: k < j < m - 1 ==> !Hits(ops[j], ops[k].id, ops[k].notification)) &&
        !Hits(ops[m - 1], ops[k].id, ops[k].notification);
    }
  }

  lemma LifeStep(docs: Notifications, op: Operation, id: ObjectId, n: Notification)
    requires op.Insert? ==> op.id != id
    requires id in docs ==> SameContent(docs[id], Stored(n))
    ensures id in Apply(docs, op) ==> id in docs && SameContent(Apply(docs, op)[id], docs[id])
    ensures id in Apply(docs, op) && !Apply(docs, op)[id].readStatus ==> Apply(docs, op)[id] == docs[id]
    ensures id in Apply(docs, op) && !Apply(docs, op)[id].readStatus <==>
            id in docs && !docs[id].readStatus && !Hits(op, id, n)
  {
  }

  // id was created for the user at position k and nothing after position k had a filter that matches it.
  ghost predicate CreatedAndUntouched(ops: seq<Operation>, k: nat, id: ObjectId, user: string)
    requires k < |ops|
  {
    ops[k].Insert? && ops[k].id == id && ops[k].notification.userId == user && !ops[k].notification.readStatus &&
    forall j :: k < j < |ops| ==> !Hits(ops[j], id, ops[k].notification)
  }

  // After any history, the unread query shows exactly the notifications created for the user
  // that no later mark or delete matched, as they were stored.
  lemma {:induction false} HistoryCharacterisation(ops: seq<Operation>, user: string, id: ObjectId)
    requires FreshIds(ops)
    ensures id in Unread(Run(map[], ops), user) <==>
              exists k :: 0 <= k < |ops| && CreatedAndUntouched(ops, k, id, user)
    ensures forall k :: 0 <= k < |ops| && CreatedAndUntouched(ops, k, id, user) ==>
              id in Run(map[], ops) && Run(map[], ops)[id] == Stored(ops[k].notification)
  {
    assert ops[..|ops|] == ops;
    forall k | 0 <= k < |ops| && CreatedAndUntouched(ops, k, id, user)
      ensures id in Unread(Run(map[], ops), user) && Run(map[], ops)[id] == Stored(ops[k].notification)
    {
      LifeOf(ops, k, |ops|);
    }
    if id in Unread(Run(map[], ops), user) {
      if forall i :: 0 <= i < |ops| && ops[i].Insert? ==> ops[i].id != id {
        OnlyInsertsAdd(ops, |ops|, id);
      } else {
        var k :| 0 <= k < |ops| && ops[k].Insert? && ops[k].id == id;
        LifeOf(ops, k, |ops|);
        assert CreatedAndUntouched(ops, k, id, user);
      }
    }
  }

  // A notification that is read, or gone after it was created, is never shown as unread again,
  // and a deleted one never comes back.
  lemma {:induction false} NeverReverts(ops: seq<Operation>, k: nat, i: nat, j: nat)
    requires FreshIds(ops)
    requires k < i <= j <= |ops| && ops[k].Insert?
    ensures ops[k].id !in After(ops, i) ==> ops[k].id !in After(ops, j)
    ensures ops[k].id in After(ops, i) && After(ops, i)[ops[k].id].readStatus ==>
              ops[k].id !in After(ops, j) || After(ops, j)[ops[k].id].readStatus
    decreases j
  {
    if i == j {
    } else {
      NeverReverts(ops, k, i, j - 1);
      AfterStep(ops, j - 1);
      StaysReadOrGone(After(ops, j - 1), ops[j - 1], ops[k].id);
    }
  }

  lemma StaysReadOrGone(docs: Notifications, op: Operation, id: ObjectId)
    requires op.Insert? ==> op.id != id
    ensures id !in docs ==> id !in Apply(docs, op)
    ensures id in docs && docs[id].readStatus ==> id !in Apply(docs, op) || Apply(docs, op)[id].readStatus
  {
  }

  // ---- Marks and deletes show the same unread notifications ----

  function AsDelete(op: Operation): Operation {
    if op.Mark? then Delete(op.caller, op.scope) else op
  }

  // The same history with every mark replaced by the delete of the same scope
  function AllDeletes(ops: seq<Operation>): (r: seq<Operation>)
    ensures |r| == |ops| && forall i :: 0 <= i < |ops| ==> r[i] == AsDelete(ops[i])
  {
    seq(|ops|, i requires 0 <= i < |ops| => AsDelete(ops[i]))
  }

  // A mark by id that names an unread notification of somebody else
  predicate MarksForeignUnread(docs: Notifications, op: Operation) {
    op.Mark? && NamedUnread(docs, op.scope).Some? && docs[NamedUnread(docs, op.scope).value].userId != op.caller
  }

  ghost predicate SameUnread(a: Notifications, b: Notifications) {
    forall user :: Unread(a, user) == Unread(b, user)
  }

  // One entry, as the unread queries see it
  function UnreadEntry(docs: Notifications, id: ObjectId): Option<Notification> {
    if id in docs && !docs[id].readStatus then Some(docs[id]) else None
  }

  lemma SameUnreadByEntry(a: Notifications, b: Notifications)
    ensures SameUnread(a, b) <==> forall id :: UnreadEntry(a, id) == UnreadEntry(b, id)
  {
    if SameUnread(a, b) {
      forall id
        ensures UnreadEntry(a, id) == UnreadEntry(b, id)
      {
        if id in a {
          assert Unread(a, a[id].userId) == Unread(b, a[id].userId);
          assert id in Unread(a, a[id].userId) <==> id in Unread(b, a[id].userId);
        }
        if id in b {
          assert Unread(a, b[id].userId) == Unread(b, b[id].userId);
          assert id in Unread(a, b[id].userId) <==> id in Unread(b, b[id].userId);
        }
      }
    }
    if forall id :: UnreadEntry(a, id) == UnreadEntry(b, id) {
      forall user
        ensures Unread(a, user) == Unread(b, user)
      {
        forall id
          ensures id in Unread(a, user) <==> id in Unread(b, user)
          ensures id in Unread(a, user) ==> a[id] == b[id]
        {
          assert UnreadEntry(a, id) == UnreadEntry(b, id);
        }
      }
    }
  }

  // One step of the two histories, for one notification
  lemma SimulationEntry(a: Notifications, b: Notifications, op: Operation, id: ObjectId)
    requires UnreadEntry(a, id) == UnreadEntry(b, id)
    requires op.Insert? ==> op.id !in a && op.id !in b
    ensures UnreadEntry(Apply(a, op), id) == UnreadEntry(Apply(b, AsDelete(op)), id) <==>
            !(MarksForeignUnread(a, op) && ParseClientId(op.scope.idText) == Ok(id))
  {
  }

  // One step of the two histories: they stay the same exactly when no foreign unread notification is marked.
  lemma SimulationStep(a: Notifications, b: Notifications, op: Operation)
    requires SameUnread(a, b)
    requires op.Insert? ==> op.id !in a && op.id !in b
    ensures SameUnread(Apply(a, op), Apply(b, AsDelete(op))) <==> !MarksForeignUnread(a, op)
  {
    SameUnreadByEntry(a, b);
    SameUnreadByEntry(Apply(a, op), Apply(b, AsDelete(op)));
    forall id
      ensures UnreadEntry(Apply(a, op), id) == UnreadEntry(Apply(b, AsDelete(op)), id) <==>
              !(MarksForeignUnread(a, op) && ParseClientId(op.scope.idText) == Ok(id))
    {
      assert UnreadEntry(a, id) == UnreadEntry(b, id);
      SimulationEntry(a, b, op, id);
    }
    if MarksForeignUnread(a, op) {
      assert ParseClientId(op.scope.idText) == Ok(ParseClientId(op.scope.idText).value);
    }
  }

  lemma BothFresh(ops: seq<Operation>, k: nat)
    requires FreshIds(ops) && k < |ops| && ops[k].Insert?
    ensures ops[k].id !in After(ops, k) && ops[k].id !in After(AllDeletes(ops), k)
  {
    OnlyInsertsAdd(ops, k, ops[k].id);
    OnlyInsertsAdd(AllDeletes(ops), k, ops[k].id);
  }

  lemma {:induction false} SimulationUpTo(ops: seq<Operation>, k: nat)
    requires FreshIds(ops) && k <= |ops|
    requires forall i :: 0 <= i < k ==> !MarksForeignUnread(After(ops, i), ops[i])
    ensures SameUnread(After(ops, k), After(AllDeletes(ops), k))
  {
    if k == 0 {
    } else {
      SimulationUpTo(ops, k - 1);
      SimulationAt(ops, k - 1);
    }
  }

  lemma SimulationAt(ops: seq<Operation>, k: nat)
    requires FreshIds(ops) && k < |ops|
    requires SameUnread(After(ops, k), After(AllDeletes(ops), k))
    ensures SameUnread(After(ops, k + 1), After(AllDeletes(ops), k + 1)) <==>
              !MarksForeignUnread(After(ops, k), ops[k])
  {
    AfterStep(ops, k);
    AfterStep(AllDeletes(ops), k);
    if ops[k].Insert? {
      BothFresh(ops, k);
    }
    SimulationStep(After(ops, k), After(AllDeletes(ops), k), ops[k]);
  }

  // No unread query, of any user after any prefix, can tell marking from deleting,
  // exactly when no mark by id in the history names an unread notification of another user.
  lemma {:induction false} MarkDeleteIndistinguishable(ops: seq<Operation>)
    requires FreshIds(ops)
    ensures (forall k :: 0 <= k <= |ops| ==> SameUnread(After(ops, k), After(AllDeletes(ops), k))) <==>
            (forall k :: 0 <= k < |ops| ==> !MarksForeignUnread(After(ops, k), ops[k]))
  {
    if forall k :: 0 <= k < |ops| ==> !MarksForeignUnread(After(ops, k), ops[k]) {
      forall k | 0 <= k <= |ops|
        ensures SameUnread(After(ops, k), After(AllDeletes(ops), k))
      {
        SimulationUpTo(ops, k);
      }
    }
    if forall k :: 0 <= k <= |ops| ==> SameUnread(After(ops, k), After(AllDeletes(ops), k)) {
      forall k | 0 <= k < |ops|
        ensures !MarksForeignUnread(After(ops, k), ops[k])
      {
        assert SameUnread(After(ops, k), After(AllDeletes(ops), k));
        assert SameUnread(After(ops, k + 1), After(AllDeletes(ops), k + 1));
        SimulationAt(ops, k);
      }
    }
  }

  // Two users, one notification, and a mark by id from the one who does not own it
  lemma ForeignMarkShows(id: ObjectId, n: Notification, stranger: string, at: Time)
    requires !n.readStatus && stranger != n.userId
    ensures var docs := map[id := n];
      var op := Mark(stranger, One(Hex(id)), at);
      id !in Unread(Apply(docs, op), n.userId) && id in Unread(Apply(docs, AsDelete(op)), n.userId)
  {
    HexRoundTrip(id);
    assert "" + ("" + Hex(id) + "") + "" == Hex(id);
    ClientIdRoundTrip(id, "", "", "", "");
  }

  // ---- Batches of marks and deletes ----

  ghost predicate IsBatch(ops: seq<Operation>) {
    forall op :: op in ops ==> !op.Insert?
  }

  ghost predicate Deleted(ops: seq<Operation>, id: ObjectId, n: Notification) {
    exists op :: op in ops && op.Delete? && Hits(op, id, n)
  }

  ghost predicate Marked(ops: seq<Operation>, id: ObjectId, n: Notification) {
    exists op :: op in ops && op.Mark? && Hits(op, id, n)
  }

  // Equal up to updatedAt
  ghost predicate SameRest(a: Notifications, b: Notifications) {
    a.Keys == b.Keys && forall id :: id in a ==> a[id].(updatedAt := 0) == b[id].(updatedAt := 0)
  }

  // What a batch does to a notification depends on the set of its operations, not on their order.
  lemma {:induction false} BatchEffect(docs: Notifications, ops: seq<Operation>, id: ObjectId)
    requires IsBatch(ops)
    ensures id in Run(docs, ops) <==> id in docs && !Deleted(ops, id, docs[id])
    ensures id in Run(docs, ops) ==>
              SameContent(Run(docs, ops)[id], docs[id]) &&
              (Run(docs, ops)[id].readStatus <==> docs[id].readStatus || Marked(ops, id, docs[id]))
    ensures id in Run(docs, ops) && !Marked(ops, id, docs[id]) ==> Run(docs, ops)[id] == docs[id]
  {
    if ops == [] {
    } else {
      var front, last := ops[..|ops| - 1], ops[|ops| - 1];
      assert forall op :: op in ops <==> op in front || op == last;
      assert !last.Insert?;
      BatchEffect(docs, front, id);
      if id in docs {
        var n := docs[id];
        assert Deleted(ops, id, n) <==> Deleted(front, id, n) || (last.Delete? && Hits(last, id, n));
        assert Marked(ops, id, n) <==> Marked(front, id, n) || (last.Mark? && Hits(last, id, n));
      }
    }
  }

  // Any reordering of a batch leaves the same notifications with the same read statuses.
  lemma {:induction false} PermutationInvariance(docs: Notifications, a: seq<Operation>, b: seq<Operation>)
    requires IsBatch(a) && multiset(a) == multiset(b)
    ensures SameRest(Run(docs, a), Run(docs, b))
  {
    assert forall op :: op in a <==> op in multiset(a);
    assert forall op :: op in b <==> op in multiset(b);
    SameSetSameEffect(docs, a, b);
  }

  lemma SameSetSameEffect(docs: Notifications, a: seq<Operation>, b: seq<Operation>)
    requires IsBatch(a) && forall op :: op in a <==> op in b
    ensures SameRest(Run(docs, a), Run(docs, b))
  {
    forall id
      ensures id in Run(docs, a) <==> id in Run(docs, b)
      ensures id in Run(docs, a) ==> Run(docs, a)[id].(updatedAt := 0) == Run(docs, b)[id].(updatedAt := 0)
    {
      BatchEffect(docs, a, id);
      BatchEffect(docs, b, id);
    }
    assert forall id :: id in Run(docs, a).Keys <==> id in Run(docs, a);
    assert forall id :: id in Run(docs, b).Keys <==> id in Run(docs, b);
  }

  // ---- Narrow scopes make up wide ones ----

  // Marks (or deletes) of groups of one app of the caller, in any order and number, that reach every group stored
  ghost predicate IsGroupSweep(docs: Notifications, caller: string, appKey: string, ops: seq<Operation>) {
    (forall op :: op in ops ==>
       (!op.Insert? && op.caller == caller && op.scope.Group? &&
        Normalise(op.scope.appKey) == Normalise(appKey))) &&
    forall id :: id in docs && docs[id].userId == caller && docs[id].appId == Normalise(appKey) ==>
      exists op :: op in ops && Normalise(op.scope.groupKey) == docs[id].groupKey
  }

  // The same with apps of one user
  ghost predicate IsAppSweep(docs: Notifications, caller: string, ops: seq<Operation>) {
    (forall op :: op in ops ==> !op.Insert? && op.caller == caller && op.scope.App?) &&
    forall id :: id in docs && docs[id].userId == caller ==>
      exists op :: op in ops && Normalise(op.scope.appKey) == docs[id].appId
  }

  ghost predicate AllMarks(ops: seq<Operation>) {
    forall op :: op in ops ==> op.Mark?
  }

  ghost predicate NoMarks(ops: seq<Operation>) {
    forall op :: op in ops ==> op.Delete?
  }

  // A set of narrow operations that hits exactly what one wide operation hits has the same effect.
  lemma SweepMarks(docs: Notifications, ops: seq<Operation>, wide: Operation)
    requires AllMarks(ops) && wide.Mark?
    requires forall id :: id in docs ==> (Marked(ops, id, docs[id]) <==> Hits(wide, id, docs[id]))
    ensures SameRest(Run(docs, ops), Apply(docs, wide))
  {
    forall id
      ensures id in Run(docs, ops) <==> id in Apply(docs, wide)
      ensures id in Run(docs, ops) ==> Run(docs, ops)[id].(updatedAt := 0) == Apply(docs, wide)[id].(updatedAt := 0)
    {
      BatchEffect(docs, ops, id);
    }
    assert forall id :: id in Run(docs, ops).Keys <==> id in Run(docs, ops);
  }

  lemma SweepDeletes(docs: Notifications, ops: seq<Operation>, wide: Operation)
    requires NoMarks(ops) && wide.Delete?
    requires forall id :: id in docs ==> (Deleted(ops, id, docs[id]) <==> Hits(wide, id, docs[id]))
    ensures Run(docs, ops) == Apply(docs, wide)
  {
    forall id
      ensures id in Run(docs, ops) <==> id in Apply(docs, wide)
      ensures id in Run(docs, ops) ==> Run(docs, ops)[id] == Apply(docs, wide)[id]
    {
      BatchEffect(docs, ops, id);
    }
  }

  lemma GroupsMakeUpApp(docs: Notifications, caller: string, appKey: string, ops: seq<Operation>, at: Time)
    requires IsGroupSweep(docs, caller, appKey, ops)
    ensures AllMarks(ops) ==> SameRest(Run(docs, ops), Apply(docs, Mark(caller, App(appKey), at)))
    ensures NoMarks(ops) ==> Run(docs, ops) == Apply(docs, Delete(caller, App(appKey)))
  {
    if AllMarks(ops) {
      forall id | id in docs
        ensures Marked(ops, id, docs[id]) <==> Hits(Mark(caller, App(appKey), at), id, docs[id])
      {
        if docs[id].userId == caller && docs[id].appId == Normalise(appKey) {
          var op :| op in ops && Normalise(op.scope.groupKey) == docs[id].groupKey;
          assert op.Mark? && Hits(op, id, docs[id]);
        }
      }
      SweepMarks(docs, ops, Mark(caller, App(appKey), at));
    }
    if NoMarks(ops) {
      forall id | id in docs
        ensures Deleted(ops, id, docs[id]) <==> Hits(Delete(caller, App(appKey)), id, docs[id])
      {
        if docs[id].userId == caller && docs[id].appId == Normalise(appKey) {
          var op :| op in ops && Normalise(op.scope.groupKey) == docs[id].groupKey;
          assert op.Delete? && Hits(op, id, docs[id]);
        }
      }
      SweepDeletes(docs, ops, Delete(caller, App(appKey)));
    }
  }

  lemma AppsMakeUpEverything(docs: Notifications, caller: string, ops: seq<Operation>, at: Time)
    requires IsAppSweep(docs, caller, ops)
    ensures AllMarks(ops) ==> SameRest(Run(docs, ops), Apply(docs, Mark(caller, Everything, at)))
    ensures NoMarks(ops) ==> Run(docs, ops) == Apply(docs, Delete(caller, Everything))
  {
    if AllMarks(ops) {
      forall id | id in docs
        ensures Marked(ops, id, docs[id]) <==> Hits(Mark(caller, Everything, at), id, docs[id])
      {
        if docs[id].userId == caller {
          var op :| op in ops && Normalise(op.scope.appKey) == docs[id].appId;
          assert op.Mark? && Hits(op, id, docs[id]);
        }
      }
      SweepMarks(docs, ops, Mark(caller, Everything, at));
    }
    if NoMarks(ops) {
      forall id | id in docs
        ensures Deleted(ops, id, docs[id]) <==> Hits(Delete(caller, Everything), id, docs[id])
      {
        if docs[id].userId == caller {
          var op :| op in ops && Normalise(op.scope.appKey) == docs[id].appId;
          assert op.Delete? && Hits(op, id, docs[id]);
        }
      }
      SweepDeletes(docs, ops, Delete(caller, Everything));
    }
  }

  // The narrow operation of one sweep: a mark, or a delete
  function Narrow(caller: string, scope: Scope, at: Time, deletes: bool): Operation {
    if deletes then Delete(caller, scope) else Mark(caller, scope, at)
  }

  // One operation per scope
  lemma {:induction false} NarrowOperations(caller: string, scopes: set<Scope>, at: Time, deletes: bool)
    returns (ops: seq<Operation>)
    ensures forall op :: op in ops ==> !op.Insert? && op == Narrow(caller, op.scope, at, deletes) && op.scope in scopes
    ensures forall scope :: scope in scopes ==> Narrow(caller, scope, at, deletes) in ops
  {
    if scopes == {} {
      ops := [];
    } else {
      var scope :| scope in scopes;
      var rest := NarrowOperations(caller, scopes - {scope}, at, deletes);
      ops := [Narrow(caller, scope, at, deletes)] + rest;
    }
  }

  ghost predicate InApp(docs: Notifications, caller: string, appKey: string, id: ObjectId) {
    id in docs && docs[id].userId == caller && docs[id].appId == Normalise(appKey)
  }

  lemma QuotedGroupSweep(docs: Notifications, caller: string, appKey: string, at: Time, deletes: bool)
    returns (ops: seq<Operation>)
    requires forall id :: InApp(docs, caller, appKey, id) ==> BareEnds(docs[id].groupKey, QUOTES)
    ensures IsGroupSweep(docs, caller, appKey, ops) && if deletes then NoMarks(ops) else AllMarks(ops)
  {
    var scopes := set id | id in docs && docs[id].userId == caller && docs[id].appId == Normalise(appKey) ::
      Group(appKey, Quoted(docs[id].groupKey));
    ops := NarrowOperations(caller, scopes, at, deletes);
    forall id | InApp(docs, caller, appKey, id)
      ensures exists op :: op in ops && Normalise(op.scope.groupKey) == docs[id].groupKey
    {
      var scope := Group(appKey, Quoted(docs[id].groupKey));
      assert scope in scopes;
      QuotedKeySelects(docs[id].groupKey);
      assert Narrow(caller, scope, at, deletes) in ops;
    }
  }

  // A sweep over the groups of an app can be sent, of marks as of deletes, exactly when no group key stored there
  // starts or ends with a quote.
  lemma GroupSweepExists(docs: Notifications, caller: string, appKey: string, at: Time)
    ensures (exists ops :: IsGroupSweep(docs, caller, appKey, ops) && AllMarks(ops)) <==>
            forall id :: InApp(docs, caller, appKey, id) ==> BareEnds(docs[id].groupKey, QUOTES)
    ensures (exists ops :: IsGroupSweep(docs, caller, appKey, ops) && NoMarks(ops)) <==>
            forall id :: InApp(docs, caller, appKey, id) ==> BareEnds(docs[id].groupKey, QUOTES)
  {
    forall ops, id | IsGroupSweep(docs, caller, appKey, ops) && InApp(docs, caller, appKey, id)
      ensures BareEnds(docs[id].groupKey, QUOTES)
    {
      ReachOfNormaliser(docs[id].groupKey);
    }
    if forall id :: InApp(docs, caller, appKey, id) ==> BareEnds(docs[id].groupKey, QUOTES) {
      var marks := QuotedGroupSweep(docs, caller, appKey, at, false);
      var deletes := QuotedGroupSweep(docs, caller, appKey, at, true);
    }
  }

  lemma QuotedAppSweep(docs: Notifications, caller: string, at: Time, deletes: bool) returns (ops: seq<Operation>)
    requires forall id :: id in docs && docs[id].userId == caller ==> BareEnds(docs[id].appId, QUOTES)
    ensures IsAppSweep(docs, caller, ops) && if deletes then NoMarks(ops) else AllMarks(ops)
  {
    var scopes := set id | id in docs && docs[id].userId == caller :: App(Quoted(docs[id].appId));
    ops := NarrowOperations(caller, scopes, at, deletes);
    forall id | id in docs && docs[id].userId == caller
      ensures exists op :: op in ops && Normalise(op.scope.appKey) == docs[id].appId
    {
      var scope := App(Quoted(docs[id].appId));
      assert scope in scopes;
      QuotedKeySelects(docs[id].appId);
      assert Narrow(caller, scope, at, deletes) in ops;
    }
  }

  // The same for the apps of a user
  lemma AppSweepExists(docs: Notifications, caller: string, at: Time)
    ensures (exists ops :: IsAppSweep(docs, caller, ops) && AllMarks(ops)) <==>
            forall id :: id in docs && docs[id].userId == caller ==> BareEnds(docs[id].appId, QUOTES)
    ensures (exists ops :: IsAppSweep(docs, caller, ops) && NoMarks(ops)) <==>
            forall id :: id in docs && docs[id].userId == caller ==> BareEnds(docs[id].appId, QUOTES)
  {
    forall ops, id | IsAppSweep(docs, caller, ops) && id in docs && docs[id].userId == caller
      ensures BareEnds(docs[id].appId, QUOTES)
    {
      ReachOfNormaliser(docs[id].appId);
    }
    if forall id :: id in docs && docs[id].userId == caller ==> BareEnds(docs[id].appId, QUOTES) {
      var marks := QuotedAppSweep(docs, caller, at, false);
      var deletes := QuotedAppSweep(docs, caller, at, true);
    }
  }

  // ---- Ids as clients see them ----

  // The id of a listed notification, sent back bare or padded, makes the owner's mark or delete affect it alone.
  lemma OwnerReachesExactlyOne(docs: Notifications, id: ObjectId, text: string, at: Time)
    requires id in docs && ParseClientId(text) == Ok(id)
    ensures Apply(docs, Mark(docs[id].userId, One(text), at)) == docs[id := MarkedRead(docs[id], at)]
    ensures Apply(docs, Delete(docs[id].userId, One(text))) == docs - {id}
  {
  }

  lemma ListedIdReachesItsNotification(docs: Notifications, id: ObjectId, w1: string, q1: string, q2: string,
                                       w2: string, at: Time)
    requires id in docs
    requires AllIn(w1, SPACES) && AllIn(w2, SPACES) && AllIn(q1, QUOTES) && AllIn(q2, QUOTES)
    ensures var text := w1 + (q1 + ToWire(id, docs[id]).id + q2) + w2;
      Apply(docs, Mark(docs[id].userId, One(text), at)) == docs[id := MarkedRead(docs[id], at)] &&
      Apply(docs, Delete(docs[id].userId, One(text))) == docs - {id}
  {
    ClientIdRoundTrip(id, w1, q1, q2, w2);
    OwnerReachesExactlyOne(docs, id, w1 + (q1 + Hex(id) + q2) + w2, at);
  }
}
