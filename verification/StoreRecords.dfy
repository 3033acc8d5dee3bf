/** The users in the map and the users with a Redis record, under every interleaving of the client store: the record
    is written after the lock is given back, and deleted under it. */
module StoreRecords {
  import opened Wrappers
  import opened StoreProtocol
  import opened StoreProtocolProofs

  // ---- Which steps touch what ----

  predicate Sets(p: Process) {
    p.StoreRecord? || p.UpdateRecord?
  }

  // Appends and filters apart, no step changes which users are in the map.
  lemma UsersStay(s: State, a: Action)
    requires PresenceInv(s) && Enabled(s, a)
    requires a.Advance? ==> !s.procs[a.pid].StoreAppend? && !s.procs[a.pid].RemoveFilter?
    ensures Step(s, a).lists.Keys == s.lists.Keys
  {
  }

  // Only a Set or a Del that succeeds changes Redis.
  lemma RedisStays(s: State, a: Action)
    requires Enabled(s, a) && (a.Advance? ==> !Sets(s.procs[a.pid]) && !s.procs[a.pid].RemoveRecord?)
    ensures Step(s, a).redis == s.redis
  {
  }

  // ---- A pending Del ----

  // The key stays away until the record is deleted.
  ghost predicate RemovalsInv(s: State) {
    forall p :: p in s.procs && s.procs[p].RemoveRecord? ==> s.procs[p].user !in s.lists
  }

  lemma StepKeepsRemovals(s: State, a: Action)
    requires LockInv(s) && PresenceInv(s) && RemovalsInv(s) && Enabled(s, a)
    ensures RemovalsInv(Step(s, a))
  {
    if a.Advance? && (s.procs[a.pid].StoreAppend? || s.procs[a.pid].RemoveFilter?) {
      forall p | p in s.procs && p != a.pid
        ensures !s.procs[p].RemoveRecord?
      {
        WriterIsAlone(s, a.pid, p);
      }
    } else {
      UsersStay(s, a);
    }
  }

  // ---- A record for every list ----

  // StoreClient for the user is between its append and its Set.
  predicate IsStoring(p: Process, user: string) {
    (p.StoreLeave? || p.StoreRecord?) && p.user == user
  }

  ghost predicate RecordedOrStoring(s: State, user: string) {
    user in s.redis || exists p :: p in s.procs && IsStoring(s.procs[p], user)
  }

  ghost predicate RecordInv(s: State) {
    forall u :: u in s.lists ==> RecordedOrStoring(s, u)
  }

  // The Set of a StoreClient fails, and nothing else stands in for the record of a listed user.
  ghost predicate LosesRecord(s: State, a: Action) {
    a.RedisFails? && a.pid in s.procs && s.procs[a.pid].StoreRecord? &&
    var user := s.procs[a.pid].user;
    user in s.lists && user !in s.redis &&
    forall p :: p in s.procs && p != a.pid ==> !IsStoring(s.procs[p], user)
  }

  // A process moves: a user who was recorded and is still in the map keeps the record, a user who is new in the map
  // is being stored, and where the process was storing it still is, or the record is there now.
  lemma MoveKeepsRecords(s: State, after: State, pid: Pid, q: Process)
    requires RecordInv(s) && after.procs == s.procs[pid := q]
    requires forall u :: u in after.lists && u in s.redis ==> u in after.redis
    requires forall u :: u in after.lists ==> u in s.lists || IsStoring(q, u)
    requires pid in s.procs ==>
      forall u :: IsStoring(s.procs[pid], u) && u in after.lists ==> IsStoring(q, u) || RecordedOrStoring(after, u)
    ensures RecordInv(after)
  {
    forall u | u in after.lists
      ensures RecordedOrStoring(after, u)
    {
      if u in s.lists && u !in after.redis {
        assert RecordedOrStoring(s, u);
        var p :| p in s.procs && IsStoring(s.procs[p], u);
        assert p != pid ==> IsStoring(after.procs[p], u);
        assert p == pid && IsStoring(q, u) ==> IsStoring(after.procs[pid], u);
      } else if u !in s.lists {
        assert IsStoring(after.procs[pid], u);
      }
    }
  }

  // A user in the map has a record or a StoreClient on its way to write one; a step keeps that exactly when
  // it is not such a failure.
  lemma StepKeepsRecords(s: State, a: Action)
    requires LockInv(s) && PresenceInv(s) && RemovalsInv(s) && RecordInv(s) && Enabled(s, a)
    ensures RecordInv(Step(s, a)) <==> !LosesRecord(s, a)
  {
    if a.Breaks? {
      assert forall u :: RecordedOrStoring(s, u) ==> RecordedOrStoring(Step(s, a), u);
    } else if a.RedisFails? {
      FailureAndRecords(s, a);
    } else {
      MovesOne(s, a);
      UsersComeByAppend(s, a);
      RecordsOfListedStay(s, a);
      MoveKeepsRecords(s, Step(s, a), a.pid, Step(s, a).procs[a.pid]);
    }
  }

  lemma UsersComeByAppend(s: State, a: Action)
    requires PresenceInv(s) && Enabled(s, a) && !a.Breaks?
    ensures forall u :: u in Step(s, a).lists ==> u in s.lists || IsStoring(Step(s, a).procs[a.pid], u)
  {
  }

  lemma RecordsOfListedStay(s: State, a: Action)
    requires RemovalsInv(s) && Enabled(s, a) && !a.Breaks? && !a.RedisFails?
    ensures forall u :: u in Step(s, a).lists && u in s.redis ==> u in Step(s, a).redis
    ensures a.pid in s.procs ==>
      forall u :: IsStoring(s.procs[a.pid], u) ==> IsStoring(Step(s, a).procs[a.pid], u) || u in Step(s, a).redis
  {
  }

  lemma FailureAndRecords(s: State, a: Action)
    requires RecordInv(s) && Enabled(s, a) && a.RedisFails?
    ensures RecordInv(Step(s, a)) <==> !LosesRecord(s, a)
  {
    var after := Step(s, a);
    assert after.lists == s.lists && after.redis == s.redis;
    if LosesRecord(s, a) {
      assert !RecordedOrStoring(after, s.procs[a.pid].user);
    } else {
      forall u | u in after.lists
        ensures RecordedOrStoring(after, u)
      {
        assert RecordedOrStoring(s, u);
        if u !in s.redis {
          var p :| p in s.procs && IsStoring(s.procs[p], u) && (p == a.pid ==>
            !exists q :: q in s.procs && q != a.pid && IsStoring(s.procs[q], u));
          assert p != a.pid;
          assert after.procs[p] == s.procs[p];
        }
      }
    }
  }

  // ---- A list for every record ----

  // RemoveConnection has deleted the key of the user and not yet the record.
  ghost predicate Removing(s: State, user: string) {
    exists p :: p in s.procs && s.procs[p] == RemoveRecord(user)
  }

  ghost predicate OrphanFree(s: State) {
    forall u :: u in s.redis ==> u in s.lists || Removing(s, u)
  }

  // A Set comes when the user has left the map and no Del is to come, or the Del of a record fails.
  ghost predicate LeavesOrphan(s: State, a: Action) {
    (a.Advance? && a.pid in s.procs && Sets(s.procs[a.pid]) &&
     s.procs[a.pid].user !in s.lists && !Removing(s, s.procs[a.pid].user)) ||
    (a.RedisFails? && a.pid in s.procs && s.procs[a.pid].RemoveRecord? && s.procs[a.pid].user in s.redis)
  }

  // A step keeps every record backed by a list or a pending Del exactly when it is neither of the two.
  lemma StepKeepsOrphanFree(s: State, a: Action)
    requires LockInv(s) && PresenceInv(s) && RemovalsInv(s) && OrphanFree(s) && Enabled(s, a)
    ensures OrphanFree(Step(s, a)) <==> !LeavesOrphan(s, a)
  {
    if a.Breaks? {
      assert forall u :: Removing(s, u) ==> Removing(Step(s, a), u);
    } else if a.Advance? && Sets(s.procs[a.pid]) {
      SetAndOrphans(s, a.pid);
    } else if a.RedisFails? && s.procs[a.pid].RemoveRecord? {
      FailedDelAndOrphans(s, a.pid);
    } else if a.Advance? && s.procs[a.pid].RemoveFilter? {
      FilterKeepsOrphanFree(s, a.pid);
    } else {
      MovesOne(s, a);
      if a.Advance? ==> !s.procs[a.pid].StoreAppend? {
        UsersStay(s, a);
      }
      if a.Advance? ==> !s.procs[a.pid].RemoveRecord? {
        RedisStays(s, a);
      }
      MoveKeepsOrphanFree(s, Step(s, a), a.pid, Step(s, a).procs[a.pid]);
    }
  }

  // A process moves: no user leaves the map, no record comes, and a pending Del is done.
  lemma MoveKeepsOrphanFree(s: State, after: State, pid: Pid, q: Process)
    requires OrphanFree(s) && after.procs == s.procs[pid := q]
    requires s.lists.Keys <= after.lists.Keys && after.redis.Keys <= s.redis.Keys
    requires pid in s.procs && s.procs[pid].RemoveRecord? ==> s.procs[pid].user !in after.redis
    ensures OrphanFree(after)
  {
    forall u | u in after.redis
      ensures u in after.lists || Removing(after, u)
    {
      if u !in s.lists {
        var p :| p in s.procs && s.procs[p] == RemoveRecord(u);
        assert p != pid && after.procs[p] == RemoveRecord(u);
      }
    }
  }

  // What the other processes are removing, they go on removing.
  lemma OthersGoOnRemoving(s: State, after: State, pid: Pid, user: string)
    requires pid in s.procs && pid in after.procs && after.procs == s.procs[pid := after.procs[pid]]
    requires !s.procs[pid].RemoveRecord? && !after.procs[pid].RemoveRecord?
    ensures Removing(after, user) <==> Removing(s, user)
  {
    if Removing(s, user) {
      var p :| p in s.procs && s.procs[p] == RemoveRecord(user);
      assert after.procs[p] == RemoveRecord(user);
    }
    if Removing(after, user) {
      var p :| p in after.procs && after.procs[p] == RemoveRecord(user);
      assert s.procs[p] == RemoveRecord(user);
    }
  }

  lemma SetAndOrphans(s: State, pid: Pid)
    requires OrphanFree(s) && pid in s.procs && Sets(s.procs[pid])
    ensures OrphanFree(Advanced(s, pid)) <==> s.procs[pid].user in s.lists || Removing(s, s.procs[pid].user)
  {
    var after, user := Advanced(s, pid), s.procs[pid].user;
    assert after.redis.Keys == s.redis.Keys + {user} && after.lists == s.lists;
    forall u
      ensures Removing(after, u) <==> Removing(s, u)
    {
      OthersGoOnRemoving(s, after, pid, u);
    }
    assert user in after.redis;
  }

  lemma FailedDelAndOrphans(s: State, pid: Pid)
    requires LockInv(s) && RemovalsInv(s) && OrphanFree(s) && pid in s.procs && s.procs[pid].RemoveRecord?
    ensures OrphanFree(Step(s, RedisFails(pid))) <==> s.procs[pid].user !in s.redis
  {
  }

  lemma FilterKeepsOrphanFree(s: State, pid: Pid)
    requires OrphanFree(s) && pid in s.procs && s.procs[pid].RemoveFilter?
    ensures OrphanFree(Advanced(s, pid))
  {
    var after, user := Advanced(s, pid), s.procs[pid].user;
    forall u | u in after.redis
      ensures u in after.lists || Removing(after, u)
    {
      if u !in s.lists {
        var p :| p in s.procs && s.procs[p] == RemoveRecord(u);
        assert after.procs[p] == RemoveRecord(u);
      } else if u !in after.lists {
        assert after.procs[pid] == RemoveRecord(u);
      }
    }
  }

  // ---- Over whole runs ----

  lemma {:induction false} RunKeepsRemovals(states: seq<State>, actions: seq<Action>, i: nat)
    requires IsRun(states, actions) && i < |states|
    ensures LockInv(states[i]) && PresenceInv(states[i]) && RemovalsInv(states[i])
  {
    RunKeepsInvariants(states, actions, i);
    if i == 0 {
    } else {
      RunKeepsRemovals(states, actions, i - 1);
      assert Happens(states, actions, i - 1);
      StepKeepsRemovals(states[i - 1], actions[i - 1]);
    }
  }

  lemma {:induction false} RecordsUpTo(states: seq<State>, actions: seq<Action>, i: nat)
    requires IsRun(states, actions) && i < |states|
    requires forall j :: 0 <= j < i ==> !LosesRecord(states[j], actions[j])
    ensures RecordInv(states[i])
  {
    if i == 0 {
    } else {
      RecordsUpTo(states, actions, i - 1);
      RunKeepsRemovals(states, actions, i - 1);
      assert Happens(states, actions, i - 1);
      StepKeepsRecords(states[i - 1], actions[i - 1]);
    }
  }

  // Over whole runs the invariant holds exactly as long as no such failure happens.
  lemma RecordsHoldExactly(states: seq<State>, actions: seq<Action>)
    requires IsRun(states, actions)
    ensures (forall i :: 0 <= i < |states| ==> RecordInv(states[i])) <==>
            (forall j :: 0 <= j < |actions| ==> !LosesRecord(states[j], actions[j]))
  {
    if forall j :: 0 <= j < |actions| ==> !LosesRecord(states[j], actions[j]) {
      forall i | 0 <= i < |states|
        ensures RecordInv(states[i])
      {
        RecordsUpTo(states, actions, i);
      }
    }
    if forall i :: 0 <= i < |states| ==> RecordInv(states[i]) {
      forall j | 0 <= j < |actions|
        ensures !LosesRecord(states[j], actions[j])
      {
        RunKeepsRemovals(states, actions, j);
        assert Happens(states, actions, j);
        assert RecordInv(states[j]) && RecordInv(states[j + 1]);
        StepKeepsRecords(states[j], actions[j]);
      }
    }
  }

  // In every interleaving in which no Set of a StoreClient fails, a user in the map always has a Redis record or
  // a StoreClient still between its append and its Set.
  lemma ListedUsersAreRecorded(states: seq<State>, actions: seq<Action>, i: nat, user: string)
    requires IsRun(states, actions) && i < |states|
    requires forall j :: 0 <= j < i && actions[j].RedisFails? && actions[j].pid in states[j].procs ==>
               !states[j].procs[actions[j].pid].StoreRecord?
    ensures user in states[i].lists ==> RecordedOrStoring(states[i], user)
  {
    RecordsUpTo(states, actions, i);
  }

  // With no call under way, the users in the map all have a record.
  lemma QuiescentStoreIsRecorded(states: seq<State>, actions: seq<Action>, i: nat)
    requires IsRun(states, actions) && i < |states|
    requires forall j :: 0 <= j < i ==> !actions[j].RedisFails?
    requires forall p :: p in states[i].procs ==> states[i].procs[p].Finished?
    ensures states[i].lists.Keys <= states[i].redis.Keys
  {
    forall user | user in states[i].lists
      ensures user in states[i].redis
    {
      ListedUsersAreRecorded(states, actions, i, user);
    }
  }

  lemma {:induction false} OrphanFreeUpTo(states: seq<State>, actions: seq<Action>, i: nat)
    requires IsRun(states, actions) && i < |states|
    requires forall j :: 0 <= j < i ==> !LeavesOrphan(states[j], actions[j])
    ensures OrphanFree(states[i])
  {
    if i == 0 {
    } else {
      OrphanFreeUpTo(states, actions, i - 1);
      RunKeepsRemovals(states, actions, i - 1);
      assert Happens(states, actions, i - 1);
      StepKeepsOrphanFree(states[i - 1], actions[i - 1]);
    }
  }

  // The other way round: every record is backed by a list or a Del on its way exactly as long as no Set comes late
  // and no Del of a record fails.
  lemma OrphanFreeExactly(states: seq<State>, actions: seq<Action>)
    requires IsRun(states, actions)
    ensures (forall i :: 0 <= i < |states| ==> OrphanFree(states[i])) <==>
            (forall j :: 0 <= j < |actions| ==> !LeavesOrphan(states[j], actions[j]))
  {
    if forall j :: 0 <= j < |actions| ==> !LeavesOrphan(states[j], actions[j]) {
      forall i | 0 <= i < |states|
        ensures OrphanFree(states[i])
      {
        OrphanFreeUpTo(states, actions, i);
      }
    }
    if forall i :: 0 <= i < |states| ==> OrphanFree(states[i]) {
      forall j | 0 <= j < |actions|
        ensures !LeavesOrphan(states[j], actions[j])
      {
        RunKeepsRemovals(states, actions, j);
        assert Happens(states, actions, j);
        assert OrphanFree(states[j]) && OrphanFree(states[j + 1]);
        StepKeepsOrphanFree(states[j], actions[j]);
      }
    }
  }

  // With no call under way and neither kind of failure before, the map and Redis name the same users.
  lemma QuiescentKeysAgree(states: seq<State>, actions: seq<Action>, i: nat)
    requires IsRun(states, actions) && i < |states|
    requires forall j :: 0 <= j < i ==> !LosesRecord(states[j], actions[j]) && !LeavesOrphan(states[j], actions[j])
    requires forall p :: p in states[i].procs ==> states[i].procs[p].Finished?
    ensures states[i].lists.Keys == states[i].redis.Keys
  {
    RecordsUpTo(states, actions, i);
    OrphanFreeUpTo(states, actions, i);
    assert forall u :: u in states[i].lists ==> RecordedOrStoring(states[i], u);
  }

  // ---- Which flag counts ----

  predicate SetsFor(s: State, a: Action, user: string) {
    a.Advance? && a.pid in s.procs && Sets(s.procs[a.pid]) && s.procs[a.pid].user == user
  }

  predicate DeletesFor(s: State, a: Action, user: string) {
    a.Advance? && a.pid in s.procs && s.procs[a.pid] == RemoveRecord(user)
  }

  // The flag that the last successful Set for the user wrote, if no Del came since
  function LastSet(states: seq<State>, actions: seq<Action>, i: nat, user: string): Option<bool>
    requires |states| == |actions| + 1 && i <= |actions|
  {
    if i == 0 then None
    else if SetsFor(states[i - 1], actions[i - 1], user) then
      Some(states[i - 1].procs[actions[i - 1].pid].enable)
    else if DeletesFor(states[i - 1], actions[i - 1], user) then None
    else LastSet(states, actions, i - 1, user)
  }

  // In every interleaving the record is what was set last.
  lemma {:induction false} RecordIsLastSet(states: seq<State>, actions: seq<Action>, i: nat, user: string)
    requires IsRun(states, actions) && i < |states|
    ensures LastSet(states, actions, i, user) ==
            if user in states[i].redis then Some(states[i].redis[user]) else None
  {
    if i == 0 {
    } else {
      RecordIsLastSet(states, actions, i - 1, user);
      assert Happens(states, actions, i - 1);
      StepSets(states[i - 1], actions[i - 1], user);
    }
  }

  lemma StepSets(s: State, a: Action, user: string)
    requires Enabled(s, a)
    ensures SetsFor(s, a, user) ==> user in Step(s, a).redis && Step(s, a).redis[user] == s.procs[a.pid].enable
    ensures DeletesFor(s, a, user) ==> user !in Step(s, a).redis
    ensures !SetsFor(s, a, user) && !DeletesFor(s, a, user) ==>
      (user in Step(s, a).redis <==> user in s.redis) &&
      (user in s.redis ==> Step(s, a).redis[user] == s.redis[user])
  {
    if a.Advance? ==> !Sets(s.procs[a.pid]) && !s.procs[a.pid].RemoveRecord? {
      RedisStays(s, a);
    }
  }

  // A sender that reads the record goes on to its loop exactly when the last Set for its user, with no Del since,
  // wrote an enabled record, or any record when it bypasses the check.
  lemma SendsGoByTheLastSet(states: seq<State>, actions: seq<Action>, j: nat)
    requires IsRun(states, actions) && j < |actions| && actions[j].Advance?
    requires actions[j].pid in states[j].procs && states[j].procs[actions[j].pid].SendCheck?
    ensures actions[j].pid in states[j + 1].procs
    ensures var p := states[j].procs[actions[j].pid];
      states[j + 1].procs[actions[j].pid].SendWrite? <==>
        LastSet(states, actions, j, p.user).Some? && (p.bypass || LastSet(states, actions, j, p.user).value)
  {
    assert Happens(states, actions, j);
    RecordIsLastSet(states, actions, j, states[j].procs[actions[j].pid].user);
  }
}
