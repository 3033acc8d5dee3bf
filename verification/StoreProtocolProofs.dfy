/** Invariants of the client store under every interleaving. */
module StoreProtocolProofs {
  import opened Wrappers
  import opened ClientModel
  import opened StoreProtocol

  // ---- One step ----

  // The moves that leave the lists alone
  predicate LeavesLists(s: State, a: Action) {
    a.Advance? && a.pid in s.procs ==>
      !s.procs[a.pid].StoreAppend? && !s.procs[a.pid].RemoveFilter? &&
      !(s.procs[a.pid].SendWrite? && s.procs[a.pid].rest == [])
  }

  lemma MovesOne(s: State, a: Action)
    requires Enabled(s, a) && !a.Breaks?
    ensures a.pid in Step(s, a).procs && Step(s, a).procs == s.procs[a.pid := Step(s, a).procs[a.pid]]
  {
  }

  lemma ListsLeft(s: State, a: Action)
    requires Enabled(s, a) && LeavesLists(s, a)
    ensures Step(s, a).lists == s.lists && Step(s, a).present == s.present
  {
  }

  // ---- The lock ----

  // Exactly the processes between Lock and Unlock hold it: one writer and no reader, or readers only.
  ghost predicate LockInv(s: State) {
    (forall p :: p in s.procs ==> LockAgrees(s, p)) &&
    (s.writer.Some? ==> s.writer.value in s.procs && s.readers == {}) &&
    s.readers <= s.procs.Keys
  }

  predicate LockAgrees(s: State, pid: Pid) {
    pid in s.procs &&
    (HoldsWrite(s.procs[pid]) <==> s.writer == Some(pid)) && (HoldsRead(s.procs[pid]) <==> pid in s.readers)
  }

  // One process moves, and the lock with it.
  lemma MoveKeepsLock(s: State, after: State, pid: Pid, q: Process)
    requires LockInv(s) && after.procs == s.procs[pid := q]
    requires after.writer == if HoldsWrite(q) then Some(pid) else if s.writer == Some(pid) then None else s.writer
    requires forall p :: p in after.readers <==> if p == pid then HoldsRead(q) else p in s.readers
    requires HoldsWrite(q) ==> s.writer == Some(pid) || (s.writer.None? && s.readers == {})
    requires HoldsRead(q) ==> pid in s.readers || s.writer.None?
    ensures LockInv(after)
  {
  }

  // The lock follows the process that moves.
  lemma WriterFollows(s: State, a: Action)
    requires Enabled(s, a) && !a.Breaks? && (a.pid in s.procs ==> LockAgrees(s, a.pid))
    requires a.pid !in s.procs ==> s.writer != Some(a.pid)
    ensures var after := Step(s, a);
      var q := after.procs[a.pid];
      after.writer == (if HoldsWrite(q) then Some(a.pid) else if s.writer == Some(a.pid) then None else s.writer) &&
      (HoldsWrite(q) ==> s.writer == Some(a.pid) || (s.writer.None? && s.readers == {}))
  {
  }

  lemma ReadersFollow(s: State, a: Action)
    requires Enabled(s, a) && !a.Breaks? && (a.pid in s.procs ==> LockAgrees(s, a.pid))
    requires a.pid !in s.procs ==> a.pid !in s.readers
    ensures var after := Step(s, a);
      var q := after.procs[a.pid];
      (forall p :: p in after.readers <==> if p == a.pid then HoldsRead(q) else p in s.readers) &&
      (HoldsRead(q) ==> a.pid in s.readers || s.writer.None?)
  {
  }

  lemma StepKeepsLock(s: State, a: Action)
    requires LockInv(s) && Enabled(s, a)
    ensures LockInv(Step(s, a))
  {
    if a.Breaks? {
      var after := Step(s, a);
      assert forall p :: p in s.procs ==> LockAgrees(s, p) && LockAgrees(after, p);
    } else {
      assert a.pid in s.procs ==> LockAgrees(s, a.pid);
      WriterFollows(s, a);
      ReadersFollow(s, a);
      MovesOne(s, a);
      MoveKeepsLock(s, Step(s, a), a.pid, Step(s, a).procs[a.pid]);
    }
  }

  // While one process writes the map under the write lock, no other one is between Lock and Unlock.
  lemma WriterIsAlone(s: State, pid: Pid, other: Pid)
    requires LockInv(s) && pid in s.procs && HoldsWrite(s.procs[pid])
    requires other in s.procs && other != pid
    ensures !HoldsWrite(s.procs[other]) && !HoldsRead(s.procs[other])
  {
  }

  predicate EntersWriting(p: Process) {
    p.StoreEnter? || p.RemoveEnter?
  }

  // A call waits exactly for those that hold what it asks for: a writer for everybody between Lock and Unlock, a
  // sender for a writer. Nobody else ever waits.
  lemma WaitsForHolders(s: State, pid: Pid)
    requires LockInv(s) && pid in s.procs && !s.procs[pid].Finished?
    ensures Enabled(s, Advance(pid)) <==>
      !(exists q :: q in s.procs &&
          ((HoldsWrite(s.procs[q]) && (EntersWriting(s.procs[pid]) || s.procs[pid].SendEnter?)) ||
           (HoldsRead(s.procs[q]) && EntersWriting(s.procs[pid]))))
  {
    if s.writer.Some? {
      assert LockAgrees(s, s.writer.value);
    } else if s.readers != {} {
      var q :| q in s.readers;
      assert LockAgrees(s, q);
    }
  }

  // No deadlock: as long as a call is unfinished, some unfinished call can take its next step.
  lemma SomebodyAdvances(states: seq<State>, actions: seq<Action>, i: nat, pid: Pid) returns (q: Pid)
    requires IsRun(states, actions) && i < |states| && pid in states[i].procs && !states[i].procs[pid].Finished?
    ensures q in states[i].procs && !states[i].procs[q].Finished? && Enabled(states[i], Advance(q))
  {
    var s := states[i];
    RunKeepsInvariants(states, actions, i);
    if s.writer.Some? {
      q := s.writer.value;
      assert LockAgrees(s, q);
    } else if s.readers != {} {
      q :| q in s.readers;
      assert LockAgrees(s, q);
    } else {
      q := pid;
    }
  }

  // ---- No leak ----

  predicate Listed(s: State, user: string, conn: Conn) {
    user in s.lists && conn in s.lists[user]
  }

  // What a sender holds came from the list, and nobody took the key away under it.
  ghost predicate SenderHoldsPresent(s: State, p: Process) {
    (p.SendCheck? ==> p.user in s.lists && forall c :: c in p.conns ==> (p.user, c) in s.present) &&
    (p.SendWrite? ==> p.user in s.lists && forall c :: c in p.rest + p.active ==> (p.user, c) in s.present)
  }

  ghost predicate HasPresent(s: State, user: string) {
    exists c :: (user, c) in s.present
  }

  ghost predicate PresenceInv(s: State) {
    (forall u, c: Conn :: Listed(s, u, c) ==> (u, c) in s.present) &&
    (forall u :: u in s.lists ==> HasPresent(s, u)) &&
    (forall p :: p in s.procs ==> SenderHoldsPresent(s, s.procs[p]))
  }

  // A process moves and leaves the lists alone.
  lemma MoveKeepsPresence(s: State, after: State, pid: Pid, q: Process)
    requires PresenceInv(s) && after.procs == s.procs[pid := q] && SenderHoldsPresent(s, q)
    requires after.lists == s.lists && after.present == s.present
    ensures PresenceInv(after)
  {
  }

  lemma WriteBackKeepsPresence(s: State, pid: Pid)
    requires PresenceInv(s) && pid in s.procs && s.procs[pid].SendWrite? && s.procs[pid].rest == []
    ensures PresenceInv(Advanced(s, pid))
  {
  }

  lemma StepKeepsPresence(s: State, a: Action)
    requires LockInv(s) && PresenceInv(s) && Enabled(s, a)
    ensures PresenceInv(Step(s, a))
  {
    if a.Breaks? {
      BreakKeepsPresence(s, a.conn);
    } else if a.Advance? && s.procs[a.pid].StoreAppend? {
      AppendKeepsPresence(s, a.pid);
    } else if a.Advance? && s.procs[a.pid].RemoveFilter? {
      FilterKeepsPresence(s, a.pid);
    } else if a.Advance? && s.procs[a.pid].SendWrite? && s.procs[a.pid].rest == [] {
      WriteBackKeepsPresence(s, a.pid);
    } else {
      NextHoldsPresent(s, a);
      MovesOne(s, a);
      ListsLeft(s, a);
      MoveKeepsPresence(s, Step(s, a), a.pid, Step(s, a).procs[a.pid]);
    }
  }

  lemma BreakKeepsPresence(s: State, conn: Conn)
    requires PresenceInv(s)
    ensures PresenceInv(s.(broken := s.broken + {conn}))
  {
  }

  lemma NextHoldsPresent(s: State, a: Action)
    requires PresenceInv(s) && Enabled(s, a) && !a.Breaks?
    ensures SenderHoldsPresent(s, Step(s, a).procs[a.pid])
  {
  }

  lemma AppendKeepsPresence(s: State, pid: Pid)
    requires LockInv(s) && PresenceInv(s) && pid in s.procs && s.procs[pid].StoreAppend?
    ensures PresenceInv(Advanced(s, pid))
  {
  }

  lemma FilterKeepsPresence(s: State, pid: Pid)
    requires LockInv(s) && PresenceInv(s) && pid in s.procs && s.procs[pid].RemoveFilter?
    ensures PresenceInv(Advanced(s, pid))
  {
    var after, user, conn := Advanced(s, pid), s.procs[pid].user, s.procs[pid].conn;
    if user in s.lists {
      WithoutMembers(s.lists[user], conn);
    }
    forall u, c: Conn | Listed(after, u, c)
      ensures (u, c) in after.present
    {
      assert Listed(s, u, c);
    }
    forall u | u in after.lists
      ensures HasPresent(after, u)
    {
      if u == user {
        var c := after.lists[u][0];
        assert Listed(after, u, c);
        assert (u, c) in after.present;
      } else {
        assert HasPresent(s, u);
        var c :| (u, c) in s.present;
        assert (u, c) in after.present;
      }
    }
    forall p | p in after.procs
      ensures SenderHoldsPresent(after, after.procs[p])
    {
      if p != pid {
        WriterIsAlone(s, pid, p);
      }
    }
  }

  // ---- No healthy connection is lost ----

  predicate Good(s: State, user: string, conn: Conn) {
    (user, conn) in s.present && conn !in s.broken
  }

  // Every good connection of the user is in what a sender took, split into what it has still to write to and
  // what it will write back.
  ghost predicate SenderHoldsGood(s: State, p: Process) {
    (p.SendCheck? ==> forall c :: Good(s, p.user, c) ==> c in p.conns) &&
    (p.SendWrite? ==> forall c :: Good(s, p.user, c) ==> c in p.rest || c in p.active)
  }

  ghost predicate HealthInv(s: State) {
    (forall u, c :: Good(s, u, c) ==> Listed(s, u, c)) &&
    (forall p :: p in s.procs ==> SenderHoldsGood(s, s.procs[p]))
  }

  lemma StepKeepsHealth(s: State, a: Action)
    requires LockInv(s) && HealthInv(s) && Enabled(s, a)
    ensures HealthInv(Step(s, a))
  {
    if a.Advance? && s.procs[a.pid].StoreAppend? {
      AppendKeepsHealth(s, a.pid);
    } else if a.Advance? && s.procs[a.pid].RemoveFilter? {
      FilterKeepsHealth(s, a.pid);
    } else if a.Advance? && s.procs[a.pid].SendWrite? {
      WriteKeepsHealth(s, a.pid);
    } else if a.Breaks? {
      BreakKeepsHealth(s, a.conn);
    } else {
      NextHoldsGood(s, a);
      MovesOne(s, a);
      ListsLeft(s, a);
      MoveKeepsHealth(s, Step(s, a), a.pid, Step(s, a).procs[a.pid]);
    }
  }

  // A process moves and leaves the lists alone.
  lemma MoveKeepsHealth(s: State, after: State, pid: Pid, q: Process)
    requires HealthInv(s) && after.procs == s.procs[pid := q] && SenderHoldsGood(after, q)
    requires after.lists == s.lists && after.present == s.present && s.broken <= after.broken
    ensures HealthInv(after)
  {
    FewerGood(s, after);
    forall p | p in after.procs
      ensures SenderHoldsGood(after, after.procs[p])
    {
      assert p != pid ==> SenderHoldsGood(s, s.procs[p]);
    }
  }

  lemma FewerGood(s: State, after: State)
    requires after.present == s.present && s.broken <= after.broken
    ensures forall u, c :: Good(after, u, c) ==> Good(s, u, c)
  {
  }

  lemma BreakKeepsHealth(s: State, conn: Conn)
    requires HealthInv(s)
    ensures HealthInv(s.(broken := s.broken + {conn}))
  {
    var after := s.(broken := s.broken + {conn});
    FewerGood(s, after);
    forall p | p in after.procs
      ensures SenderHoldsGood(after, after.procs[p])
    {
      assert SenderHoldsGood(s, s.procs[p]);
    }
  }

  lemma NextHoldsGood(s: State, a: Action)
    requires HealthInv(s) && Enabled(s, a) && !a.Breaks?
    requires a.Advance? ==> !s.procs[a.pid].StoreAppend? && !s.procs[a.pid].RemoveFilter? && !s.procs[a.pid].SendWrite?
    ensures SenderHoldsGood(Step(s, a), Step(s, a).procs[a.pid])
    ensures s.broken <= Step(s, a).broken
  {
    if a.pid in s.procs {
      var p := s.procs[a.pid];
      assert SenderHoldsGood(s, p);
      if a.Advance? && p.SendLookUp? {
        assert forall c :: Good(s, p.user, c) ==> Listed(s, p.user, c);
      }
    }
    ListsLeft(s, a);
    FewerGood(s, Step(s, a));
  }

  lemma AppendKeepsHealth(s: State, pid: Pid)
    requires LockInv(s) && HealthInv(s) && pid in s.procs && s.procs[pid].StoreAppend?
    ensures HealthInv(Advanced(s, pid))
  {
    var after, user, conn := Advanced(s, pid), s.procs[pid].user, s.procs[pid].conn;
    assert forall c :: c in ListOf(s.lists, user) + [conn] <==> c in ListOf(s.lists, user) || c == conn;
    forall u, c | Good(after, u, c)
      ensures Listed(after, u, c)
    {
      assert Good(s, u, c) || (u == user && c == conn);
    }
    forall p | p in after.procs
      ensures SenderHoldsGood(after, after.procs[p])
    {
      if p != pid {
        WriterIsAlone(s, pid, p);
      }
    }
  }

  lemma FilterKeepsHealth(s: State, pid: Pid)
    requires LockInv(s) && HealthInv(s) && pid in s.procs && s.procs[pid].RemoveFilter?
    ensures HealthInv(Advanced(s, pid))
  {
    var after, user, conn := Advanced(s, pid), s.procs[pid].user, s.procs[pid].conn;
    if user in s.lists {
      WithoutMembers(s.lists[user], conn);
    }
    forall u, c | Good(after, u, c)
      ensures Listed(after, u, c)
    {
      assert Good(s, u, c) && Listed(s, u, c);
    }
    forall p | p in after.procs
      ensures SenderHoldsGood(after, after.procs[p])
    {
      if p != pid {
        WriterIsAlone(s, pid, p);
      }
    }
  }

  lemma WriteKeepsHealth(s: State, pid: Pid)
    requires HealthInv(s) && pid in s.procs && s.procs[pid].SendWrite?
    ensures HealthInv(Advanced(s, pid))
  {
    var after, p := Advanced(s, pid), s.procs[pid];
    assert SenderHoldsGood(s, p);
    forall u, c | Good(after, u, c)
      ensures Listed(after, u, c)
    {
      assert Good(s, u, c);
    }
    forall q | q in after.procs
      ensures SenderHoldsGood(after, after.procs[q])
    {
      assert q in s.procs ==> SenderHoldsGood(s, s.procs[q]);
      assert forall u, c :: Good(after, u, c) <==> Good(s, u, c);
    }
  }

  // ---- What a sender has written ----

  // The number of frames of a connection that a sender wrote
  function WrittenBy(s: State, pid: Pid, conn: Conn): nat {
    multiset(WritersOf(s, conn))[pid]
  }

  ghost predicate AllOfPayload(s: State, pid: Pid, conn: Conn, payload: Frame) {
    |WritersOf(s, conn)| == |Received(s.frames, conn)| &&
    forall k :: 0 <= k < |WritersOf(s, conn)| && WritersOf(s, conn)[k] == pid ==>
      Received(s.frames, conn)[k] == payload
  }

  predicate IsWriting(s: State, pid: Pid) {
    pid in s.procs && s.procs[pid].SendWrite?
  }

  // The call is over, or has only the lock to give back.
  predicate IsLeaving(s: State, pid: Pid) {
    pid in s.procs && (s.procs[pid].SendLeave? || s.procs[pid].Finished?)
  }

  // A sender has written its payload once for each time a connection stands in what it will write back, and a call
  // that is not as far has written nothing.
  ghost predicate WritesCount(s: State, pid: Pid, conn: Conn) {
    (IsWriting(s, pid) ==>
       (WrittenBy(s, pid, conn) == multiset(s.procs[pid].active)[conn] &&
        AllOfPayload(s, pid, conn, s.procs[pid].payload))) &&
    (!IsWriting(s, pid) && !IsLeaving(s, pid) ==> WrittenBy(s, pid, conn) == 0)
  }

  ghost predicate WriteInv(s: State) {
    (forall c :: |WritersOf(s, c)| == |Received(s.frames, c)|) && forall p, c :: WritesCount(s, p, c)
  }

  predicate WritesOn(p: Process, q: Process) {
    p.SendWrite? && q.SendWrite? && q.active == p.active && q.payload == p.payload
  }

  // The steps that write to nobody: the process leaves, or goes on with what it has written so far.
  lemma OtherMoveKeepsWrites(s: State, after: State, pid: Pid)
    requires WriteInv(s) && pid in after.procs && after.procs == s.procs[pid := after.procs[pid]]
    requires after.frames == s.frames && after.wrote == s.wrote
    requires IsLeaving(s, pid) ==> IsLeaving(after, pid)
    requires IsWriting(s, pid) && !IsLeaving(after, pid) ==> WritesOn(s.procs[pid], after.procs[pid])
    requires !IsWriting(s, pid) && IsWriting(after, pid) ==> after.procs[pid].active == []
    ensures WriteInv(after)
  {
    forall p, c
      ensures WritesCount(after, p, c)
    {
      assert WritesCount(s, p, c);
    }
  }

  // The logs of a write: one entry more for its connection, the same for the others.
  lemma WriteLogs(s: State, pid: Pid, c: Conn)
    requires pid in s.procs && Writes(s, s.procs[pid])
    ensures var after, p := Advanced(s, pid), s.procs[pid];
      WritersOf(after, c) == (if c == p.rest[0] then WritersOf(s, c) + [pid] else WritersOf(s, c)) &&
      Received(after.frames, c) ==
        (if c == p.rest[0] then Received(s.frames, c) + [p.payload] else Received(s.frames, c)) &&
      after.procs == s.procs[pid := SendWrite(p.user, p.payload, p.rest[1..], p.active + [p.rest[0]])]
  {
  }

  lemma CountsOneMore(xs: seq<nat>, x: nat, y: nat)
    ensures multiset(xs + [x])[y] == multiset(xs)[y] + if x == y then 1 else 0
  {
  }

  lemma OnePayloadMore(writers: seq<Pid>, received: seq<Frame>, sender: Pid, payload: Frame, pid: Pid, mine: Frame)
    requires |writers| == |received| && (sender == pid ==> payload == mine)
    requires forall k :: 0 <= k < |writers| && writers[k] == pid ==> received[k] == mine
    ensures forall k :: 0 <= k <= |writers| && (writers + [sender])[k] == pid ==> (received + [payload])[k] == mine
  {
  }

  lemma WriterKeepsCount(s: State, pid: Pid, c: Conn)
    requires WriteInv(s) && pid in s.procs && Writes(s, s.procs[pid])
    ensures WritesCount(Advanced(s, pid), pid, c)
  {
    var q := s.procs[pid];
    assert WritesCount(s, pid, c);
    WriteLogs(s, pid, c);
    CountsOneMore(q.active, q.rest[0], c);
    if c == q.rest[0] {
      CountsOneMore(WritersOf(s, c), pid, pid);
      OnePayloadMore(WritersOf(s, c), Received(s.frames, c), pid, q.payload, pid, q.payload);
    }
  }

  lemma OthersKeepCount(s: State, pid: Pid, p: Pid, c: Conn)
    requires WriteInv(s) && pid in s.procs && Writes(s, s.procs[pid]) && p != pid
    ensures WritesCount(Advanced(s, pid), p, c)
  {
    assert WritesCount(s, p, c);
    WriteLogs(s, pid, c);
    if c == s.procs[pid].rest[0] {
      CountsOneMore(WritersOf(s, c), pid, p);
      if IsWriting(s, p) {
        OnePayloadMore(WritersOf(s, c), Received(s.frames, c), pid, s.procs[pid].payload, p, s.procs[p].payload);
      }
    }
  }

  lemma WriteKeepsWrites(s: State, pid: Pid)
    requires WriteInv(s) && pid in s.procs && Writes(s, s.procs[pid])
    ensures WriteInv(Advanced(s, pid))
  {
    forall c
      ensures |WritersOf(Advanced(s, pid), c)| == |Received(Advanced(s, pid).frames, c)|
    {
      WriteLogs(s, pid, c);
    }
    forall p, c
      ensures WritesCount(Advanced(s, pid), p, c)
    {
      if p == pid {
        WriterKeepsCount(s, pid, c);
      } else {
        OthersKeepCount(s, pid, p, c);
      }
    }
  }

  // What a process has written stays, unless this is the write.
  lemma NextWrites(s: State, a: Action)
    requires Enabled(s, a) && !a.Breaks?
    requires a.Advance? ==> !Writes(s, s.procs[a.pid])
    ensures var after := Step(s, a);
      a.pid in after.procs && after.frames == s.frames && after.wrote == s.wrote &&
      (IsLeaving(s, a.pid) ==> IsLeaving(after, a.pid)) &&
      (IsWriting(s, a.pid) && !IsLeaving(after, a.pid) ==> WritesOn(s.procs[a.pid], after.procs[a.pid])) &&
      (!IsWriting(s, a.pid) && IsWriting(after, a.pid) ==> after.procs[a.pid].active == [])
  {
  }

  lemma StepKeepsWrites(s: State, a: Action)
    requires WriteInv(s) && Enabled(s, a)
    ensures WriteInv(Step(s, a))
  {
    if a.Breaks? {
      forall p, c
        ensures WritesCount(Step(s, a), p, c)
      {
        assert WritesCount(s, p, c);
      }
    } else if a.Advance? && Writes(s, s.procs[a.pid]) {
      WriteKeepsWrites(s, a.pid);
    } else {
      NextWrites(s, a);
      MovesOne(s, a);
      OtherMoveKeepsWrites(s, Step(s, a), a.pid);
    }
  }

  // ---- Over whole runs ----

  lemma {:induction false} RunKeepsInvariants(states: seq<State>, actions: seq<Action>, i: nat)
    requires IsRun(states, actions) && i < |states|
    ensures LockInv(states[i]) && PresenceInv(states[i]) && HealthInv(states[i])
  {
    if i == 0 {
    } else {
      RunKeepsInvariants(states, actions, i - 1);
      assert Happens(states, actions, i - 1);
      StepKeepsLock(states[i - 1], actions[i - 1]);
      StepKeepsPresence(states[i - 1], actions[i - 1]);
      StepKeepsHealth(states[i - 1], actions[i - 1]);
    }
  }

  // No leak: in every interleaving, whatever fails, a listed connection is stored and not removed since, and once
  // all connections of a user have been removed the map has no entry for the user.
  lemma NoLeak(states: seq<State>, actions: seq<Action>, i: nat, user: string, conn: Conn)
    requires IsRun(states, actions) && i < |states|
    ensures Listed(states[i], user, conn) ==> (user, conn) in states[i].present
    ensures (forall c :: (user, c) !in states[i].present) ==> user !in states[i].lists
  {
    RunKeepsInvariants(states, actions, i);
    assert user in states[i].lists ==> HasPresent(states[i], user);
  }

  // No healthy connection is lost: under any number of overlapping senders, a connection that was stored, was not
  // removed since, and never failed a write is in its user's list.
  lemma NoHealthyConnectionIsLost(states: seq<State>, actions: seq<Action>, i: nat, user: string, conn: Conn)
    requires IsRun(states, actions) && i < |states|
    requires (user, conn) in states[i].present && conn !in states[i].broken
    ensures Listed(states[i], user, conn)
  {
    RunKeepsInvariants(states, actions, i);
    assert Good(states[i], user, conn);
  }

  lemma {:induction false} RunKeepsWrites(states: seq<State>, actions: seq<Action>, i: nat)
    requires IsRun(states, actions) && i < |states|
    ensures WriteInv(states[i])
  {
    if i == 0 {
    } else {
      RunKeepsWrites(states, actions, i - 1);
      assert Happens(states, actions, i - 1);
      StepKeepsWrites(states[i - 1], actions[i - 1]);
    }
  }

  // A send that comes to the end of its loop keeps every healthy connection of the user for its write-back. It has
  // itself written to each connection as often as it keeps it, to the others not at all, and nothing but its payload.
  lemma SendReachesTheHealthy(states: seq<State>, actions: seq<Action>, i: nat, pid: Pid, conn: Conn)
    requires IsRun(states, actions) && i < |states|
    requires pid in states[i].procs && states[i].procs[pid].SendWrite? && states[i].procs[pid].rest == []
    ensures (states[i].procs[pid].user, conn) in states[i].present && conn !in states[i].broken ==>
              conn in states[i].procs[pid].active
    ensures WrittenBy(states[i], pid, conn) == multiset(states[i].procs[pid].active)[conn]
    ensures AllOfPayload(states[i], pid, conn, states[i].procs[pid].payload)
  {
    RunKeepsInvariants(states, actions, i);
    RunKeepsWrites(states, actions, i);
    assert WritesCount(states[i], pid, conn);
    assert SenderHoldsGood(states[i], states[i].procs[pid]);
    if (states[i].procs[pid].user, conn) in states[i].present && conn !in states[i].broken {
      assert Good(states[i], states[i].procs[pid].user, conn);
    }
  }
}
