/** The stream of frames under overlapping calls: while no two sends of one user write at the same time, connections
    of the user agree on it. */
module StoreCoherence {
  import opened ClientModel
  import opened StoreProtocol
  import opened StoreProtocolProofs

  // ---- The order in which connections were stored ----

  // The server stores a connection once, when it is opened.
  predicate StoresAgain(s: State, a: Action) {
    a.Advance? && a.pid in s.procs && s.procs[a.pid].StoreAppend? && s.procs[a.pid].conn in s.stored
  }

  predicate Earlier(s: State, c: Conn, d: Conn) {
    c in s.stored && d in s.stored && s.stored[c].nth < s.stored[d].nth
  }

  ghost predicate Ordered(s: State, conns: seq<Conn>) {
    forall c, d :: Before(conns, c, d) ==> Earlier(s, c, d)
  }

  ghost predicate SenderOrdered(s: State, p: Process) {
    (p.SendCheck? ==> Ordered(s, p.conns)) && (p.SendWrite? ==> Ordered(s, p.active + p.rest))
  }

  ghost predicate OrderInv(s: State) {
    (forall c :: c in s.stored ==> s.stored[c].nth < |s.stored|) &&
    (forall u, c :: (u, c) in s.present ==> c in s.stored && s.stored[c].user == u) &&
    s.frames.Keys <= s.stored.Keys &&
    (forall u :: u in s.lists ==> Ordered(s, s.lists[u])) &&
    (forall p :: p in s.procs ==> SenderOrdered(s, s.procs[p]))
  }

  lemma OrderedDropped(s: State, front: seq<Conn>, rest: seq<Conn>)
    requires rest != [] && Ordered(s, front + rest)
    ensures Ordered(s, front + rest[1..])
  {
    forall c, d | Before(front + rest[1..], c, d)
      ensures Before(front + rest, c, d)
    {
      var conns := front + rest[1..];
      var i, j :| 0 <= i < j < |conns| && conns[i] == c && conns[j] == d;
      var k, l := if i < |front| then i else i + 1, if j < |front| then j else j + 1;
      assert (front + rest)[k] == c && (front + rest)[l] == d;
    }
  }

  // A process moves and nothing is stored or written to a connection that is not.
  lemma MoveKeepsOrder(s: State, after: State, pid: Pid, q: Process)
    requires OrderInv(s) && after.procs == s.procs[pid := q] && SenderOrdered(s, q)
    requires after.stored == s.stored && after.present <= s.present && after.frames.Keys <= s.stored.Keys
    requires forall u :: u in after.lists ==> Ordered(s, after.lists[u])
    ensures OrderInv(after)
  {
  }

  // A loop goes on: over to those it keeps, or dropped.
  lemma LoopStaysOrdered(s: State, p: Process)
    requires p.SendWrite? && p.rest != [] && Ordered(s, p.active + p.rest)
    ensures Ordered(s, (p.active + [p.rest[0]]) + p.rest[1..]) && Ordered(s, p.active + p.rest[1..])
  {
    assert (p.active + [p.rest[0]]) + p.rest[1..] == p.active + p.rest;
    OrderedDropped(s, p.active, p.rest);
  }

  lemma AdvancedIsOrdered(s: State, p: Process)
    requires SenderOrdered(s, p) && (p.SendLookUp? && p.user in s.lists ==> Ordered(s, s.lists[p.user]))
    ensures SenderOrdered(s, Next(s, p))
  {
    if p.SendCheck? {
      assert [] + p.conns == p.conns;
    } else if p.SendWrite? && p.rest != [] {
      LoopStaysOrdered(s, p);
    }
  }

  lemma NextIsOrdered(s: State, a: Action)
    requires OrderInv(s) && Enabled(s, a) && !a.Breaks?
    ensures SenderOrdered(s, Step(s, a).procs[a.pid])
  {
    if a.pid in s.procs {
      assert SenderOrdered(s, s.procs[a.pid]);
      if a.Advance? {
        AdvancedIsOrdered(s, s.procs[a.pid]);
      } else if a.WriteFails? {
        LoopStaysOrdered(s, s.procs[a.pid]);
      }
    }
  }

  // The lists after the step of a call, appends apart
  lemma ListsStayOrdered(s: State, pid: Pid)
    requires OrderInv(s) && pid in s.procs && !s.procs[pid].StoreAppend?
    ensures forall u :: u in Advanced(s, pid).lists ==> Ordered(s, Advanced(s, pid).lists[u])
  {
    var p := s.procs[pid];
    if p.RemoveFilter? && p.user in s.lists {
      forall c, d | Before(Without(s.lists[p.user], p.conn), c, d)
        ensures Earlier(s, c, d)
      {
        WithoutKeepsOrder(s.lists[p.user], p.conn, c, d);
      }
    }
    if p.SendWrite? && p.rest == [] {
      assert SenderOrdered(s, p);
      assert p.active + p.rest == p.active;
    }
  }

  lemma StepKeepsOrder(s: State, a: Action)
    requires LockInv(s) && PresenceInv(s) && OrderInv(s) && Enabled(s, a) && !StoresAgain(s, a)
    ensures OrderInv(Step(s, a))
  {
    if a.Breaks? {
      assert forall p :: p in s.procs ==> SenderOrdered(s, s.procs[p]);
    } else if a.Advance? && s.procs[a.pid].StoreAppend? {
      AppendKeepsOrder(s, a.pid);
    } else {
      NextIsOrdered(s, a);
      MovesOne(s, a);
      if a.Advance? {
        ListsStayOrdered(s, a.pid);
        WritesToStored(s, a.pid);
      }
      MoveKeepsOrder(s, Step(s, a), a.pid, Step(s, a).procs[a.pid]);
    }
  }

  lemma WritesToStored(s: State, pid: Pid)
    requires PresenceInv(s) && OrderInv(s) && pid in s.procs
    ensures Advanced(s, pid).frames.Keys <= s.stored.Keys
  {
    var p := s.procs[pid];
    assert SenderHoldsPresent(s, p);
    if Writes(s, p) {
      assert p.rest[0] in p.rest + p.active;
      assert (p.user, p.rest[0]) in s.present;
    }
  }

  lemma AppendKeepsOrder(s: State, pid: Pid)
    requires LockInv(s) && PresenceInv(s) && OrderInv(s) && pid in s.procs && s.procs[pid].StoreAppend?
    requires s.procs[pid].conn !in s.stored
    ensures OrderInv(Advanced(s, pid))
  {
    var after, user, conn := Advanced(s, pid), s.procs[pid].user, s.procs[pid].conn;
    assert |after.stored| == |s.stored| + 1;
    forall u | u in after.lists
      ensures Ordered(after, after.lists[u])
    {
      forall c, d | Before(after.lists[u], c, d)
        ensures Earlier(after, c, d)
      {
        if u == user {
          BeforeExtended(ListOf(s.lists, user), conn, c, d);
          if c in ListOf(s.lists, user) {
            assert Listed(s, user, c);
          }
        }
      }
    }
    forall p | p in after.procs
      ensures SenderOrdered(after, after.procs[p])
    {
      if p != pid {
        WriterIsAlone(s, pid, p);
      }
    }
  }

  // ---- Coherence ----

  // d, stored later, received the tail end of what c received.
  ghost predicate Behind(s: State, c: Conn, d: Conn) {
    IsSuffix(Received(s.frames, d), Received(s.frames, c))
  }

  // c has been sent one payload more.
  ghost predicate Trails(s: State, c: Conn, d: Conn, payload: Frame) {
    var received := Received(s.frames, c);
    received != [] && received[|received| - 1] == payload &&
    IsSuffix(Received(s.frames, d), received[..|received| - 1])
  }

  predicate Sends(p: Process, user: string) {
    p.SendWrite? && p.user == user
  }

  ghost predicate Idle(s: State, user: string) {
    forall p :: p in s.procs ==> !Sends(s.procs[p], user)
  }

  // Two sends of one user are in their write loops.
  ghost predicate Overlap(s: State) {
    exists p, q :: p in s.procs && q in s.procs && p != q &&
      s.procs[p].SendWrite? && Sends(s.procs[q], s.procs[p].user)
  }

  // The connections of an idle user agree.
  ghost predicate ListAgrees(s: State, user: string) {
    forall c, d :: Listed(s, user, c) && Listed(s, user, d) && Earlier(s, c, d) ==> Behind(s, c, d)
  }

  // In the middle of a loop: those before the writer agree, those after it agree as long as they take writes, and
  // between the two there is the payload.
  ghost predicate Midway(s: State, p: Process)
    requires p.SendWrite?
  {
    (forall c, d :: c in p.active && d in p.active && Earlier(s, c, d) ==> Behind(s, c, d)) &&
    (forall c, d :: c in p.rest && d in p.rest && c !in s.broken && d !in s.broken && Earlier(s, c, d) ==>
       Behind(s, c, d)) &&
    (forall c, d :: c in p.active && d in p.rest && d !in s.broken ==> Trails(s, c, d, p.payload))
  }

  ghost predicate CoherentInv(s: State) {
    (forall u :: Idle(s, u) ==> ListAgrees(s, u)) &&
    (forall p :: p in s.procs && s.procs[p].SendWrite? ==> Midway(s, s.procs[p]))
  }

  // Frames, lists and order stay for a user, and no more connections take writes.
  lemma SameListAgrees(s: State, after: State, user: string)
    requires ListAgrees(s, user) && after.stored == s.stored
    requires forall c :: Listed(after, user, c) ==> Listed(s, user, c)
    requires forall c :: Listed(after, user, c) ==> Received(after.frames, c) == Received(s.frames, c)
    ensures ListAgrees(after, user)
  {
  }

  lemma SameMidway(s: State, after: State, p: Process)
    requires p.SendWrite? && Midway(s, p) && after.stored == s.stored && s.broken <= after.broken
    requires forall c :: c in p.active + p.rest ==> Received(after.frames, c) == Received(s.frames, c)
    ensures Midway(after, p)
  {
  }

  // A process moves without writing.
  lemma MoveKeepsCoherent(s: State, after: State, pid: Pid, q: Process)
    requires CoherentInv(s) && after.procs == s.procs[pid := q]
    requires after.stored == s.stored && after.frames == s.frames && s.broken <= after.broken
    requires q.SendWrite? ==> Midway(after, q)
    requires forall u :: Idle(after, u) ==>
               ListAgrees(after, u) || (Idle(s, u) && forall c :: Listed(after, u, c) ==> Listed(s, u, c))
    ensures CoherentInv(after)
  {
    forall u | Idle(after, u)
      ensures ListAgrees(after, u)
    {
      if Idle(s, u) && forall c :: Listed(after, u, c) ==> Listed(s, u, c) {
        SameListAgrees(s, after, u);
      }
    }
    forall p | p in after.procs && after.procs[p].SendWrite?
      ensures Midway(after, after.procs[p])
    {
      if p != pid {
        SameMidway(s, after, s.procs[p]);
      }
    }
  }

  // A process that is not in its loop before does not stop a user from being idle.
  lemma IdleBefore(s: State, after: State, pid: Pid, q: Process, user: string)
    requires after.procs == s.procs[pid := q] && Idle(after, user)
    requires pid in s.procs ==> !Sends(s.procs[pid], user)
    ensures Idle(s, user)
  {
    forall p | p in s.procs
      ensures !Sends(s.procs[p], user)
    {
      assert p != pid ==> after.procs[p] == s.procs[p];
    }
  }

  lemma BreakKeepsCoherent(s: State, conn: Conn)
    requires CoherentInv(s)
    ensures CoherentInv(s.(broken := s.broken + {conn}))
  {
    var after := s.(broken := s.broken + {conn});
    forall u | Idle(after, u)
      ensures ListAgrees(after, u)
    {
      assert Idle(s, u);
      SameListAgrees(s, after, u);
    }
    forall p | p in after.procs && after.procs[p].SendWrite?
      ensures Midway(after, after.procs[p])
    {
      SameMidway(s, after, s.procs[p]);
    }
  }

  // ---- The steps of a loop ----

  // The list was taken before; the connections on it that take writes are still in the map.
  lemma LoopStarts(s: State, after: State, pid: Pid)
    requires PresenceInv(s) && HealthInv(s) && CoherentInv(s) && pid in s.procs && s.procs[pid].SendCheck?
    requires after.frames == s.frames && after.stored == s.stored && after.broken == s.broken
    requires Idle(s, s.procs[pid].user)
    ensures var p := s.procs[pid]; Midway(after, SendWrite(p.user, p.payload, p.conns, []))
  {
    var p := s.procs[pid];
    assert SenderHoldsPresent(s, p) && ListAgrees(s, p.user);
    forall c | c in p.conns && c !in s.broken
      ensures Listed(s, p.user, c)
    {
      assert Good(s, p.user, c);
    }
  }

  // The first connection left is skipped, or its write fails.
  lemma DropKeepsMidway(s: State, after: State, p: Process)
    requires p.SendWrite? && p.rest != [] && Midway(s, p)
    requires after.frames == s.frames && after.stored == s.stored && s.broken <= after.broken
    ensures Midway(after, SendWrite(p.user, p.payload, p.rest[1..], p.active))
  {
  }

  // Nobody else writes for the user, and for other users to other connections.
  lemma WriteKeepsMidway(s: State, pid: Pid)
    requires PresenceInv(s) && OrderInv(s) && CoherentInv(s) && pid in s.procs && Writes(s, s.procs[pid])
    ensures Midway(Advanced(s, pid), Advanced(s, pid).procs[pid])
  {
    var after, p, conn := Advanced(s, pid), s.procs[pid], s.procs[pid].rest[0];
    assert Midway(s, p) && SenderOrdered(s, p);
    FirstLeftIsLater(s, p);
    forall c | c != conn
      ensures Received(after.frames, c) == Received(s.frames, c)
    {
      WriteLogs(s, pid, c);
    }
    WriteLogs(s, pid, conn);
    WrittenBehind(s, after, p);
    WrittenTrails(s, after, p);
  }

  // It stands after all that were written to and before all that are left.
  lemma FirstLeftIsLater(s: State, p: Process)
    requires p.SendWrite? && p.rest != [] && SenderOrdered(s, p)
    ensures forall c :: c in p.active ==> Earlier(s, c, p.rest[0])
    ensures forall c :: c in p.rest[1..] ==> Earlier(s, p.rest[0], c)
  {
    var conns := p.active + p.rest;
    forall c | c in p.active
      ensures Earlier(s, c, p.rest[0])
    {
      var i :| 0 <= i < |p.active| && p.active[i] == c;
      assert conns[i] == c && conns[|p.active|] == p.rest[0];
      assert Before(conns, c, p.rest[0]);
    }
    forall c | c in p.rest[1..]
      ensures Earlier(s, p.rest[0], c)
    {
      var i :| 0 <= i < |p.rest[1..]| && p.rest[1..][i] == c;
      assert conns[|p.active|] == p.rest[0] && conns[|p.active| + 1 + i] == c;
      assert Before(conns, p.rest[0], c);
    }
  }

  // What a write of the first connection left does to the frames
  ghost predicate FirstWritten(s: State, after: State, p: Process) {
    p.SendWrite? && p.rest != [] && after.stored == s.stored && after.broken == s.broken &&
    Received(after.frames, p.rest[0]) == Received(s.frames, p.rest[0]) + [p.payload] &&
    forall c :: c != p.rest[0] ==> Received(after.frames, c) == Received(s.frames, c)
  }

  lemma WrittenBehind(s: State, after: State, p: Process)
    requires FirstWritten(s, after, p) && Midway(s, p) && p.rest[0] !in s.broken && SenderOrdered(s, p)
    ensures forall c, d :: c in p.active + [p.rest[0]] && d in p.active + [p.rest[0]] && Earlier(s, c, d) ==>
              Behind(after, c, d)
  {
    FirstLeftIsLater(s, p);
    forall c | c in p.active
      ensures Behind(after, c, p.rest[0])
    {
      assert Trails(s, c, p.rest[0], p.payload);
      var received := Received(s.frames, c);
      SuffixExtended(Received(s.frames, p.rest[0]), received[..|received| - 1], p.payload);
      assert received[..|received| - 1] + [p.payload] == received;
    }
  }

  lemma WrittenTrails(s: State, after: State, p: Process)
    requires FirstWritten(s, after, p) && Midway(s, p) && p.rest[0] !in s.broken && SenderOrdered(s, p)
    ensures forall c, d :: c in p.active + [p.rest[0]] && d in p.rest[1..] && d !in s.broken ==>
              Trails(after, c, d, p.payload)
    ensures forall c, d :: c in p.rest[1..] && d in p.rest[1..] && Earlier(s, c, d) ==>
              c in s.broken || d in s.broken || Behind(after, c, d)
  {
    FirstLeftIsLater(s, p);
    var received := Received(after.frames, p.rest[0]);
    assert received[..|received| - 1] == Received(s.frames, p.rest[0]);
    assert forall c :: c in p.rest[1..] ==> c in p.rest;
  }

  // The connections of other users are others.
  lemma OthersNotWritten(s: State, pid: Pid, u: string, c: Conn)
    requires PresenceInv(s) && OrderInv(s) && pid in s.procs && Writes(s, s.procs[pid])
    requires u != s.procs[pid].user && (u, c) in s.present
    ensures Received(Advanced(s, pid).frames, c) == Received(s.frames, c)
  {
    var p := s.procs[pid];
    assert SenderHoldsPresent(s, p);
    assert p.rest[0] in p.rest + p.active;
    assert (p.user, p.rest[0]) in s.present;
    WriteLogs(s, pid, c);
  }

  lemma WriteKeepsCoherent(s: State, pid: Pid)
    requires PresenceInv(s) && OrderInv(s) && CoherentInv(s) && pid in s.procs && Writes(s, s.procs[pid])
    requires !Overlap(s)
    ensures CoherentInv(Advanced(s, pid))
  {
    var after, user := Advanced(s, pid), s.procs[pid].user;
    forall u | Idle(after, u)
      ensures ListAgrees(after, u)
    {
      assert Sends(after.procs[pid], user);
      IdleBefore(s, after, pid, after.procs[pid], u);
      forall c | Listed(after, u, c)
        ensures Received(after.frames, c) == Received(s.frames, c)
      {
        assert Listed(s, u, c);
        OthersNotWritten(s, pid, u, c);
      }
      SameListAgrees(s, after, u);
    }
    forall p | p in after.procs && after.procs[p].SendWrite?
      ensures Midway(after, after.procs[p])
    {
      if p == pid {
        WriteKeepsMidway(s, pid);
      } else {
        OthersMidway(s, pid, p);
      }
    }
  }

  lemma OthersMidway(s: State, pid: Pid, other: Pid)
    requires PresenceInv(s) && OrderInv(s) && CoherentInv(s) && pid in s.procs && Writes(s, s.procs[pid])
    requires !Overlap(s) && other in s.procs && other != pid && s.procs[other].SendWrite?
    ensures Midway(Advanced(s, pid), s.procs[other])
  {
    var q := s.procs[other];
    assert !Sends(q, s.procs[pid].user);
    assert SenderHoldsPresent(s, q);
    forall c | c in q.active + q.rest
      ensures Received(Advanced(s, pid).frames, c) == Received(s.frames, c)
    {
      assert c in q.rest + q.active;
      OthersNotWritten(s, pid, q.user, c);
    }
    SameMidway(s, Advanced(s, pid), q);
  }

  // ---- Storing and removing ----

  lemma AppendAgrees(s: State, pid: Pid, user: string)
    requires PresenceInv(s) && OrderInv(s) && ListAgrees(s, user) && pid in s.procs
    requires s.procs[pid].StoreAppend? && s.procs[pid].conn !in s.stored
    ensures ListAgrees(Advanced(s, pid), user)
  {
    var after, conn := Advanced(s, pid), s.procs[pid].conn;
    assert after.frames == s.frames && Received(s.frames, conn) == [];
    assert forall d :: d in s.stored ==> !Earlier(after, conn, d);
    assert !Earlier(after, conn, conn);
    forall c, d | Listed(after, user, c) && Listed(after, user, d) && Earlier(after, c, d)
      ensures Behind(after, c, d)
    {
      if c != conn && d != conn {
        assert Listed(s, user, c) && Listed(s, user, d) && Earlier(s, c, d);
      }
    }
  }

  lemma AppendKeepsCoherent(s: State, pid: Pid)
    requires LockInv(s) && PresenceInv(s) && OrderInv(s) && CoherentInv(s) && pid in s.procs
    requires s.procs[pid].StoreAppend? && s.procs[pid].conn !in s.stored
    ensures CoherentInv(Advanced(s, pid))
  {
    forall u
      ensures ListAgrees(Advanced(s, pid), u)
    {
      NobodySends(s, pid, u);
      AppendAgrees(s, pid, u);
    }
    forall p | p in Advanced(s, pid).procs
      ensures !Advanced(s, pid).procs[p].SendWrite?
    {
      if p != pid {
        WriterIsAlone(s, pid, p);
      }
    }
  }

  lemma NobodySends(s: State, pid: Pid, user: string)
    requires LockInv(s) && pid in s.procs && HoldsWrite(s.procs[pid])
    ensures Idle(s, user)
  {
  }

  // ---- Every step ----

  lemma OthersAreNotSending(s: State, after: State, pid: Pid)
    requires pid in after.procs && after.procs == s.procs[pid := after.procs[pid]] && after.procs[pid].SendWrite?
    requires !Overlap(after) && (pid in s.procs ==> !s.procs[pid].SendWrite?)
    ensures Idle(s, after.procs[pid].user)
  {
    forall p | p in s.procs
      ensures !Sends(s.procs[p], after.procs[pid].user)
    {
      assert p != pid ==> after.procs[p] == s.procs[p];
    }
  }

  lemma NextIsMidway(s: State, a: Action)
    requires PresenceInv(s) && HealthInv(s) && CoherentInv(s) && Enabled(s, a) && !a.Breaks?
    requires !Overlap(Step(s, a)) && (a.Advance? ==> !Writes(s, s.procs[a.pid]))
    ensures var q := Step(s, a).procs[a.pid]; q.SendWrite? ==> Midway(Step(s, a), q)
  {
    var after, q := Step(s, a), Step(s, a).procs[a.pid];
    if q.SendWrite? {
      MovesOne(s, a);
      assert s.broken <= after.broken && after.stored == s.stored && after.frames == s.frames;
      if s.procs[a.pid].SendCheck? {
        OthersAreNotSending(s, after, a.pid);
        LoopStarts(s, after, a.pid);
      } else {
        DropKeepsMidway(s, after, s.procs[a.pid]);
      }
    }
  }

  // A user who is idle after the step: the loop was written back, or the user was idle before.
  lemma NextIdle(s: State, a: Action, user: string)
    requires CoherentInv(s) && Enabled(s, a) && !a.Breaks? && Idle(Step(s, a), user)
    requires a.Advance? ==> !Writes(s, s.procs[a.pid]) && !s.procs[a.pid].StoreAppend?
    ensures ListAgrees(Step(s, a), user) ||
            (Idle(s, user) && forall c :: Listed(Step(s, a), user, c) ==> Listed(s, user, c))
  {
    var after := Step(s, a);
    MovesOne(s, a);
    if a.Advance? && Sends(s.procs[a.pid], user) {
      assert Midway(s, s.procs[a.pid]);
      assert after.lists == s.lists[user := s.procs[a.pid].active];
    } else {
      assert !Sends(after.procs[a.pid], user);
      assert a.pid in s.procs ==> !Sends(s.procs[a.pid], user);
      IdleBefore(s, after, a.pid, after.procs[a.pid], user);
      FewerListed(s, a, user);
    }
  }

  lemma FewerListed(s: State, a: Action, user: string)
    requires Enabled(s, a) && !a.Breaks?
    requires a.Advance? ==> !s.procs[a.pid].StoreAppend? && !Sends(s.procs[a.pid], user)
    ensures forall c :: Listed(Step(s, a), user, c) ==> Listed(s, user, c)
  {
    if a.Advance? && s.procs[a.pid].RemoveFilter? && s.procs[a.pid].user in s.lists {
      WithoutMembers(s.lists[s.procs[a.pid].user], s.procs[a.pid].conn);
    }
  }

  lemma StepKeepsCoherent(s: State, a: Action)
    requires LockInv(s) && PresenceInv(s) && HealthInv(s) && OrderInv(s) && CoherentInv(s) && Enabled(s, a)
    requires !StoresAgain(s, a) && !Overlap(s) && !Overlap(Step(s, a))
    ensures CoherentInv(Step(s, a))
  {
    if a.Breaks? {
      BreakKeepsCoherent(s, a.conn);
    } else if a.Advance? && Writes(s, s.procs[a.pid]) {
      WriteKeepsCoherent(s, a.pid);
    } else if a.Advance? && s.procs[a.pid].StoreAppend? {
      AppendKeepsCoherent(s, a.pid);
    } else {
      var after := Step(s, a);
      MovesOne(s, a);
      NextIsMidway(s, a);
      forall u | Idle(after, u)
        ensures ListAgrees(after, u) || (Idle(s, u) && forall c :: Listed(after, u, c) ==> Listed(s, u, c))
      {
        NextIdle(s, a, u);
      }
      MoveKeepsCoherent(s, after, a.pid, after.procs[a.pid]);
    }
  }

  // ---- Over whole runs ----

  // Each connection is stored once.
  ghost predicate StoresOnce(states: seq<State>, actions: seq<Action>)
    requires |states| == |actions| + 1
  {
    forall j :: 0 <= j < |actions| ==> !StoresAgain(states[j], actions[j])
  }

  lemma {:induction false} RunKeepsOrder(states: seq<State>, actions: seq<Action>, i: nat)
    requires IsRun(states, actions) && StoresOnce(states, actions) && i < |states|
    ensures LockInv(states[i]) && PresenceInv(states[i]) && HealthInv(states[i]) && OrderInv(states[i])
  {
    RunKeepsInvariants(states, actions, i);
    if i == 0 {
    } else {
      RunKeepsOrder(states, actions, i - 1);
      assert Happens(states, actions, i - 1);
      StepKeepsOrder(states[i - 1], actions[i - 1]);
    }
  }

  lemma {:induction false} RunKeepsCoherent(states: seq<State>, actions: seq<Action>, i: nat)
    requires IsRun(states, actions) && StoresOnce(states, actions) && i < |states|
    requires forall j :: 0 <= j <= i ==> !Overlap(states[j])
    ensures CoherentInv(states[i])
  {
    if i == 0 {
    } else {
      RunKeepsCoherent(states, actions, i - 1);
      RunKeepsOrder(states, actions, i - 1);
      assert Happens(states, actions, i - 1);
      StepKeepsCoherent(states[i - 1], actions[i - 1]);
    }
  }

  // In every interleaving in which no two sends of one user are in their loops together, whatever fails: whenever
  // no send of the user is in its loop, of two listed connections the one that stands later received a suffix of
  // the frames of the other.
  lemma InterleavedBroadcastsAreCoherent(states: seq<State>, actions: seq<Action>, i: nat, user: string, c: Conn,
                                         d: Conn)
    requires IsRun(states, actions) && StoresOnce(states, actions) && i < |states|
    requires forall j :: 0 <= j <= i ==> !Overlap(states[j])
    requires Idle(states[i], user) && Before(ListOf(states[i].lists, user), c, d)
    ensures IsSuffix(Received(states[i].frames, d), Received(states[i].frames, c))
  {
    RunKeepsCoherent(states, actions, i);
    RunKeepsOrder(states, actions, i);
    assert Listed(states[i], user, c) && Listed(states[i], user, d) && Earlier(states[i], c, d);
    assert ListAgrees(states[i], user);
  }

  // Whatever overlaps: a send whose loop has ended has itself written once to each connection it keeps and not at
  // all to the others.
  lemma SendWritesOnce(states: seq<State>, actions: seq<Action>, i: nat, pid: Pid, conn: Conn)
    requires IsRun(states, actions) && StoresOnce(states, actions) && i < |states|
    requires pid in states[i].procs && states[i].procs[pid].SendWrite? && states[i].procs[pid].rest == []
    ensures WrittenBy(states[i], pid, conn) == if conn in states[i].procs[pid].active then 1 else 0
  {
    var p := states[i].procs[pid];
    RunKeepsOrder(states, actions, i);
    SendReachesTheHealthy(states, actions, i, pid, conn);
    assert SenderOrdered(states[i], p) && p.active + p.rest == p.active;
    OrderedOccursOnce(states[i], p.active, conn);
  }

  lemma {:induction false} OrderedOccursOnce(s: State, conns: seq<Conn>, conn: Conn)
    requires Ordered(s, conns)
    ensures multiset(conns)[conn] == if conn in conns then 1 else 0
  {
    if conns == [] {
    } else {
      var front, last := conns[..|conns| - 1], conns[|conns| - 1];
      LastOf(conns);
      forall c, d
        ensures Before(conns, c, d) <==> Before(front, c, d) || (c in front && d == last)
      {
        BeforeExtended(front, last, c, d);
      }
      OrderedOccursOnce(s, front, conn);
      assert last in front ==> Before(conns, last, last);
    }
  }
}
