/** A call that runs alone does what the whole-call functions of the client model say: the steps of the
    concurrent model and the serialized handlers describe the same client store. */
module StoreProtocolSolo {
  import opened StoreProtocol
  import M = ClientModel

  type Conn = M.Conn

  // The part of the two models that they share
  ghost predicate Agree(s: State, m: M.Clients) {
    s.lists == m.lists && s.frames == m.frames && s.broken == m.broken && s.redis.Keys == m.redis.Keys &&
    forall u :: u in s.redis ==> s.redis[u] == m.redis[u].enableNotification
  }

  predicate LockFree(s: State) {
    s.writer.None? && s.readers == {}
  }

  predicate AtRedis(p: Process) {
    p.StoreRecord? || p.RemoveRecord? || p.SendCheck? || p.UpdateRecord?
  }

  // The Redis step, as the environment lets it turn out
  function RedisStep(s: State, pid: Pid, redisOk: bool): State
    requires pid in s.procs && AtRedis(s.procs[pid])
  {
    Step(s, if redisOk then Advance(pid) else RedisFails(pid))
  }

  predicate Is(s: State, pid: Pid, p: Process) {
    pid in s.procs && s.procs[pid] == p
  }

  // ---- StoreClient ----

  function StoreSolo(s: State, pid: Pid, user: string, conn: Conn, enable: bool, redisOk: bool): State
    requires Is(s, pid, StoreEnter(user, conn, enable)) && LockFree(s)
  {
    var locked := Step(s, Advance(pid));
    var stored := Step(locked, Advance(pid));
    var unlocked := Step(stored, Advance(pid));
    RedisStep(unlocked, pid, redisOk)
  }

  // Up to the Redis call
  lemma AppendAlone(s: State, pid: Pid, user: string, conn: Conn, enable: bool)
    requires Is(s, pid, StoreEnter(user, conn, enable)) && LockFree(s)
    ensures var unlocked := Step(Step(Step(s, Advance(pid)), Advance(pid)), Advance(pid));
      Is(unlocked, pid, StoreRecord(user, conn, enable)) && LockFree(unlocked) &&
      unlocked.lists == M.Appended(s.lists, user, conn) && unlocked.redis == s.redis &&
      unlocked.frames == s.frames && unlocked.broken == s.broken
  {
  }

  lemma StoreAlone(s: State, m: M.Clients, pid: Pid, info: M.ClientInfo, conn: Conn, redisOk: bool)
    requires Is(s, pid, StoreEnter(info.id, conn, info.enableNotification)) && LockFree(s) && Agree(s, m)
    ensures var after := StoreSolo(s, pid, info.id, conn, info.enableNotification, redisOk);
      Agree(after, M.StoreClient(m, info, conn, redisOk)) && LockFree(after) && Is(after, pid, Finished)
  {
    AppendAlone(s, pid, info.id, conn, info.enableNotification);
  }

  // ---- UpdateClientInfo ----

  lemma UpdateAlone(s: State, m: M.Clients, pid: Pid, info: M.ClientInfo, redisOk: bool)
    requires Is(s, pid, UpdateRecord(info.id, info.enableNotification)) && Agree(s, m)
    ensures var after := RedisStep(s, pid, redisOk);
      Agree(after, M.UpdateClientInfo(m, info, redisOk)) && Is(after, pid, Finished) &&
      after.writer == s.writer && after.readers == s.readers
  {
  }

  // ---- RemoveConnection ----

  function RemoveSolo(s: State, pid: Pid, user: string, conn: Conn, redisOk: bool): State
    requires Is(s, pid, RemoveEnter(user, conn)) && LockFree(s)
  {
    var locked := Step(s, Advance(pid));
    var filtered := Step(locked, Advance(pid));
    Step(if filtered.procs[pid].RemoveRecord? then RedisStep(filtered, pid, redisOk) else filtered, Advance(pid))
  }

  // Up to the unlocking, or to the Redis call
  lemma FilterAlone(s: State, pid: Pid, user: string, conn: Conn)
    requires Is(s, pid, RemoveEnter(user, conn)) && LockFree(s)
    ensures var filtered := Step(Step(s, Advance(pid)), Advance(pid));
      var emptied := user in s.lists && M.Without(s.lists[user], conn) == [];
      Is(filtered, pid, if emptied then RemoveRecord(user) else RemoveLeave) &&
      filtered.lists == M.Removed(s.lists, user, conn) && filtered.redis == s.redis &&
      filtered.frames == s.frames && filtered.broken == s.broken && filtered.readers == s.readers
  {
  }

  // The Redis call of a removal
  lemma DelAlone(s: State, pid: Pid, user: string, redisOk: bool)
    requires Is(s, pid, RemoveRecord(user))
    ensures var deleted := RedisStep(s, pid, redisOk);
      Is(deleted, pid, RemoveLeave) &&
      deleted == s.(procs := deleted.procs, redis := if redisOk then s.redis - {user} else s.redis)
  {
  }

  lemma RemoveAlone(s: State, m: M.Clients, pid: Pid, user: string, conn: Conn, redisOk: bool)
    requires Is(s, pid, RemoveEnter(user, conn)) && LockFree(s) && Agree(s, m)
    ensures var after := RemoveSolo(s, pid, user, conn, redisOk);
      Agree(after, M.RemoveConnection(m, user, conn, redisOk)) && LockFree(after) && Is(after, pid, Finished)
  {
    FilterAlone(s, pid, user, conn);
    var filtered := Step(Step(s, Advance(pid)), Advance(pid));
    if filtered.procs[pid].RemoveRecord? {
      DelAlone(filtered, pid, user, redisOk);
    }
  }

  // ---- sendToUser ----

  // The write loop up to the write-back
  function LoopSolo(s: State, pid: Pid, user: string, payload: M.Frame, rest: seq<Conn>, active: seq<Conn>,
      failing: set<Conn>): State
    requires Is(s, pid, SendWrite(user, payload, rest, active))
    decreases |rest|
  {
    if rest == [] then Step(s, Advance(pid))
    else
      var next := Step(s, if rest[0] in failing then WriteFails(pid) else Advance(pid));
      LoopSolo(next, pid, user, payload, rest[1..], next.procs[pid].active, failing)
  }

  // From the moment the list is taken
  function TakenSolo(s: State, pid: Pid, user: string, payload: M.Frame, bypass: bool, conns: seq<Conn>, redisOk: bool,
      failing: set<Conn>): State
    requires Is(s, pid, SendCheck(user, payload, bypass, conns))
  {
    var checked := RedisStep(s, pid, redisOk);
    var written :=
      if checked.procs[pid].SendWrite? then LoopSolo(checked, pid, user, payload, conns, [], failing) else checked;
    LoopLeaves(checked, pid, user, payload, conns, [], failing);
    Step(written, Advance(pid))
  }

  function SendSolo(s: State, pid: Pid, user: string, payload: M.Frame, bypass: bool, redisOk: bool,
      failing: set<Conn>): State
    requires Is(s, pid, SendEnter(user, payload, bypass)) && LockFree(s)
  {
    var locked := Step(s, Advance(pid));
    var taken := Step(locked, Advance(pid));
    if user in s.lists then TakenSolo(taken, pid, user, payload, bypass, s.lists[user], redisOk, failing)
    else Step(taken, Advance(pid))
  }

  // Up to the lookup in the map
  lemma LookUpAlone(s: State, pid: Pid, user: string, payload: M.Frame, bypass: bool)
    requires Is(s, pid, SendEnter(user, payload, bypass)) && LockFree(s)
    ensures var taken := Step(Step(s, Advance(pid)), Advance(pid));
      Is(taken, pid, if user in s.lists then SendCheck(user, payload, bypass, s.lists[user]) else SendLeave) &&
      taken.lists == s.lists && taken.redis == s.redis && taken.frames == s.frames && taken.broken == s.broken &&
      taken.writer == s.writer && taken.readers == {pid}
  {
    var locked := Step(s, Advance(pid));
    assert Is(locked, pid, SendLookUp(user, payload, bypass)) && locked.lists == s.lists && locked.readers == {pid};
  }

  // The loop goes through the list from the front.
  lemma {:induction false} HealthyFromFront(conns: seq<Conn>, bad: set<Conn>)
    requires conns != []
    ensures M.Healthy(conns, bad) == Kept(conns[0], bad) + M.Healthy(conns[1..], bad)
  {
    if |conns| == 1 {
      assert conns[..0] == [] && conns[1..] == [];
    } else {
      var front, tail, last := conns[..|conns| - 1], conns[1..], conns[|conns| - 1];
      HealthyFromFront(front, bad);
      HealthyByLast(conns, bad);
      HealthyByLast(tail, bad);
      assert tail[..|tail| - 1] == front[1..] && tail[|tail| - 1] == last;
      assert (Kept(conns[0], bad) + M.Healthy(front[1..], bad)) + Kept(last, bad)
          == Kept(conns[0], bad) + (M.Healthy(front[1..], bad) + Kept(last, bad));
    }
  }

  function Kept(conn: Conn, bad: set<Conn>): seq<Conn> {
    if conn !in bad then [conn] else []
  }

  lemma HealthyByLast(conns: seq<Conn>, bad: set<Conn>)
    requires conns != []
    ensures M.Healthy(conns, bad) == M.Healthy(conns[..|conns| - 1], bad) + Kept(conns[|conns| - 1], bad)
  {
  }

  // The first connection is written to, unless it is bad.
  function FirstDelivered(frames: map<Conn, seq<M.Frame>>, conn: Conn, bad: set<Conn>, payload: M.Frame)
    : map<Conn, seq<M.Frame>>
  {
    if conn !in bad then Written(frames, conn, payload) else frames
  }

  lemma {:induction false} DeliverFromFront(frames: map<Conn, seq<M.Frame>>, conns: seq<Conn>, bad: set<Conn>,
      payload: M.Frame)
    requires conns != []
    ensures M.Deliver(frames, conns, bad, payload) ==
            M.Deliver(FirstDelivered(frames, conns[0], bad, payload), conns[1..], bad, payload)
  {
    if |conns| == 1 {
      assert conns[..0] == [] && conns[1..] == [];
    } else {
      var front, tail := conns[..|conns| - 1], conns[1..];
      DeliverFromFront(frames, front, bad, payload);
      assert tail[..|tail| - 1] == front[1..] && tail[|tail| - 1] == conns[|conns| - 1];
    }
  }

  lemma {:induction false} LoopLeaves(s: State, pid: Pid, user: string, payload: M.Frame, rest: seq<Conn>,
      active: seq<Conn>, failing: set<Conn>)
    ensures Is(s, pid, SendWrite(user, payload, rest, active)) ==>
      var after := LoopSolo(s, pid, user, payload, rest, active, failing);
      Is(after, pid, SendLeave) && after.writer == s.writer && after.readers == s.readers
    decreases |rest|
  {
    if Is(s, pid, SendWrite(user, payload, rest, active)) && rest != [] {
      var next := Step(s, if rest[0] in failing then WriteFails(pid) else Advance(pid));
      LoopLeaves(next, pid, user, payload, rest[1..], next.procs[pid].active, failing);
    }
  }

  // One write: the first connection receives the payload and is taken over, or is marked broken.
  lemma FirstWrite(s: State, pid: Pid, user: string, payload: M.Frame, rest: seq<Conn>, active: seq<Conn>,
      failing: set<Conn>)
    returns (next: State)
    requires Is(s, pid, SendWrite(user, payload, rest, active)) && rest != []
    ensures next == Step(s, if rest[0] in failing then WriteFails(pid) else Advance(pid))
    ensures next.lists == s.lists && next.redis == s.redis
    ensures next.frames == FirstDelivered(s.frames, rest[0], s.broken + failing, payload)
    ensures next.broken == s.broken + (if rest[0] in failing then {rest[0]} else {})
    ensures Is(next, pid, SendWrite(user, payload, rest[1..],
                                    active + Kept(rest[0], s.broken + failing)))
  {
    next := Step(s, if rest[0] in failing then WriteFails(pid) else Advance(pid));
    assert active + [] == active;
  }

  // One at a time, the writes find the healthy connections of the list and reach each of them.
  lemma {:induction false} LoopAlone(s: State, pid: Pid, user: string, payload: M.Frame, rest: seq<Conn>,
      active: seq<Conn>, failing: set<Conn>)
    requires Is(s, pid, SendWrite(user, payload, rest, active))
    ensures var after := LoopSolo(s, pid, user, payload, rest, active, failing);
      after.lists == s.lists[user := active + M.Healthy(rest, s.broken + failing)] &&
      after.frames == M.Deliver(s.frames, rest, s.broken + failing, payload) &&
      after.broken == s.broken + (set c | c in rest && c in failing) && after.redis == s.redis
    decreases |rest|
  {
    if rest == [] {
      assert active + [] == active;
    } else {
      var next := FirstWrite(s, pid, user, payload, rest, active, failing);
      LoopAlone(next, pid, user, payload, rest[1..], next.procs[pid].active, failing);
      assert next.broken + failing == s.broken + failing;
      HealthyAfterFirst(rest, active, s.broken + failing);
      DeliverFromFront(s.frames, rest, s.broken + failing, payload);
      BrokenAfterFirst(rest, s.broken, failing);
    }
  }

  lemma HealthyAfterFirst(rest: seq<Conn>, active: seq<Conn>, bad: set<Conn>)
    requires rest != []
    ensures (active + Kept(rest[0], bad)) + M.Healthy(rest[1..], bad)
         == active + M.Healthy(rest, bad)
  {
    HealthyFromFront(rest, bad);
  }

  lemma BrokenAfterFirst(rest: seq<Conn>, broken: set<Conn>, failing: set<Conn>)
    requires rest != []
    ensures broken + (if rest[0] in failing then {rest[0]} else {}) + (set c | c in rest[1..] && c in failing)
         == broken + (set c | c in rest && c in failing)
  {
  }

  // The Redis call of a send
  lemma CheckAlone(s: State, pid: Pid, user: string, payload: M.Frame, bypass: bool, conns: seq<Conn>, redisOk: bool)
    requires Is(s, pid, SendCheck(user, payload, bypass, conns))
    ensures var checked := RedisStep(s, pid, redisOk);
      var sends := redisOk && user in s.redis && (bypass || s.redis[user]);
      Is(checked, pid, if sends then SendWrite(user, payload, conns, []) else SendLeave) &&
      checked == s.(procs := checked.procs)
  {
  }

  // A send that is refused only gives the lock back.
  lemma RefusedAlone(s: State, pid: Pid, user: string, payload: M.Frame, bypass: bool, conns: seq<Conn>, redisOk: bool,
      failing: set<Conn>)
    requires Is(s, pid, SendCheck(user, payload, bypass, conns))
    requires !(redisOk && user in s.redis && (bypass || s.redis[user]))
    ensures var after := TakenSolo(s, pid, user, payload, bypass, conns, redisOk, failing);
      Is(after, pid, Finished) && after == s.(procs := after.procs, readers := s.readers - {pid})
  {
  }

  lemma WrittenAlone(s: State, pid: Pid, user: string, payload: M.Frame, bypass: bool, conns: seq<Conn>,
      failing: set<Conn>)
    requires Is(s, pid, SendCheck(user, payload, bypass, conns)) && user in s.redis && (bypass || s.redis[user])
    ensures var after := TakenSolo(s, pid, user, payload, bypass, conns, true, failing);
      after.lists == s.lists[user := M.Healthy(conns, s.broken + failing)] &&
      after.frames == M.Deliver(s.frames, conns, s.broken + failing, payload) &&
      after.broken == s.broken + (set c | c in conns && c in failing) &&
      after.redis == s.redis && after.writer == s.writer && after.readers == s.readers - {pid} &&
      Is(after, pid, Finished)
  {
    var checked := RedisStep(s, pid, true);
    CheckAlone(s, pid, user, payload, bypass, conns, true);
    LoopLeaves(checked, pid, user, payload, conns, [], failing);
    LoopAlone(checked, pid, user, payload, conns, [], failing);
    assert [] + M.Healthy(conns, s.broken + failing) == M.Healthy(conns, s.broken + failing);
  }

  // A user without a list
  lemma AbsentAlone(s: State, pid: Pid, user: string, payload: M.Frame, bypass: bool, redisOk: bool, failing: set<Conn>)
    requires Is(s, pid, SendEnter(user, payload, bypass)) && LockFree(s) && user !in s.lists
    ensures var after := SendSolo(s, pid, user, payload, bypass, redisOk, failing);
      Is(after, pid, Finished) && LockFree(after) && after.lists == s.lists && after.redis == s.redis &&
      after.frames == s.frames && after.broken == s.broken
  {
    LookUpAlone(s, pid, user, payload, bypass);
  }

  // A user with one: the state after the write loop, or the state before
  lemma ListedAlone(s: State, pid: Pid, user: string, payload: M.Frame, bypass: bool, redisOk: bool, failing: set<Conn>)
    requires Is(s, pid, SendEnter(user, payload, bypass)) && LockFree(s) && user in s.lists
    ensures var after := SendSolo(s, pid, user, payload, bypass, redisOk, failing);
      var conns, bad := s.lists[user], s.broken + failing;
      var sends := redisOk && user in s.redis && (bypass || s.redis[user]);
      Is(after, pid, Finished) && LockFree(after) && after.redis == s.redis &&
      after.lists == (if sends then s.lists[user := M.Healthy(conns, bad)] else s.lists) &&
      after.frames == (if sends then M.Deliver(s.frames, conns, bad, payload) else s.frames) &&
      after.broken == (if sends then s.broken + (set c | c in conns && c in failing) else s.broken)
  {
    var taken := Step(Step(s, Advance(pid)), Advance(pid));
    LookUpAlone(s, pid, user, payload, bypass);
    if redisOk && user in s.redis && (bypass || s.redis[user]) {
      WrittenAlone(taken, pid, user, payload, bypass, s.lists[user], failing);
    } else {
      RefusedAlone(taken, pid, user, payload, bypass, s.lists[user], redisOk, failing);
    }
  }

  lemma SendAlone(s: State, m: M.Clients, pid: Pid, user: string, payload: M.Frame, bypass: bool, redisOk: bool,
                  failing: set<Conn>)
    requires Is(s, pid, SendEnter(user, payload, bypass)) && LockFree(s) && Agree(s, m)
    ensures var after := SendSolo(s, pid, user, payload, bypass, redisOk, failing);
      Agree(after, M.SendToUser(m, user, payload, bypass, redisOk, failing)) && LockFree(after) &&
      Is(after, pid, Finished)
  {
    if user in s.lists {
      ListedAlone(s, pid, user, payload, bypass, redisOk, failing);
    } else {
      AbsentAlone(s, pid, user, payload, bypass, redisOk, failing);
    }
  }
}
