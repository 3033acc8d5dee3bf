/** Runs of the interleaved client store that meet the conditions of its theorems: a Set that fails, a Set that comes
    late, and two sends that cross. */
module StoreWitnesses {
  import opened Wrappers
  import opened ClientModel
  import opened StoreProtocol
  import opened StoreRecords
  import opened StoreCoherence

  // ---- Runs, a step at a time ----

  lemma Extend(states: seq<State>, actions: seq<Action>, a: Action)
    returns (longer: seq<State>, more: seq<Action>)
    requires IsRun(states, actions) && Enabled(states[|actions|], a)
    ensures longer == states + [Step(states[|actions|], a)] && more == actions + [a]
    ensures IsRun(longer, more)
  {
    longer, more := states + [Step(states[|actions|], a)], actions + [a];
    forall i | 0 <= i < |more|
      ensures Happens(longer, more, i)
    {
      assert i < |actions| ==> Happens(states, actions, i);
    }
  }

  // Nothing fails, and no connection is stored twice.
  ghost predicate Smooth(states: seq<State>, actions: seq<Action>) {
    IsRun(states, actions) && StoresOnce(states, actions) &&
    forall j :: 0 <= j < |actions| ==> actions[j].Call? || actions[j].Advance?
  }

  lemma Continue(states: seq<State>, actions: seq<Action>, a: Action)
    returns (longer: seq<State>, more: seq<Action>)
    requires Smooth(states, actions) && Enabled(states[|actions|], a) && !StoresAgain(states[|actions|], a)
    requires a.Call? || a.Advance?
    ensures longer == states + [Step(states[|actions|], a)] && more == actions + [a] && Smooth(longer, more)
  {
    longer, more := Extend(states, actions, a);
  }

  // ---- The map and Redis differ ----

  // A StoreClient up to the write lock
  lemma LockedRun(user: string, conn: Conn, enable: bool) returns (states: seq<State>, actions: seq<Action>)
    ensures Smooth(states, actions) && |actions| == 2
    ensures states[2] == INITIAL.(writer := Some(0), procs := map[0 := StoreAppend(user, conn, enable)])
  {
    states, actions := Continue([INITIAL], [], Call(0, StoreEnter(user, conn, enable)));
    states, actions := Continue(states, actions, Advance(0));
  }

  lemma FirstAppend(user: string, conn: Conn, enable: bool)
    ensures Advanced(INITIAL.(writer := Some(0), procs := map[0 := StoreAppend(user, conn, enable)]), 0) ==
            State(map[user := [conn]], map[], map[], Some(0), {}, map[0 := StoreLeave(user, conn, enable)],
                  {}, {(user, conn)}, map[conn := Storing(user, 0)], map[])
  {
    assert [] + [conn] == [conn];
  }

  // And its append
  lemma AppendedRun(user: string, conn: Conn, enable: bool) returns (states: seq<State>, actions: seq<Action>)
    ensures Smooth(states, actions) && |actions| == 3
    ensures states[3] == State(map[user := [conn]], map[], map[], Some(0), {}, map[0 := StoreLeave(user, conn, enable)],
                               {}, {(user, conn)}, map[conn := Storing(user, 0)], map[])
  {
    states, actions := LockedRun(user, conn, enable);
    FirstAppend(user, conn, enable);
    states, actions := Continue(states, actions, Advance(0));
  }

  // And its Unlock, up to the Set of its record
  lemma StoringRun(user: string, conn: Conn, enable: bool) returns (states: seq<State>, actions: seq<Action>)
    ensures Smooth(states, actions) && |actions| == 4
    ensures states[4] == State(map[user := [conn]], map[], map[], None, {}, map[0 := StoreRecord(user, conn, enable)],
                               {}, {(user, conn)}, map[conn := Storing(user, 0)], map[])
  {
    states, actions := AppendedRun(user, conn, enable);
    states, actions := Continue(states, actions, Advance(0));
  }

  lemma SetFails(s: State, user: string, conn: Conn, enable: bool)
    requires s == State(map[user := [conn]], map[], map[], None, {}, map[0 := StoreRecord(user, conn, enable)],
                        {}, {(user, conn)}, map[conn := Storing(user, 0)], map[])
    ensures LosesRecord(s, RedisFails(0)) && !RecordInv(Step(s, RedisFails(0)))
  {
  }

  // The Set of the only StoreClient fails: the user is in the map without a record.
  lemma FailedSetLosesRecord() returns (states: seq<State>, actions: seq<Action>)
    ensures IsRun(states, actions) && |actions| == 5
    ensures LosesRecord(states[4], actions[4]) && !RecordInv(states[5])
  {
    states, actions := StoringRun("u", 0, true);
    SetFails(states[4], "u", 0, true);
    states, actions := Extend(states, actions, RedisFails(0));
  }

  // The same, and a RemoveConnection that has taken the user off the map
  lemma FilteredRun(user: string, conn: Conn, enable: bool) returns (states: seq<State>, actions: seq<Action>)
    ensures Smooth(states, actions) && |actions| == 7
    ensures states[7] == State(map[], map[], map[], Some(1), {},
                               map[0 := StoreRecord(user, conn, enable), 1 := RemoveRecord(user)], {}, {},
                               map[conn := Storing(user, 0)], map[])
  {
    states, actions := StoringRun(user, conn, enable);
    states, actions := Continue(states, actions, Call(1, RemoveEnter(user, conn)));
    states, actions := Continue(states, actions, Advance(1));
    assert [conn][..0] == [] && Without([conn], conn) == [];
    states, actions := Continue(states, actions, Advance(1));
  }

  // And its Del and Unlock
  lemma RemovedRun(user: string, conn: Conn, enable: bool) returns (states: seq<State>, actions: seq<Action>)
    ensures Smooth(states, actions) && |actions| == 9
    ensures states[9] == State(map[], map[], map[], None, {},
                               map[0 := StoreRecord(user, conn, enable), 1 := Finished], {}, {},
                               map[conn := Storing(user, 0)], map[])
  {
    states, actions := FilteredRun(user, conn, enable);
    states, actions := Continue(states, actions, Advance(1));
    states, actions := Continue(states, actions, Advance(1));
  }

  // With nothing failing, the Set of a StoreClient comes after its connection was removed, Del included. With no
  // call left under way, the user has a record and is not in the map.
  lemma LateSetLeavesOrphan() returns (states: seq<State>, actions: seq<Action>)
    ensures Smooth(states, actions) && |actions| == 10
    ensures LeavesOrphan(states[9], actions[9]) && !OrphanFree(states[10])
    ensures forall p :: p in states[10].procs ==> states[10].procs[p].Finished?
    ensures states[10].lists == map[] && states[10].redis == map["u" := true] && states[10].present == {}
  {
    states, actions := RemovedRun("u", 0, true);
    states, actions := Continue(states, actions, Advance(0));
    assert !Removing(states[10], "u");
  }

  // ---- A toggle stops a send ----

  // The record is written with true and then with false by an UpdateClientInfo.
  lemma ToggledRun(user: string) returns (states: seq<State>, actions: seq<Action>)
    ensures Smooth(states, actions) && |actions| == 7
    ensures states[7].lists == map[user := [0]] && states[7].redis == map[user := false]
    ensures states[7].writer.None? && states[7].frames == map[]
    ensures states[7].procs == map[0 := Finished, 1 := Finished]
  {
    states, actions := StoringRun(user, 0, true);
    states, actions := Continue(states, actions, Advance(0));
    states, actions := Continue(states, actions, Call(1, UpdateRecord(user, false)));
    states, actions := Continue(states, actions, Advance(1));
  }

  // A send that does not bypass the check is refused, and nothing is written.
  lemma ToggleStopsSend(user: string, p: Frame) returns (states: seq<State>, actions: seq<Action>)
    ensures Smooth(states, actions) && |actions| == 11
    ensures 2 in states[10].procs && states[10].procs[2].SendCheck? && actions[10] == Advance(2)
    ensures 2 in states[11].procs && states[11].procs[2] == SendLeave && states[11].frames == map[]
  {
    states, actions := ToggledRun(user);
    states, actions := Continue(states, actions, Call(2, SendEnter(user, p, false)));
    states, actions := Continue(states, actions, Advance(2));
    states, actions := Continue(states, actions, Advance(2));
    states, actions := Continue(states, actions, Advance(2));
  }

  // ---- Two sends cross ----

  // The state between the first StoreClient and the next calls
  function OneStored(user: string, procs: map<Pid, Process>, writer: Option<Pid>): State {
    State(map[user := [0]], map[user := true], map[], writer, {}, procs, {}, {(user, 0)}, map[0 := Storing(user, 0)],
          map[])
  }

  // The state once there are two
  function TwoStored(user: string, procs: map<Pid, Process>, writer: Option<Pid>): State {
    State(map[user := [0, 1]], map[user := true], map[], writer, {}, procs, {}, {(user, 0), (user, 1)},
          map[0 := Storing(user, 0), 1 := Storing(user, 1)], map[])
  }

  lemma OneStoredRun(user: string) returns (states: seq<State>, actions: seq<Action>)
    ensures Smooth(states, actions) && |actions| == 5 && states[5] == OneStored(user, map[0 := Finished], None)
  {
    states, actions := StoringRun(user, 0, true);
    states, actions := Continue(states, actions, Advance(0));
  }

  lemma SecondLockedRun(user: string) returns (states: seq<State>, actions: seq<Action>)
    ensures Smooth(states, actions) && |actions| == 7
    ensures states[7] == OneStored(user, map[0 := Finished, 1 := StoreAppend(user, 1, true)], Some(1))
  {
    states, actions := OneStoredRun(user);
    states, actions := Continue(states, actions, Call(1, StoreEnter(user, 1, true)));
    states, actions := Continue(states, actions, Advance(1));
  }

  lemma SecondAppend(user: string)
    ensures Advanced(OneStored(user, map[0 := Finished, 1 := StoreAppend(user, 1, true)], Some(1)), 1) ==
            TwoStored(user, map[0 := Finished, 1 := StoreLeave(user, 1, true)], Some(1))
  {
    assert [0] + [1] == [0, 1];
  }

  lemma SecondAppendedRun(user: string) returns (states: seq<State>, actions: seq<Action>)
    ensures Smooth(states, actions) && |actions| == 8
    ensures states[8] == TwoStored(user, map[0 := Finished, 1 := StoreLeave(user, 1, true)], Some(1))
  {
    states, actions := SecondLockedRun(user);
    SecondAppend(user);
    states, actions := Continue(states, actions, Advance(1));
  }

  lemma TwoStoredRun(user: string) returns (states: seq<State>, actions: seq<Action>)
    ensures Smooth(states, actions) && |actions| == 10
    ensures states[10] == TwoStored(user, map[0 := Finished, 1 := Finished], None)
  {
    states, actions := SecondAppendedRun(user);
    states, actions := Continue(states, actions, Advance(1));
    states, actions := Continue(states, actions, Advance(1));
  }

  // Two calls on behalf of a user with two connections, and what these have received
  ghost predicate Stage(s: State, user: string, p: Process, q: Process, first: seq<Frame>, second: seq<Frame>) {
    user in s.lists && s.lists[user] == [0, 1] && user in s.redis && s.redis[user] &&
    s.writer.None? && s.broken == {} && s.procs == map[0 := Finished, 1 := Finished, 2 := p, 3 := q] &&
    Received(s.frames, 0) == first && Received(s.frames, 1) == second
  }

  // A sender of that user, anywhere up to its write-back
  predicate IsSender(p: Process, user: string) {
    match p
    case SendEnter(u, _, _) => u == user
    case SendLookUp(u, _, _) => u == user
    case SendCheck(u, _, _, conns) => u == user && conns == [0, 1]
    case SendWrite(u, _, rest, active) => u == user && active + rest == [0, 1]
    case _ => false
  }

  function Sent(s: State, p: Process, conn: Conn): seq<Frame> {
    if Writes(s, p) && p.rest[0] == conn then [p.payload] else []
  }

  lemma FirstMoves(s: State, user: string, p: Process, q: Process, first: seq<Frame>, second: seq<Frame>)
    requires Stage(s, user, p, q, first, second) && IsSender(p, user)
    ensures Enabled(s, Advance(2)) && !StoresAgain(s, Advance(2))
    ensures Stage(Step(s, Advance(2)), user, Next(s, p), q, first + Sent(s, p, 0), second + Sent(s, p, 1))
  {
  }

  lemma SecondMoves(s: State, user: string, p: Process, q: Process, first: seq<Frame>, second: seq<Frame>)
    requires Stage(s, user, p, q, first, second) && IsSender(q, user)
    ensures Enabled(s, Advance(3)) && !StoresAgain(s, Advance(3))
    ensures Stage(Step(s, Advance(3)), user, p, Next(s, q), first + Sent(s, q, 0), second + Sent(s, q, 1))
  {
  }

  lemma TwoCallsRun(user: string, p: Frame, q: Frame) returns (states: seq<State>, actions: seq<Action>)
    ensures Smooth(states, actions) && |actions| == 12
    ensures Stage(states[12], user, SendEnter(user, p, false), SendEnter(user, q, false), [], [])
  {
    states, actions := TwoStoredRun(user);
    states, actions := Continue(states, actions, Call(2, SendEnter(user, p, false)));
    states, actions := Continue(states, actions, Call(3, SendEnter(user, q, false)));
  }

  // A loop over the two connections that has come to the k-th
  function Loop(user: string, p: Frame, k: nat): Process
    requires k <= 2
  {
    SendWrite(user, p, [0, 1][k..], [0, 1][..k])
  }

  // The first sender comes to its loop,
  lemma FirstLoopRun(user: string, p: Frame, q: Frame) returns (states: seq<State>, actions: seq<Action>)
    ensures Smooth(states, actions) && |actions| == 15
    ensures Stage(states[15], user, Loop(user, p, 0), SendEnter(user, q, false), [], [])
  {
    states, actions := TwoCallsRun(user, p, q);
    FirstMoves(states[12], user, SendEnter(user, p, false), SendEnter(user, q, false), [], []);
    states, actions := Continue(states, actions, Advance(2));
    FirstMoves(states[13], user, SendLookUp(user, p, false), SendEnter(user, q, false), [], []);
    states, actions := Continue(states, actions, Advance(2));
    FirstMoves(states[14], user, SendCheck(user, p, false, [0, 1]), SendEnter(user, q, false), [], []);
    states, actions := Continue(states, actions, Advance(2));
  }

  // then the second.
  lemma SecondTakenRun(user: string, p: Frame, q: Frame) returns (states: seq<State>, actions: seq<Action>)
    ensures Smooth(states, actions) && |actions| == 17
    ensures Stage(states[17], user, Loop(user, p, 0), SendCheck(user, q, false, [0, 1]), [], [])
  {
    states, actions := FirstLoopRun(user, p, q);
    SecondMoves(states[15], user, Loop(user, p, 0), SendEnter(user, q, false), [], []);
    states, actions := Continue(states, actions, Advance(3));
    SecondMoves(states[16], user, Loop(user, p, 0), SendLookUp(user, q, false), [], []);
    states, actions := Continue(states, actions, Advance(3));
  }

  lemma TwoLoopsRun(user: string, p: Frame, q: Frame) returns (states: seq<State>, actions: seq<Action>)
    ensures Smooth(states, actions) && |actions| == 18
    ensures Stage(states[18], user, Loop(user, p, 0), Loop(user, q, 0), [], [])
  {
    states, actions := SecondTakenRun(user, p, q);
    SecondMoves(states[17], user, Loop(user, p, 0), SendCheck(user, q, false, [0, 1]), [], []);
    states, actions := Continue(states, actions, Advance(3));
  }

  lemma LoopNext(s: State, user: string, p: Frame, k: nat)
    requires s.broken == {} && k < 2
    ensures IsSender(Loop(user, p, k), user) && Next(s, Loop(user, p, k)) == Loop(user, p, k + 1)
    ensures forall c :: Sent(s, Loop(user, p, k), c) == if c == k then [p] else []
  {
    assert [0, 1][k..][1..] == [0, 1][k + 1..] && [0, 1][..k] + [[0, 1][k]] == [0, 1][..k + 1];
  }

  lemma FirstWrites(s: State, user: string, p: Frame, k: nat, q: Process, first: seq<Frame>, second: seq<Frame>)
    requires k < 2 && Stage(s, user, Loop(user, p, k), q, first, second)
    ensures Enabled(s, Advance(2)) && !StoresAgain(s, Advance(2))
    ensures Stage(Step(s, Advance(2)), user, Loop(user, p, k + 1), q, if k == 0 then first + [p] else first,
                  if k == 1 then second + [p] else second)
  {
    LoopNext(s, user, p, k);
    FirstMoves(s, user, Loop(user, p, k), q, first, second);
    assert first + [] == first && second + [] == second;
  }

  lemma SecondWrites(s: State, user: string, p: Process, q: Frame, k: nat, first: seq<Frame>, second: seq<Frame>)
    requires k < 2 && Stage(s, user, p, Loop(user, q, k), first, second)
    ensures Enabled(s, Advance(3)) && !StoresAgain(s, Advance(3))
    ensures Stage(Step(s, Advance(3)), user, p, Loop(user, q, k + 1), if k == 0 then first + [q] else first,
                  if k == 1 then second + [q] else second)
  {
    LoopNext(s, user, q, k);
    SecondMoves(s, user, p, Loop(user, q, k), first, second);
    assert first + [] == first && second + [] == second;
  }

  // The first connection is written to by the first sender and then by the second,
  lemma FirstWrittenRun(user: string, p: Frame, q: Frame) returns (states: seq<State>, actions: seq<Action>)
    ensures Smooth(states, actions) && |actions| == 20 && Overlap(states[18])
    ensures Stage(states[20], user, Loop(user, p, 1), Loop(user, q, 1), [p, q], [])
  {
    states, actions := TwoLoopsRun(user, p, q);
    assert Sends(states[18].procs[3], states[18].procs[2].user);
    FirstWrites(states[18], user, p, 0, Loop(user, q, 0), [], []);
    states, actions := Continue(states, actions, Advance(2));
    SecondWrites(states[19], user, Loop(user, p, 1), q, 0, [p], []);
    states, actions := Continue(states, actions, Advance(3));
  }

  // the second connection the other way round.
  lemma CrossedRun(user: string, p: Frame, q: Frame) returns (states: seq<State>, actions: seq<Action>)
    ensures Smooth(states, actions) && |actions| == 22 && Overlap(states[18])
    ensures Stage(states[22], user, Loop(user, p, 2), Loop(user, q, 2), [p, q], [q, p])
  {
    states, actions := FirstWrittenRun(user, p, q);
    SecondWrites(states[20], user, Loop(user, p, 1), q, 1, [p, q], []);
    states, actions := Continue(states, actions, Advance(3));
    FirstWrites(states[21], user, p, 1, Loop(user, q, 2), [p, q], [q]);
    states, actions := Continue(states, actions, Advance(2));
  }

  // Both write back: no send is in its loop, nothing has failed, and the two connections differ for good.
  lemma CrossingSendsDisagree(user: string, p: Frame, q: Frame) returns (states: seq<State>, actions: seq<Action>)
    requires p != q
    ensures Smooth(states, actions) && |actions| == 24 && Overlap(states[18])
    ensures Idle(states[24], user) && Before(ListOf(states[24].lists, user), 0, 1)
    ensures Received(states[24].frames, 0) == [p, q] && Received(states[24].frames, 1) == [q, p]
    ensures !IsSuffix(Received(states[24].frames, 1), Received(states[24].frames, 0))
  {
    states, actions := CrossedRun(user, p, q);
    FirstMoves(states[22], user, Loop(user, p, 2), Loop(user, q, 2), [p, q], [q, p]);
    states, actions := Continue(states, actions, Advance(2));
    SecondMoves(states[23], user, SendLeave, Loop(user, q, 2), [p, q], [q, p]);
    states, actions := Continue(states, actions, Advance(3));
    assert states[24].lists[user][0] == 0 && states[24].lists[user][1] == 1;
    assert [q, p][0] != [p, q][0];
  }
}
