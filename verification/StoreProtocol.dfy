/** The client store under concurrent calls: map steps and Redis steps interleave, the RW lock orders some of
    them. One process is one running call; a step is one access to the map, to Redis, to a socket or to the lock. */
module StoreProtocol {
  import opened Wrappers
  import opened ClientModel

  type Pid = nat

  // A running call, at the step it will take next. The comment names the lock it holds.
  datatype Process =
    | StoreEnter(user: string, conn: Conn, enable: bool)
    | StoreAppend(user: string, conn: Conn, enable: bool)    // write lock
    | StoreLeave(user: string, conn: Conn, enable: bool)     // write lock
    | StoreRecord(user: string, conn: Conn, enable: bool)    // Redis Set, after Unlock
    | RemoveEnter(user: string, conn: Conn)
    | RemoveFilter(user: string, conn: Conn)                 // write lock
    | RemoveRecord(user: string)                             // write lock: key deleted, Redis Del to come
    | RemoveLeave                                            // write lock
    | SendEnter(user: string, payload: Frame, bypass: bool)
    | SendLookUp(user: string, payload: Frame, bypass: bool) // read lock
    | SendCheck(user: string, payload: Frame, bypass: bool, conns: seq<Conn>) // read lock: list taken, Get to come
    | SendWrite(user: string, payload: Frame, rest: seq<Conn>, active: seq<Conn>) // read lock: loop and write-back
    | SendLeave                                              // read lock
    | UpdateRecord(user: string, enable: bool)               // Redis Set without any lock
    | Finished

  predicate IsStart(p: Process) {
    p.StoreEnter? || p.RemoveEnter? || p.SendEnter? || p.UpdateRecord?
  }

  predicate HoldsWrite(p: Process) {
    p.StoreAppend? || p.StoreLeave? || p.RemoveFilter? || p.RemoveRecord? || p.RemoveLeave?
  }

  predicate HoldsRead(p: Process) {
    p.SendLookUp? || p.SendCheck? || p.SendWrite? || p.SendLeave?
  }

  // For whom a connection was stored, and after how many others
  datatype Storing = Storing(user: string, nth: nat)

  datatype State = State(
    lists: map<string, seq<Conn>>,
    redis: map<string, bool>,
    frames: map<Conn, seq<Frame>>,
    writer: Option<Pid>,
    readers: set<Pid>,
    procs: map<Pid, Process>,
    broken: set<Conn>,             // connections on which a write has failed, or that were closed
    present: set<(string, Conn)>,  // history: stored, and not removed since
    stored: map<Conn, Storing>,    // history: every connection ever stored
    wrote: map<Conn, seq<Pid>>)    // history: which sender wrote each frame

  const INITIAL: State := State(map[], map[], map[], None, {}, map[], {}, {}, map[], map[])

  datatype Action =
    | Call(pid: Pid, process: Process)
    | Advance(pid: Pid)
    | RedisFails(pid: Pid)
    | WriteFails(pid: Pid)
    | Breaks(conn: Conn)           // a ping fails, or the connection is closed

  predicate Enabled(s: State, a: Action) {
    match a
    case Call(pid, process) => pid !in s.procs && IsStart(process)
    case Advance(pid) => pid in s.procs && CanAdvance(s, s.procs[pid])
    case RedisFails(pid) =>
      pid in s.procs &&
      (s.procs[pid].StoreRecord? || s.procs[pid].RemoveRecord? || s.procs[pid].SendCheck? || s.procs[pid].UpdateRecord?)
    case WriteFails(pid) => pid in s.procs && s.procs[pid].SendWrite? && s.procs[pid].rest != []
    case Breaks(_) => true
  }

  // Lock waits for writer and readers to leave, RLock for the writer.
  predicate CanAdvance(s: State, p: Process) {
    if p.StoreEnter? || p.RemoveEnter? then s.writer.None? && s.readers == {}
    else if p.SendEnter? then s.writer.None?
    else !p.Finished?
  }

  function At(s: State, pid: Pid, p: Process): State {
    s.(procs := s.procs[pid := p])
  }

  function Written(frames: map<Conn, seq<Frame>>, conn: Conn, payload: Frame): map<Conn, seq<Frame>> {
    frames[conn := Received(frames, conn) + [payload]]
  }

  function WritersOf(s: State, conn: Conn): seq<Pid> {
    if conn in s.wrote then s.wrote[conn] else []
  }

  // Where a call goes from its present step
  function Next(s: State, p: Process): Process {
    match p
    case StoreEnter(user, conn, enable) => StoreAppend(user, conn, enable)
    case StoreAppend(user, conn, enable) => StoreLeave(user, conn, enable)
    case StoreLeave(user, conn, enable) => StoreRecord(user, conn, enable)
    case StoreRecord(_, _, _) => Finished
    case RemoveEnter(user, conn) => RemoveFilter(user, conn)
    case RemoveFilter(user, conn) =>
      if user in s.lists && Without(s.lists[user], conn) == [] then RemoveRecord(user) else RemoveLeave
    case RemoveRecord(_) => RemoveLeave
    case RemoveLeave => Finished
    case SendEnter(user, payload, bypass) => SendLookUp(user, payload, bypass)
    case SendLookUp(user, payload, bypass) =>
      if user in s.lists then SendCheck(user, payload, bypass, s.lists[user]) else SendLeave
    case SendCheck(user, payload, bypass, conns) =>
      if user in s.redis && (bypass || s.redis[user]) then SendWrite(user, payload, conns, []) else SendLeave
    case SendWrite(user, payload, rest, active) =>
      if rest == [] then SendLeave
      else SendWrite(user, payload, rest[1..], if rest[0] in s.broken then active else active + [rest[0]])
    case SendLeave => Finished
    case UpdateRecord(_, _) => Finished
    case Finished => Finished
  }

  // What its step does to each part of the state

  function ListsAfter(s: State, p: Process): map<string, seq<Conn>> {
    if p.StoreAppend? then Appended(s.lists, p.user, p.conn)
    else if p.RemoveFilter? then Removed(s.lists, p.user, p.conn)
    else if p.SendWrite? && p.rest == [] then s.lists[p.user := p.active]
    else s.lists
  }

  function RedisAfter(s: State, p: Process): map<string, bool> {
    if p.StoreRecord? || p.UpdateRecord? then s.redis[p.user := p.enable]
    else if p.RemoveRecord? then s.redis - {p.user}
    else s.redis
  }

  function WriterAfter(s: State, pid: Pid, p: Process): Option<Pid> {
    if p.StoreEnter? || p.RemoveEnter? then Some(pid)
    else if p.StoreLeave? || p.RemoveLeave? then None
    else s.writer
  }

  function ReadersAfter(s: State, pid: Pid, p: Process): set<Pid> {
    if p.SendEnter? then s.readers + {pid} else if p.SendLeave? then s.readers - {pid} else s.readers
  }

  // The write of the first connection left goes through.
  predicate Writes(s: State, p: Process) {
    p.SendWrite? && p.rest != [] && p.rest[0] !in s.broken
  }

  function FramesAfter(s: State, p: Process): map<Conn, seq<Frame>> {
    if Writes(s, p) then Written(s.frames, p.rest[0], p.payload) else s.frames
  }

  function WroteAfter(s: State, pid: Pid, p: Process): map<Conn, seq<Pid>> {
    if Writes(s, p) then s.wrote[p.rest[0] := WritersOf(s, p.rest[0]) + [pid]] else s.wrote
  }

  function PresentAfter(s: State, p: Process): set<(string, Conn)> {
    if p.StoreAppend? then s.present + {(p.user, p.conn)}
    else if p.RemoveFilter? then s.present - {(p.user, p.conn)}
    else s.present
  }

  function StoredAfter(s: State, p: Process): map<Conn, Storing> {
    if p.StoreAppend? then s.stored[p.conn := Storing(p.user, |s.stored|)] else s.stored
  }

  function Advanced(s: State, pid: Pid): State
    requires pid in s.procs
  {
    var p := s.procs[pid];
    State(ListsAfter(s, p), RedisAfter(s, p), FramesAfter(s, p), WriterAfter(s, pid, p), ReadersAfter(s, pid, p),
          s.procs[pid := Next(s, p)], s.broken, PresentAfter(s, p), StoredAfter(s, p), WroteAfter(s, pid, p))
  }

  // The call goes on after a Redis error: StoreClient and UpdateClientInfo return, RemoveConnection ignores it,
  // sendToUser gives up.
  function AfterRedisError(p: Process): Process {
    match p
    case RemoveRecord(_) => RemoveLeave
    case SendCheck(_, _, _, _) => SendLeave
    case _ => Finished
  }

  function Step(s: State, a: Action): State
    requires Enabled(s, a)
  {
    match a
    case Call(pid, process) => At(s, pid, process)
    case Advance(pid) => Advanced(s, pid)
    case RedisFails(pid) => At(s, pid, AfterRedisError(s.procs[pid]))
    case WriteFails(pid) =>
      var p := s.procs[pid];
      At(s, pid, SendWrite(p.user, p.payload, p.rest[1..], p.active)).(broken := s.broken + {p.rest[0]})
    case Breaks(conn) => s.(broken := s.broken + {conn})
  }

  ghost predicate Happens(states: seq<State>, actions: seq<Action>, i: nat)
    requires i < |actions| && i + 1 < |states|
  {
    Enabled(states[i], actions[i]) && states[i + 1] == Step(states[i], actions[i])
  }

  ghost predicate IsRun(states: seq<State>, actions: seq<Action>) {
    |states| == |actions| + 1 && states[0] == INITIAL &&
    forall i :: 0 <= i < |actions| ==> Happens(states, actions, i)
  }
}
