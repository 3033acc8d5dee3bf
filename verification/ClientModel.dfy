/** The client store as a value: connection lists, Redis records, and what each socket was sent. */
module ClientModel {
  import opened Wrappers
  import opened NotificationModel

  // A websocket connection; Go compares the pointers.
  type Conn = nat

  datatype ClientInfo = ClientInfo(id: string, connectedAt: Time, enableNotification: bool)

  // Go's zero time.Time (the first of January of year 1) on the Unix scale
  const ZERO_TIME: Time := -62_135_596_800_000_000_000

  datatype Frame =
    | NewNotification(item: WireNotification)
    | ListNotifications(items: seq<WireNotification>)
    | ListConfigurations(configId: string, userId: string, enableNotification: bool)

  datatype Clients = Clients(
    lists: map<string, seq<Conn>>,
    redis: map<string, ClientInfo>,
    frames: map<Conn, seq<Frame>>,
    broken: set<Conn>)

  // Reading a missing key of a Go map gives the nil slice.
  function ListOf(lists: map<string, seq<Conn>>, user: string): seq<Conn> {
    if user in lists then lists[user] else []
  }

  function Received(frames: map<Conn, seq<Frame>>, conn: Conn): seq<Frame> {
    if conn in frames then frames[conn] else []
  }

  // The list without a connection
  function Without(conns: seq<Conn>, conn: Conn): seq<Conn> {
    if conns == [] then []
    else
      var front, last := Without(conns[..|conns| - 1], conn), conns[|conns| - 1];
      if last != conn then front + [last] else front
  }

  // The connections of the list on which a write succeeds
  function Healthy(conns: seq<Conn>, bad: set<Conn>): seq<Conn> {
    if conns == [] then []
    else
      var front, last := Healthy(conns[..|conns| - 1], bad), conns[|conns| - 1];
      if last !in bad then front + [last] else front
  }

  // The payload written to each of them in turn
  function Deliver(frames: map<Conn, seq<Frame>>, conns: seq<Conn>, bad: set<Conn>, payload: Frame)
    : map<Conn, seq<Frame>>
  {
    if conns == [] then frames
    else
      var front, last := Deliver(frames, conns[..|conns| - 1], bad, payload), conns[|conns| - 1];
      if last !in bad then front[last := Received(front, last) + [payload]] else front
  }

  function Appended(lists: map<string, seq<Conn>>, user: string, conn: Conn): map<string, seq<Conn>> {
    lists[user := ListOf(lists, user) + [conn]]
  }

  function Removed(lists: map<string, seq<Conn>>, user: string, conn: Conn): map<string, seq<Conn>> {
    if user !in lists then lists
    else if Without(lists[user], conn) == [] then lists - {user}
    else lists[user := Without(lists[user], conn)]
  }

  // ---- The operations; redisOk and failing are the environment's choices ----

  function StoreClient(s: Clients, info: ClientInfo, conn: Conn, redisOk: bool): Clients {
    s.(lists := Appended(s.lists, info.id, conn), redis := if redisOk then s.redis[info.id := info] else s.redis)
  }

  function RemoveConnection(s: Clients, user: string, conn: Conn, redisOk: bool): Clients {
    s.(lists := Removed(s.lists, user, conn),
       redis := if user in s.lists && Without(s.lists[user], conn) == [] && redisOk then s.redis - {user} else s.redis)
  }

  function UpdateClientInfo(s: Clients, info: ClientInfo, redisOk: bool): Clients {
    if redisOk then s.(redis := s.redis[info.id := info]) else s
  }

  function GetClientInfo(s: Clients, user: string, redisOk: bool): Result<ClientInfo> {
    if !redisOk then Err(RedisFault) else if user in s.redis then Ok(s.redis[user]) else Err(NotFound)
  }

  // What sendToUser returns
  function SendResult(s: Clients, user: string, bypass: bool, redisOk: bool): Result<()> {
    if user !in s.lists then Err(NotConnected)
    else
      match GetClientInfo(s, user, redisOk)
      case Err(e) => Err(e)
      case Ok(info) => if !bypass && !info.enableNotification then Err(NotificationsDisabled) else Ok(())
  }

  function SendToUser(s: Clients, user: string, payload: Frame, bypass: bool, redisOk: bool,
      failing: set<Conn>): Clients {
    if SendResult(s, user, bypass, redisOk).Err? then s
    else
      var conns, bad := s.lists[user], s.broken + failing;
      s.(lists := s.lists[user := Healthy(conns, bad)],
         frames := Deliver(s.frames, conns, bad, payload),
         broken := s.broken + set c | c in conns && c in failing)
  }

  // ---- What the list functions mean ----

  ghost predicate Distinct(conns: seq<Conn>) {
    forall i, j :: 0 <= i < j < |conns| ==> conns[i] != conns[j]
  }

  lemma LastOf(conns: seq<Conn>)
    requires conns != []
    ensures conns == conns[..|conns| - 1] + [conns[|conns| - 1]]
    ensures forall c :: c in conns <==> c in conns[..|conns| - 1] || c == conns[|conns| - 1]
  {
  }

  lemma DistinctExtended(front: seq<Conn>, last: Conn)
    ensures Distinct(front + [last]) <==> Distinct(front) && last !in front
  {
    var conns := front + [last];
    assert forall i :: 0 <= i < |front| ==> conns[i] == front[i];
    if Distinct(conns) {
      assert forall i, j :: 0 <= i < j < |front| ==> conns[i] != conns[j];
      assert forall i :: 0 <= i < |front| ==> conns[i] != conns[|front|];
    }
    if Distinct(front) && last !in front {
      forall i, j | 0 <= i < j < |conns|
        ensures conns[i] != conns[j]
      {
        assert front[i] == conns[i];
        assert j < |front| ==> front[j] == conns[j];
      }
    }
  }

  lemma {:induction false} WithoutMembers(conns: seq<Conn>, conn: Conn)
    ensures forall c :: c in Without(conns, conn) <==> c in conns && c != conn
    ensures conn !in conns ==> Without(conns, conn) == conns
  {
    if conns == [] {
    } else {
      LastOf(conns);
      WithoutMembers(conns[..|conns| - 1], conn);
    }
  }

  lemma {:induction false} WithoutDistinct(conns: seq<Conn>, conn: Conn)
    requires Distinct(conns)
    ensures Distinct(Without(conns, conn))
  {
    if conns == [] {
    } else {
      var front, last := conns[..|conns| - 1], conns[|conns| - 1];
      LastOf(conns);
      DistinctExtended(front, last);
      WithoutDistinct(front, conn);
      WithoutMembers(front, conn);
      DistinctExtended(Without(front, conn), last);
    }
  }

  lemma {:induction false} HealthyMembers(conns: seq<Conn>, bad: set<Conn>)
    ensures forall c :: c in Healthy(conns, bad) <==> c in conns && c !in bad
    ensures (forall c :: c in conns ==> c !in bad) ==> Healthy(conns, bad) == conns
  {
    if conns == [] {
    } else {
      LastOf(conns);
      HealthyMembers(conns[..|conns| - 1], bad);
    }
  }

  lemma {:induction false} HealthyDistinct(conns: seq<Conn>, bad: set<Conn>)
    requires Distinct(conns)
    ensures Distinct(Healthy(conns, bad))
  {
    if conns == [] {
    } else {
      var front, last := conns[..|conns| - 1], conns[|conns| - 1];
      LastOf(conns);
      DistinctExtended(front, last);
      HealthyDistinct(front, bad);
      HealthyMembers(front, bad);
      DistinctExtended(Healthy(front, bad), last);
    }
  }

  // Each healthy connection of a list without repetitions gets the payload once, nobody else anything.
  lemma {:induction false} DeliverOnce(frames: map<Conn, seq<Frame>>, conns: seq<Conn>, bad: set<Conn>,
      payload: Frame, c: Conn)
    requires Distinct(conns)
    ensures Received(Deliver(frames, conns, bad, payload), c) ==
            if c in conns && c !in bad then Received(frames, c) + [payload] else Received(frames, c)
    ensures c in Deliver(frames, conns, bad, payload) ==> c in frames || c in conns
  {
    if conns == [] {
    } else {
      var front, last := conns[..|conns| - 1], conns[|conns| - 1];
      LastOf(conns);
      DistinctExtended(front, last);
      DeliverOnce(frames, front, bad, payload, c);
    }
  }

  // c stands before d in the list: it was stored earlier.
  ghost predicate Before(list: seq<Conn>, c: Conn, d: Conn) {
    exists i, j :: 0 <= i < j < |list| && list[i] == c && list[j] == d
  }

  lemma BeforeExtended(front: seq<Conn>, last: Conn, c: Conn, d: Conn)
    ensures Before(front + [last], c, d) <==> Before(front, c, d) || (c in front && d == last)
  {
    var list := front + [last];
    if Before(list, c, d) {
      var i, j :| 0 <= i < j < |list| && list[i] == c && list[j] == d;
      assert front[i] == c;
      if j < |front| {
        assert front[j] == d;
      }
    }
    if Before(front, c, d) {
      var i, j :| 0 <= i < j < |front| && front[i] == c && front[j] == d;
      assert list[i] == c && list[j] == d;
    }
    if c in front && d == last {
      var i :| 0 <= i < |front| && front[i] == c;
      assert list[i] == c && list[|front|] == d;
    }
  }

  lemma {:induction false} WithoutKeepsOrder(list: seq<Conn>, conn: Conn, c: Conn, d: Conn)
    requires Before(Without(list, conn), c, d)
    ensures Before(list, c, d)
  {
    if list == [] {
    } else {
      var front, last := list[..|list| - 1], list[|list| - 1];
      LastOf(list);
      BeforeExtended(front, last, c, d);
      BeforeExtended(Without(front, conn), last, c, d);
      WithoutMembers(front, conn);
      if Before(Without(front, conn), c, d) {
        WithoutKeepsOrder(front, conn, c, d);
      }
    }
  }

  lemma {:induction false} HealthyKeepsOrder(list: seq<Conn>, bad: set<Conn>, c: Conn, d: Conn)
    requires Before(Healthy(list, bad), c, d)
    ensures Before(list, c, d)
  {
    if list == [] {
    } else {
      var front, last := list[..|list| - 1], list[|list| - 1];
      LastOf(list);
      BeforeExtended(front, last, c, d);
      BeforeExtended(Healthy(front, bad), last, c, d);
      HealthyMembers(front, bad);
      if Before(Healthy(front, bad), c, d) {
        HealthyKeepsOrder(front, bad, c, d);
      }
    }
  }

  ghost predicate IsSuffix(a: seq<Frame>, b: seq<Frame>) {
    |a| <= |b| && b[|b| - |a|..] == a
  }

  lemma SuffixExtended(a: seq<Frame>, b: seq<Frame>, frame: Frame)
    requires IsSuffix(a, b)
    ensures IsSuffix(a + [frame], b + [frame])
  {
  }
}
