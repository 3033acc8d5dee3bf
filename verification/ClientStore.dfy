/** services/client_store.go on Go slices: connection lists are prefixes of backing arrays, removal compacts
    in place over the same array, and appending reuses what capacity is left. */
module ClientStore {
  import opened Wrappers
  import M = ClientModel

  type Conn = M.Conn

  // A Go slice that starts at the head of its backing array; the capacity is the array's length.
  datatype Slice = Nil | Slice(backing: array<Conn>, len: nat) {

    ghost predicate WellFormed() {
      Slice? ==> len <= backing.Length
    }

    function Elems(): seq<Conn>
      requires WellFormed()
      reads if Slice? then {backing} else {}
    {
      if Nil? then [] else backing[..len]
    }

    // s[:0]
    function Emptied(): Slice {
      if Nil? then Nil else Slice(backing, 0)
    }
  }

  // The built-in append: in place while there is capacity, else into a larger new array.
  method Append(s: Slice, conn: Conn) returns (r: Slice)
    requires s.WellFormed()
    modifies if s.Slice? then {s.backing} else {}
    ensures r.Slice? && r.WellFormed()
    ensures r.Elems() == old(s.Elems()) + [conn]
    ensures if s.Slice? && s.len < s.backing.Length
            then r.backing == s.backing &&
                 forall k :: 0 <= k < s.backing.Length && k != s.len ==> s.backing[k] == old(s.backing[k])
            else fresh(r.backing) && (s.Slice? ==> s.backing[..] == old(s.backing[..]))
  {
    if s.Slice? && s.len < s.backing.Length {
      s.backing[s.len] := conn;
      assert s.backing[..s.len + 1] == s.backing[..s.len] + [conn];
      return Slice(s.backing, s.len + 1);
    }
    var n := if s.Nil? then 0 else s.len;
    var capacity: nat := *;
    if capacity <= n {
      capacity := n + 1;
    }
    var larger := new Conn[capacity];
    for i := 0 to n
      modifies larger
      invariant s.Slice? ==> larger[..i] == s.backing[..i]
    {
      larger[i] := s.backing[i];
    }
    larger[n] := conn;
    assert larger[..n + 1] == larger[..n] + [conn];
    r := Slice(larger, n + 1);
  }

  class ClientStore {
    var clients: map<string, Slice>
    var redis: map<string, M.ClientInfo>
    var frames: map<Conn, seq<M.Frame>>
    var broken: set<Conn>

    ghost var Lists: map<string, seq<Conn>>      // the connection lists the slices stand for
    ghost var Owners: map<array<Conn>, string>   // the backing arrays, each with the one user it belongs to

    // The user's slice fits its array, holds the user's list, and shares the array with nobody.
    ghost predicate Holds(user: string)
      reads this, Owners.Keys
    {
      user in clients && user in Lists && clients[user].WellFormed() &&
      (clients[user].Slice? ==> clients[user].backing in Owners && Owners[clients[user].backing] == user) &&
      clients[user].Elems() == Lists[user]
    }

    ghost predicate Valid()
      reads this, Owners.Keys
    {
      clients.Keys == Lists.Keys && forall user :: user in clients ==> Holds(user)
    }

    ghost function Model(): M.Clients
      reads this
    {
      M.Clients(Lists, redis, frames, broken)
    }

    constructor ()
      ensures Valid() && Owners == map[]
      ensures Model() == M.Clients(map[], map[], map[], {})
    {
      clients, redis, frames, broken := map[], map[], map[], {};
      Lists, Owners := map[], map[];
    }

    // The write clients[user] = s
    method Put(user: string, s: Slice)
      requires clients.Keys == Lists.Keys && forall u :: u in clients && u != user ==> Holds(u)
      requires s.WellFormed() && (s.Slice? && s.backing in Owners ==> Owners[s.backing] == user)
      modifies this`clients, this`Lists, this`Owners
      ensures Valid() && Lists == old(Lists)[user := s.Elems()]
      ensures Owners.Keys == old(Owners).Keys + if s.Slice? then {s.backing} else {}
    {
      clients, Lists := clients[user := s], Lists[user := s.Elems()];
      if s.Slice? {
        Owners := Owners[s.backing := user];
      }
      forall u | u in clients
        ensures Holds(u)
      {
        if u != user {
          assert old(Holds(u));
        }
      }
    }

    // delete(clients, user)
    method Forget(user: string)
      requires clients.Keys == Lists.Keys && forall u :: u in clients && u != user ==> Holds(u)
      modifies this`clients, this`Lists
      ensures Valid() && Lists == old(Lists) - {user}
    {
      clients, Lists := clients - {user}, Lists - {user};
    }

    // clients[user] = append(clients[user], conn)
    method AppendToList(user: string, conn: Conn)
      requires Valid()
      modifies this`clients, this`Lists, this`Owners, Owners.Keys
      ensures Valid() && fresh(Owners.Keys - old(Owners.Keys))
      ensures Lists == M.Appended(old(Lists), user, conn)
    {
      var current := if user in clients then clients[user] else Nil;
      assert user in clients ==> Holds(user);
      var extended := Append(current, conn);
      forall u | u in clients && u != user
        ensures Holds(u)
      {
        assert old(Holds(u));
      }
      Put(user, extended);
    }

    method StoreClient(info: M.ClientInfo, conn: Conn, redisOk: bool) returns (r: Result<()>)
      requires Valid()
      modifies this, Owners.Keys
      ensures Valid() && fresh(Owners.Keys - old(Owners.Keys))
      ensures Model() == M.StoreClient(old(Model()), info, conn, redisOk)
      ensures r.Ok? <==> redisOk
    {
      AppendToList(info.id, conn);
      if redisOk {
        redis := redis[info.id := info];
      }
      r := if redisOk then Ok(()) else Err(RedisFault);
    }

    method RemoveConnection(user: string, conn: Conn, redisOk: bool)
      requires Valid()
      modifies this, Owners.Keys
      ensures Valid() && fresh(Owners.Keys - old(Owners.Keys))
      ensures Model() == M.RemoveConnection(old(Model()), user, conn, redisOk)
    {
      if user !in clients {
        return;
      }
      var emptied := RemoveFromList(user, conn);
      if emptied && redisOk {
        redis := redis - {user};
      }
    }

    // The map part: write the compacted list back, or drop the key when nothing is left
    method RemoveFromList(user: string, conn: Conn) returns (emptied: bool)
      requires Valid() && user in clients
      modifies this`clients, this`Lists, this`Owners, Owners.Keys
      ensures Valid() && Owners.Keys == old(Owners.Keys)
      ensures Lists == M.Removed(old(Lists), user, conn)
      ensures emptied <==> M.Without(old(Lists)[user], conn) == []
    {
      var conns := clients[user];
      assert Holds(user);
      var remaining := Compact(conns, conn);
      forall u | u in clients && u != user
        ensures Holds(u)
      {
        assert old(Holds(u));
      }
      emptied := remaining.Nil? || remaining.len == 0;
      if emptied {
        Forget(user);
      } else {
        Put(user, remaining);
      }
    }

    // The filter loop over conns[:0]: it writes into the array it reads from, never past where it reads.
    static method Compact(conns: Slice, conn: Conn) returns (remaining: Slice)
      requires conns.WellFormed()
      modifies if conns.Slice? then {conns.backing} else {}
      ensures remaining.WellFormed() && remaining.Elems() == M.Without(old(conns.Elems()), conn)
      ensures remaining.Slice? <==> conns.Slice?
      ensures remaining.Slice? ==> remaining.backing == conns.backing
    {
      remaining := conns.Emptied();
      ghost var before := conns.Elems();
      var n := if conns.Nil? then 0 else conns.len;
      for i := 0 to n
        invariant remaining.WellFormed() && (remaining.Slice? <==> conns.Slice?)
        invariant remaining.Slice? ==> remaining.backing == conns.backing && remaining.len <= i
        invariant remaining.Elems() == M.Without(before[..i], conn)
        invariant conns.Slice? ==> forall k :: i <= k < n ==> conns.backing[k] == before[k]
      {
        var c := conns.backing[i];
        assert c == before[i] && before[..i + 1][..i] == before[..i];
        if c != conn {
          remaining := Append(remaining, c);
        }
      }
      assert before[..n] == before;
    }

    method GetClientInfo(user: string, redisOk: bool) returns (r: Result<M.ClientInfo>)
      requires Valid()
      ensures r == M.GetClientInfo(Model(), user, redisOk)
      ensures r == if !redisOk then Err(RedisFault) else if user in redis then Ok(redis[user]) else Err(NotFound)
    {
      if !redisOk {
        return Err(RedisFault);
      }
      r := if user in redis then Ok(redis[user]) else Err(NotFound);
    }

    method UpdateClientInfo(info: M.ClientInfo, redisOk: bool) returns (r: Result<()>)
      requires Valid()
      modifies this`redis
      ensures Valid() && Owners == old(Owners)
      ensures Model() == M.UpdateClientInfo(old(Model()), info, redisOk)
      ensures r.Ok? <==> redisOk
    {
      if !redisOk {
        return Err(RedisFault);
      }
      redis := redis[info.id := info];
      r := Ok(());
    }

    // conn.WriteMessage: a connection on which a write has failed once fails ever after.
    method WriteMessage(conn: Conn, payload: M.Frame, failing: set<Conn>) returns (ok: bool)
      modifies this`frames, this`broken
      ensures ok <==> conn !in old(broken) && conn !in failing
      ensures broken == old(broken) + if ok then {} else {conn}
      ensures frames == if ok then old(frames)[conn := M.Received(old(frames), conn) + [payload]] else old(frames)
    {
      ok := conn !in broken && conn !in failing;
      if ok {
        frames := frames[conn := M.Received(frames, conn) + [payload]];
      } else {
        broken := broken + {conn};
      }
    }

    method SendToUser(user: string, payload: M.Frame, bypass: bool, redisOk: bool, failing: set<Conn>)
      returns (r: Result<()>)
      requires Valid()
      modifies this
      ensures Valid() && fresh(Owners.Keys - old(Owners.Keys))
      ensures r == M.SendResult(old(Model()), user, bypass, redisOk)
      ensures user !in old(clients) ==> r == Err(NotConnected)
      ensures user in old(clients) && !redisOk ==> r == Err(RedisFault)
      ensures user in old(clients) && redisOk && user !in redis ==> r == Err(NotFound)
      ensures user in old(clients) && redisOk && user in redis ==>
        r == if bypass || redis[user].enableNotification then Ok(()) else Err(NotificationsDisabled)
      ensures Model() == M.SendToUser(old(Model()), user, payload, bypass, redisOk, failing)
    {
      if user !in clients {
        return Err(NotConnected);
      }
      var info := GetClientInfo(user, redisOk);
      if info.Err? {
        return Err(info.error);
      }
      if !bypass && !info.value.enableNotification {
        return Err(NotificationsDisabled);
      }
      BroadcastAndPrune(user, payload, failing);
      r := Ok(());
    }

    // The rest of sendToUser: write to all, keep in the map the connections that took it
    method BroadcastAndPrune(user: string, payload: M.Frame, failing: set<Conn>)
      requires Valid() && user in clients
      modifies this`clients, this`Lists, this`Owners, this`frames, this`broken
      ensures Valid() && fresh(Owners.Keys - old(Owners.Keys))
      ensures Lists == old(Lists)[user := M.Healthy(old(Lists)[user], old(broken) + failing)]
      ensures frames == M.Deliver(old(frames), old(Lists)[user], old(broken) + failing, payload)
      ensures broken == old(broken) + set c | c in old(Lists)[user] && c in failing
    {
      assert Holds(user);
      var activeConns := Broadcast(clients[user], payload, failing);
      forall u | u in clients
        ensures Holds(u)
      {
        assert old(Holds(u));
      }
      Put(user, activeConns);
    }

    // The write loop: the connections that took the payload are collected in a new slice.
    method Broadcast(conns: Slice, payload: M.Frame, failing: set<Conn>) returns (activeConns: Slice)
      requires conns.WellFormed()
      modifies this`frames, this`broken
      ensures activeConns.WellFormed() && (activeConns.Slice? ==> fresh(activeConns.backing))
      ensures activeConns.Elems() == M.Healthy(conns.Elems(), old(broken) + failing)
      ensures frames == M.Deliver(old(frames), conns.Elems(), old(broken) + failing, payload)
      ensures broken == old(broken) + set c | c in conns.Elems() && c in failing
    {
      activeConns := Nil;
      ghost var list, bad := conns.Elems(), broken + failing;
      var n := if conns.Nil? then 0 else conns.len;
      for i := 0 to n
        invariant conns.Elems() == list
        invariant activeConns.WellFormed() && (activeConns.Slice? ==> fresh(activeConns.backing))
        invariant activeConns.Elems() == M.Healthy(list[..i], bad)
        invariant frames == M.Deliver(old(frames), list[..i], bad, payload)
        invariant broken == old(broken) + set c | c in list[..i] && c in failing
      {
        var conn := conns.backing[i];
        assert conn == list[i] && list[..i + 1][..i] == list[..i];
        assert forall c :: c in list[..i + 1] <==> c in list[..i] || c == conn;
        var ok := WriteMessage(conn, payload, failing);
        if !ok {
          continue;
        }
        activeConns := Append(activeConns, conn);
      }
      assert list[..n] == list;
    }
  }
}
