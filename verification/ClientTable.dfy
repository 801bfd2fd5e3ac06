/** The table of connected IPC clients: a swap-remove stack of sockets with a parallel array
    of client records, addressed by wrapping 32-bit ids. */
module ClientTable {
  import opened SignalRing

  const FIRST_IPC := 3
  const LIMIT := 32

  datatype DisconnectFlag = OnLocked | OnOpen | OnNoChange | OnError

  datatype ClientInfo = ClientInfo(clientId: ClientId, flags: set<DisconnectFlag>, forwardLogs: bool)

  /** A connected client: its socket and its record. */
  datatype Connection = Connection(fd: int, info: ClientInfo)

  // What memset leaves in a slot that was vacated: the byte 0xAA throughout.
  const POISON_FD: int := 0xAAAA_AAAA - 0x1_0000_0000
  const POISON_INFO := ClientInfo(0xAAAA_AAAA, {OnOpen, OnError}, true)

  // ---- Removing by swapping with the last ----

  function SwapRemove<T>(s: seq<T>, i: nat): (r: seq<T>)
    requires i < |s|
    ensures |r| == |s| - 1
  {
    s[i := s[|s|-1]][..|s|-1]
  }

  lemma SwapRemoveTakesOne<T>(s: seq<T>, i: nat)
    requires i < |s|
    ensures multiset(SwapRemove(s, i)) + multiset{s[i]} == multiset(s)
  {
    var last := s[|s|-1];
    assert s == s[..|s|-1] + [last];
    if i < |s| - 1 {
      var t := s[..|s|-1];
      assert SwapRemove(s, i) == t[i := last];
    } else {
      assert SwapRemove(s, i) == s[..|s|-1];
    }
  }

  predicate Hit(c: Connection, flags: set<DisconnectFlag>) {
    c.info.flags * flags != {}
  }

  /** The connections left by a sweep that removes, from index `i` on, all clients having
      one of the flags. */
  function Sweep(s: seq<Connection>, i: nat, flags: set<DisconnectFlag>): seq<Connection>
    requires i <= |s|
    decreases |s| - i
  {
    if i == |s| then s
    else if Hit(s[i], flags) then Sweep(SwapRemove(s, i), i, flags)
    else Sweep(s, i + 1, flags)
  }

  /** The clients having none of the flags, in their order. */
  function Survivors(s: seq<Connection>, flags: set<DisconnectFlag>): seq<Connection> {
    if s == [] then []
    else if Hit(s[0], flags) then Survivors(s[1..], flags)
    else [s[0]] + Survivors(s[1..], flags)
  }

  lemma {:induction false} SurvivorsOfConcat(a: seq<Connection>, b: seq<Connection>, flags: set<DisconnectFlag>)
    ensures Survivors(a + b, flags) == Survivors(a, flags) + Survivors(b, flags)
  {
    if a == [] {
      assert a + b == b;
    } else {
      assert (a + b)[1..] == a[1..] + b;
      SurvivorsOfConcat(a[1..], b, flags);
    }
  }

  lemma {:induction false} SurvivorsOfKept(s: seq<Connection>, flags: set<DisconnectFlag>)
    requires forall c <- s :: !Hit(c, flags)
    ensures Survivors(s, flags) == s
  {
    if s != [] {
      SurvivorsOfKept(s[1..], flags);
    }
  }

  /** Removing a hit client by swapping keeps the same survivors, up to their order. */
  lemma SwapRemoveKeepsSurvivors(s: seq<Connection>, i: nat, flags: set<DisconnectFlag>)
    requires i < |s| && Hit(s[i], flags)
    ensures multiset(Survivors(SwapRemove(s, i), flags)) == multiset(Survivors(s, flags))
  {
    var n := |s| - 1;
    if i == n {
      assert s == s[..n] + [s[n]];
      SurvivorsOfConcat(s[..n], [s[n]], flags);
      assert SwapRemove(s, i) == s[..n];
    } else {
      var front, middle, last := s[..i], s[i+1..n], [s[n]];
      assert s == front + ([s[i]] + (middle + last));
      assert SwapRemove(s, i) == front + (last + middle);
      SurvivorsOfConcat(front, [s[i]] + (middle + last), flags);
      SurvivorsOfConcat([s[i]], middle + last, flags);
      SurvivorsOfConcat(middle, last, flags);
      SurvivorsOfConcat(front, last + middle, flags);
      SurvivorsOfConcat(last, middle, flags);
    }
  }

  lemma {:induction false} SweepFrom(s: seq<Connection>, i: nat, flags: set<DisconnectFlag>)
    requires i <= |s| && forall k :: 0 <= k < i ==> !Hit(s[k], flags)
    ensures multiset(Sweep(s, i, flags)) == multiset(Survivors(s, flags))
    decreases |s| - i
  {
    if i == |s| {
      SurvivorsOfKept(s, flags);
    } else if Hit(s[i], flags) {
      SwapRemoveKeepsSurvivors(s, i, flags);
      SweepFrom(SwapRemove(s, i), i, flags);
    } else {
      SweepFrom(s, i + 1, flags);
    }
  }

  /** A sweep removes exactly the clients having one of the flags: every other connection
      is still there, socket and record together and as often as before. */
  lemma SweepIsExact(s: seq<Connection>, flags: set<DisconnectFlag>)
    ensures multiset(Sweep(s, 0, flags)) == multiset(Survivors(s, flags))
  {
    SweepFrom(s, 0, flags);
  }

  // ---- Client ids ----

  ghost function Ids(s: seq<Connection>): set<ClientId> {
    set c | c in s :: c.info.clientId
  }

  ghost predicate DistinctIds(s: seq<Connection>) {
    forall i, j :: 0 <= i < j < |s| ==> s[i].info.clientId != s[j].info.clientId
  }

  /** The table's standing promise: live ids are distinct and valid, and the next id to be
      handed out is valid and not in use. */
  ghost predicate IdsInOrder(s: seq<Connection>, nextId: ClientId) {
    && DistinctIds(s)
    && nextId != INVALID_CLIENT
    && nextId !in Ids(s)
    && INVALID_CLIENT !in Ids(s)
  }

  /** The id after `id`: 32-bit wrap-around that skips the invalid id. */
  function Successor(id: ClientId): ClientId {
    var incremented := (id + 1) % 0x1_0000_0000;
    if incremented == INVALID_CLIENT then (incremented + 1) % 0x1_0000_0000 else incremented
  }

  /** How many increments lead from one valid id to another. */
  function Distance(from: ClientId, to: ClientId): nat {
    if from <= to then to - from else to - from + 0xFFFF_FFFF
  }

  lemma {:induction false} Pigeons<T>(a: set<T>, b: set<T>)
    requires a <= b
    ensures |a| <= |b|
  {
    if a != {} {
      var x :| x in a;
      Pigeons(a - {x}, b - {x});
    }
  }

  lemma SuccessorIsOneFurther(start: ClientId, id: ClientId)
    requires start != INVALID_CLIENT && id != INVALID_CLIENT && Distance(start, id) < LIMIT
    ensures Successor(id) != INVALID_CLIENT
    ensures Distance(start, Successor(id)) == Distance(start, id) + 1
  {
  }

  /** Each of the `n` valid ids after `start` is in the set. */
  ghost predicate AllBetween(start: ClientId, n: int, ids: set<ClientId>) {
    forall id: ClientId :: id != INVALID_CLIENT && 0 < Distance(start, id) <= n ==> id in ids
  }

  /** The scan for a free id has come from `start` to `id`, and all ids it tried are held. */
  ghost predicate Scanned(start: ClientId, id: ClientId, tried: set<ClientId>, held: set<ClientId>) {
    && start != INVALID_CLIENT && id != INVALID_CLIENT
    && Distance(start, id) == |tried|
    && (forall other <- tried :: other in held && Distance(start, other) <= |tried|)
    && AllBetween(start, |tried|, held)
  }

  /** The next id either ends the scan or is one more of the few that are held: by the
      pigeonhole principle the scan cannot go on for ever. */
  lemma ScanGoesOn(start: ClientId, id: ClientId, tried: set<ClientId>, held: set<ClientId>)
    requires Scanned(start, id, tried, held) && |held| < LIMIT
    ensures var id' := Successor(id);
            && id' != INVALID_CLIENT && id' != start && Distance(start, id') == |tried| + 1
            && (id' in held ==> Scanned(start, id', tried + {id'}, held) && |tried| < |tried + {id'}| <= |held|)
  {
    Pigeons(tried, held);
    SuccessorIsOneFurther(start, id);
    var id' := Successor(id);
    assert id' !in tried;
    assert |tried + {id'}| == |tried| + 1;
    if id' in held {
      Pigeons(tried + {id'}, held);
    }
  }

  function SlotIds(slots: seq<ClientInfo>): set<ClientId> {
    set s <- slots :: s.clientId
  }

  lemma {:induction false} FewSlotIds(slots: seq<ClientInfo>)
    ensures |SlotIds(slots)| <= |slots|
  {
    if slots != [] {
      FewSlotIds(slots[1..]);
      assert SlotIds(slots) == {slots[0].clientId} + SlotIds(slots[1..]);
    }
  }

  lemma RemovalKeepsIdsInOrder(s: seq<Connection>, i: nat, nextId: ClientId)
    requires i < |s| && IdsInOrder(s, nextId)
    ensures IdsInOrder(SwapRemove(s, i), nextId)
    ensures forall c :: c in SwapRemove(s, i) <==> c in s && c.info.clientId != s[i].info.clientId
  {
    var r := SwapRemove(s, i);
    forall c | c in s && c.info.clientId != s[i].info.clientId
      ensures c in r
    {
      var k :| 0 <= k < |s| && s[k] == c;
      assert r[if k == |s| - 1 then i else k] == c;
    }
    assert forall c <- r :: c in s;
  }

  lemma {:induction false} SurvivorsMembers(s: seq<Connection>, flags: set<DisconnectFlag>)
    ensures forall c :: c in Survivors(s, flags) <==> c in s && !Hit(c, flags)
  {
    if s != [] {
      SurvivorsMembers(s[1..], flags);
    }
  }

  lemma SweepMembers(s: seq<Connection>, flags: set<DisconnectFlag>)
    ensures forall c :: c in Sweep(s, 0, flags) <==> c in s && !Hit(c, flags)
  {
    SweepIsExact(s, flags);
    SurvivorsMembers(s, flags);
    forall c: Connection
      ensures c in Sweep(s, 0, flags) <==> c in Survivors(s, flags)
    {
      assert c in Sweep(s, 0, flags) <==> c in multiset(Sweep(s, 0, flags));
      assert c in Survivors(s, flags) <==> c in multiset(Survivors(s, flags));
    }
  }

  lemma {:induction false} SweepKeepsIdsInOrder(s: seq<Connection>, i: nat, flags: set<DisconnectFlag>, nextId: ClientId)
    requires i <= |s| && IdsInOrder(s, nextId)
    ensures IdsInOrder(Sweep(s, i, flags), nextId)
    decreases |s| - i
  {
    if i == |s| {
    } else if Hit(s[i], flags) {
      RemovalKeepsIdsInOrder(s, i, nextId);
      SweepKeepsIdsInOrder(SwapRemove(s, i), i, flags, nextId);
    } else {
      SweepKeepsIdsInOrder(s, i + 1, flags, nextId);
    }
  }

  lemma AdditionKeepsIdsInOrder(s: seq<Connection>, c: Connection, nextId: ClientId)
    requires IdsInOrder(s, c.info.clientId) && nextId != INVALID_CLIENT && nextId != c.info.clientId
    requires forall b <- s :: b.info.clientId != nextId
    ensures IdsInOrder(s + [c], nextId)
  {
    assert forall b <- s + [c] :: b in s || b == c;
    assert forall b <- s :: b.info.clientId in Ids(s);
  }

  function Sockets(s: seq<Connection>): (fds: seq<int>)
    ensures |fds| == |s|
  {
    seq(|s|, i requires 0 <= i < |s| => s[i].fd)
  }

  lemma RemovalReleasesSocket(s: seq<Connection>, i: nat)
    requires i < |s|
    ensures multiset(Sockets(SwapRemove(s, i))) + multiset{s[i].fd} == multiset(Sockets(s))
  {
    assert Sockets(SwapRemove(s, i)) == SwapRemove(Sockets(s), i);
    SwapRemoveTakesOne(Sockets(s), i);
  }

  function Marked(s: seq<Connection>, i: nat, flags: set<DisconnectFlag>): seq<Connection>
    requires i < |s|
  {
    s[i := s[i].(info := s[i].info.(forwardLogs := true, flags := s[i].info.flags + flags))]
  }

  /** The sockets a sweep closes, in the order it closes them. */
  function Released(s: seq<Connection>, i: nat, flags: set<DisconnectFlag>): seq<int>
    requires i <= |s|
    decreases |s| - i
  {
    if i == |s| then []
    else if Hit(s[i], flags) then [s[i].fd] + Released(SwapRemove(s, i), i, flags)
    else Released(s, i + 1, flags)
  }

  /** No socket is leaked or closed twice by a sweep. */
  lemma {:induction false} SweepReleasesSockets(s: seq<Connection>, i: nat, flags: set<DisconnectFlag>)
    requires i <= |s|
    ensures multiset(Released(s, i, flags)) + multiset(Sockets(Sweep(s, i, flags))) == multiset(Sockets(s))
    decreases |s| - i
  {
    if i == |s| {
    } else if Hit(s[i], flags) {
      SweepReleasesSockets(SwapRemove(s, i), i, flags);
      RemovalReleasesSocket(s, i);
    } else {
      SweepReleasesSockets(s, i + 1, flags);
    }
  }

  // ---- The table ----

  class Table {
    ghost var connections: seq<Connection>  // the connected clients, in slot order
    ghost var closed: seq<int>              // every client socket closed so far

    const fds: array<int>
    const infos: array<ClientInfo>
    var size: nat
    var nextId: ClientId

    ghost predicate Valid()
      reads this, fds, infos
    {
      && fds.Length == LIMIT && infos.Length == LIMIT
      && FIRST_IPC <= size <= LIMIT
      && |connections| == size - FIRST_IPC
      && (forall k :: 0 <= k < |connections| ==> connections[k] == Connection(fds[FIRST_IPC + k], infos[FIRST_IPC + k]))
      && IdsInOrder(connections, nextId)
    }

    constructor ()
      ensures Valid() && connections == [] && closed == [] && nextId == 0
      ensures fresh(fds) && fresh(infos)
    {
      fds := new int[LIMIT](_ => 0);
      infos := new ClientInfo[LIMIT](_ => ClientInfo(0, {}, false));
      size, nextId := FIRST_IPC, 0;
      connections, closed := [], [];
    }

    /** Whether some slot in use, filled or not, holds an id. */
    method IsHeld(id: ClientId) returns (held: bool)
      requires infos.Length == LIMIT && FIRST_IPC <= size <= LIMIT
      ensures held <==> id in SlotIds(infos[FIRST_IPC..size])
    {
      for i := FIRST_IPC to size
        invariant forall k :: FIRST_IPC <= k < i ==> infos[k].clientId != id
      {
        if infos[i].clientId == id {
          assert infos[FIRST_IPC..size][i - FIRST_IPC] == infos[i];
          return true;
        }
      }
      return false;
    }

    /** Hands out the stored id and moves on to the next one that no slot holds.  The scan
        covers the slot that is just being filled, whatever it still contains. */
    method FetchNextId() returns (id: ClientId)
      requires infos.Length == LIMIT && FIRST_IPC <= size <= LIMIT && nextId != INVALID_CLIENT
      modifies this`nextId
      ensures id == old(nextId) && nextId != INVALID_CLIENT && nextId != id
      ensures nextId !in SlotIds(infos[FIRST_IPC..size])
      ensures AllBetween(id, Distance(id, nextId) - 1, SlotIds(infos[FIRST_IPC..size]))
    {
      id := nextId;
      ghost var held := SlotIds(infos[FIRST_IPC..size]);
      ghost var tried: set<ClientId> := {};
      FewSlotIds(infos[FIRST_IPC..size]);
      while true
        invariant Scanned(id, nextId, tried, held)
        decreases |held| - |tried|
      {
        ScanGoesOn(id, nextId, tried, held);
        nextId := (nextId + 1) % 0x1_0000_0000;
        if nextId == INVALID_CLIENT {
          nextId := (nextId + 1) % 0x1_0000_0000;
        }
        var inUse := IsHeld(nextId);
        if !inUse {
          break;
        }
        tried := tried + {nextId};
      }
    }

    /** Takes in a client, unless all slots are taken. */
    method Add(fd: int) returns (index: nat)
      requires Valid()
      modifies this, fds, infos
      ensures Valid() && closed == old(closed) && fds[..FIRST_IPC] == old(fds[..FIRST_IPC])
      ensures old(size) == LIMIT ==> index == INVALID_CLIENT && connections == old(connections) && nextId == old(nextId)
      ensures old(size) < LIMIT ==>
        && index == old(size)
        && connections == old(connections) + [Connection(fd, ClientInfo(old(nextId), {}, false))]
    {
      if size >= LIMIT {
        return INVALID_CLIENT;
      }
      index := size;
      size := size + 1;
      fds[index] := fd;
      var id := FetchNextId();
      forall b <- connections
        ensures b.info.clientId != nextId
      {
        var k :| 0 <= k < |connections| && connections[k] == b;
        assert b.info == infos[FIRST_IPC + k] == infos[FIRST_IPC..size][k];
      }
      infos[index] := ClientInfo(id, {}, false);
      AdditionKeepsIdsInOrder(connections, Connection(fd, ClientInfo(id, {}, false)), nextId);
      connections := connections + [Connection(fd, ClientInfo(id, {}, false))];
    }

    /** Closes a client's socket and fills its slot with the last client. */
    method Remove(index: nat)
      requires Valid() && FIRST_IPC <= index < size
      modifies this, fds, infos
      ensures Valid() && nextId == old(nextId) && fds[..FIRST_IPC] == old(fds[..FIRST_IPC])
      ensures connections == SwapRemove(old(connections), index - FIRST_IPC)
      ensures closed == old(closed) + [old(connections)[index - FIRST_IPC].fd]
    {
      ghost var before, i := connections, index - FIRST_IPC;
      ghost var after := SwapRemove(before, i);
      assert IdsInOrder(after, nextId) by {
        RemovalKeepsIdsInOrder(before, i, nextId);
      }
      closed := closed + [fds[index]];
      fds[index] := fds[size - 1];
      infos[index] := infos[size - 1];
      size := size - 1;
      fds[size] := POISON_FD;
      infos[size] := POISON_INFO;
      connections := after;
      forall k | 0 <= k < |after|
        ensures after[k] == Connection(fds[FIRST_IPC + k], infos[FIRST_IPC + k])
      {
        assert after[k] == before[if k == i then |after| else k];
      }
    }

    /** Removes every client having one of the flags. */
    method RemoveAll(flags: set<DisconnectFlag>)
      requires Valid()
      modifies this, fds, infos
      ensures Valid() && nextId == old(nextId) && fds[..FIRST_IPC] == old(fds[..FIRST_IPC])
      ensures connections == Sweep(old(connections), 0, flags)
      ensures multiset(connections) == multiset(Survivors(old(connections), flags))
      ensures closed == old(closed) + Released(old(connections), 0, flags)
    {
      SweepIsExact(connections, flags);
      var i := FIRST_IPC;
      while i < size
        invariant Valid() && nextId == old(nextId) && fds[..FIRST_IPC] == old(fds[..FIRST_IPC])
        invariant FIRST_IPC <= i <= size
        invariant Sweep(connections, i - FIRST_IPC, flags) == Sweep(old(connections), 0, flags)
        invariant closed + Released(connections, i - FIRST_IPC, flags) == old(closed) + Released(old(connections), 0, flags)
        decreases size - i
      {
        if infos[i].flags * flags != {} {
          Remove(i);
        } else {
          i := i + 1;
        }
      }
    }

    /** Looks a client up by its id. */
    method FindById(id: ClientId) returns (index: nat)
      requires Valid()
      ensures index == INVALID_CLIENT <==> id !in Ids(connections)
      ensures index != INVALID_CLIENT ==>
        FIRST_IPC <= index < size && connections[index - FIRST_IPC].info.clientId == id
    {
      for i := FIRST_IPC to size
        invariant forall k :: 0 <= k < i - FIRST_IPC ==> connections[k].info.clientId != id
      {
        if infos[i].clientId == id {
          assert connections[i - FIRST_IPC] in connections;
          return i;
        }
      }
      return INVALID_CLIENT;
    }

    /** Notes what a client waits for and that it wants to see the log. */
    method Mark(index: nat, flags: set<DisconnectFlag>)
      requires Valid() && FIRST_IPC <= index < size
      modifies this, infos
      ensures Valid() && nextId == old(nextId) && closed == old(closed)
      ensures connections == Marked(old(connections), index - FIRST_IPC, flags)
    {
      infos[index] := infos[index].(forwardLogs := true, flags := infos[index].flags + flags);
      connections := Marked(connections, index - FIRST_IPC, flags);
    }
  }
}
