/** The 64-slot ring buffer between the state machine and the daemon's main loop, and the
    bounded first-in first-out queue it implements. */
module SignalRing {
  import opened PortalMachine

  const MAX_ITEMS := 64

  /** A 32-bit client id; the largest one marks "no client". */
  type ClientId = id: int | 0 <= id < 0x1_0000_0000
  const INVALID_CLIENT: ClientId := 0xFFFF_FFFF

  datatype Entry = Entry(signal: Signal, clientId: ClientId)

  // ---- The queue ----

  function Enqueue(queue: seq<Entry>, entry: Entry): seq<Entry> {
    if |queue| < MAX_ITEMS then queue + [entry] else queue
  }

  /** A queue after entries were pushed one by one: as many as fit are kept, in order. */
  function EnqueueAll(queue: seq<Entry>, entries: seq<Entry>): seq<Entry>
    requires |queue| <= MAX_ITEMS
  {
    var room := MAX_ITEMS - |queue|;
    queue + if |entries| <= room then entries else entries[..room]
  }

  lemma EnqueueOneMore(queue: seq<Entry>, entries: seq<Entry>, entry: Entry)
    requires |queue| <= MAX_ITEMS
    ensures EnqueueAll(queue, entries + [entry]) == Enqueue(EnqueueAll(queue, entries), entry)
  {
    var room := MAX_ITEMS - |queue|;
    if |entries| < room {
      assert queue + (entries + [entry]) == (queue + entries) + [entry];
    } else {
      assert (entries + [entry])[..room] == entries[..room];
    }
  }

  datatype Op = Push(entry: Entry) | Pop

  /** The queue together with everything it ever accepted and handed out. */
  datatype History = History(queue: seq<Entry>, accepted: seq<Entry>, popped: seq<Entry>)

  function Record(h: History, op: Op): History {
    match op
    case Push(entry) =>
      if |h.queue| < MAX_ITEMS then h.(queue := Enqueue(h.queue, entry), accepted := h.accepted + [entry]) else h
    case Pop =>
      if h.queue == [] then h else h.(queue := h.queue[1..], popped := h.popped + [h.queue[0]])
  }

  function Replay(ops: seq<Op>): History {
    if ops == [] then History([], [], []) else Record(Replay(ops[..|ops|-1]), ops[|ops|-1])
  }

  /** Over any interleaving of pushes and pops the entries come out as they went in, none
      lost, doubled or reordered, and never more than 64 are waiting. */
  lemma {:induction false} FirstInFirstOut(ops: seq<Op>)
    ensures var h := Replay(ops);
            h.accepted == h.popped + h.queue && |h.queue| <= MAX_ITEMS
  {
    if ops != [] {
      FirstInFirstOut(ops[..|ops|-1]);
    }
  }

  // ---- The ring buffer ----

  /** The array index of the `k`-th queued entry. */
  function Index(readOffset: nat, k: nat): nat {
    (readOffset + k) % MAX_ITEMS
  }

  class Ring {
    ghost var contents: seq<Entry>  // the queued entries, oldest first

    var readOffset: nat
    var size: nat
    const signals: array<Signal>
    const clientIds: array<ClientId>

    ghost predicate Valid()
      reads this, signals, clientIds
    {
      && readOffset < MAX_ITEMS && size <= MAX_ITEMS
      && signals.Length == MAX_ITEMS && clientIds.Length == MAX_ITEMS
      && |contents| == size
      && forall k :: 0 <= k < size ==>
        contents[k] == Entry(signals[Index(readOffset, k)], clientIds[Index(readOffset, k)])
    }

    constructor ()
      ensures Valid() && contents == []
      ensures fresh(signals) && fresh(clientIds)
    {
      readOffset, size := 0, 0;
      signals := new Signal[MAX_ITEMS](_ => OpenDoorB);
      clientIds := new ClientId[MAX_ITEMS](_ => 0);
      contents := [];
    }

    /** Appends an entry, or refuses it when 64 are waiting. */
    method Push(signal: Signal, clientId: ClientId) returns (ok: bool)
      requires Valid()
      modifies this, signals, clientIds
      ensures Valid()
      ensures ok <==> |old(contents)| < MAX_ITEMS
      ensures contents == Enqueue(old(contents), Entry(signal, clientId))
    {
      if size >= MAX_ITEMS {
        return false;
      }
      var writeIndex := (readOffset + size) % MAX_ITEMS;
      signals[writeIndex] := signal;
      clientIds[writeIndex] := clientId;
      size := size + 1;
      assert forall k | 0 <= k < size - 1 :: Index(readOffset, k) != writeIndex;
      contents := contents + [Entry(signal, clientId)];
      return true;
    }

    /** Removes the oldest entry, if there is one. */
    method Pop() returns (ok: bool, signal: Signal, clientId: ClientId)
      requires Valid()
      modifies this
      ensures Valid()
      ensures ok <==> old(contents) != []
      ensures ok ==> old(contents) == [Entry(signal, clientId)] + contents
      ensures !ok ==> contents == []
    {
      if size == 0 {
        return false, OpenDoorB, INVALID_CLIENT;
      }
      signal, clientId := signals[readOffset], clientIds[readOffset];
      size := size - 1;
      readOffset := readOffset + 1;
      readOffset := readOffset % MAX_ITEMS;
      assert forall k | 0 <= k < size :: Index(readOffset, k) == Index(old(readOffset), k + 1);
      contents := contents[1..];
      return true, signal, clientId;
    }
  }
}
