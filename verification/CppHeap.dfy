/**
  The C++ heap that the cmsutil classes share.  A pointer is an index into a list of cells that
  only grows; a cell keeps the object's fields and counts how often it was deleted, so that a
  leak, a double delete and a dangling pointer are all visible.  Calls into the provider are
  numbered, and an oracle says which of them fail.
 */
module CppHeap {
  import opened CacheKeys
  import opened Options

  type Ptr = nat

  /** The acknowledge modes that own a session pool: AUTO, DUPS_OK, CLIENT and TRANSACTED. */
  type AckMode = m: nat | m < NUM_POOLS

  const NUM_POOLS: nat := 4

  /** The objects that the template code allocates or asks the provider to allocate. */
  datatype Obj =
    | Connection
    | Session(connection: Ptr, mode: AckMode)
    | Destination(session: Ptr, dest: Dest)
    | RawClient(session: Ptr, client: Client)
    | SessionPool(connection: Ptr, mode: AckMode, available: seq<Ptr>, sessions: seq<Ptr>)
    | PooledSession(pool: Ptr, raw: Ptr, producerCache: map<string, Ptr>, consumerCache: map<string, Ptr>)
    | CachedClient(session: Ptr, client: Client, raw: Ptr)
    | SessionResolver(session: Ptr, topicMap: map<string, Ptr>, queueMap: map<string, Ptr>)
    | Message
    | Received

  datatype Cell = Cell(obj: Obj, deletes: nat)

  /** The numbered outcomes of provider calls: `o(n)` holds when the n-th call throws. */
  type Oracle = nat -> bool

  /** What the template does with provider objects once it has them, and with messages: starts a
      connection; runs a callback with a session and perhaps a producer; sets the two flags of a
      producer; has a message made in a session, sends it and drops it; receives.  Clients are
      the provider's own, behind their wrappers. */
  datatype Use =
    | Started(connection: Ptr)
    | CalledBack(session: Ptr, producer: Option<Ptr>)
    | SetMessageId(client: Ptr)
    | SetTimestamp(client: Ptr)
    | MadeMessage(session: Ptr)
    | Sent(client: Ptr, message: Ptr)
    | Dropped(message: Ptr)
    | ReceivedOn(client: Ptr)

  datatype Record = Record(use: Use, threw: bool)

  predicate Live(cells: seq<Cell>, p: Ptr) {
    p < |cells| && cells[p].deletes == 0
  }

  /** The heap after deleting every cell of a set once. */
  ghost function Kill(cells: seq<Cell>, dead: set<Ptr>): (r: seq<Cell>)
    ensures |r| == |cells|
    ensures forall p :: 0 <= p < |cells| ==>
      r[p] == if p in dead then Cell(cells[p].obj, cells[p].deletes + 1) else cells[p]
  {
    seq(|cells|, p requires 0 <= p < |cells| =>
      if p in dead then Cell(cells[p].obj, cells[p].deletes + 1) else cells[p])
  }

  lemma KillTwice(cells: seq<Cell>, a: set<Ptr>, b: set<Ptr>)
    requires a !! b
    ensures Kill(Kill(cells, a), b) == Kill(cells, a + b)
  {
  }

  datatype Event = Closed(p: Ptr) | Deleted(p: Ptr)

  /** The heap object: reading, writing and deleting require a live cell, so a verified caller
      neither follows a dangling pointer nor deletes twice. */
  class Heap {
    var cells: seq<Cell>
    var calls: nat
    var log: seq<Event>
    var trace: seq<Record>
    const oracle: Oracle

    constructor (oracle: Oracle)
      ensures cells == [] && calls == 0 && log == [] && trace == [] && this.oracle == oracle
    {
      cells, calls, log, trace := [], 0, [], [];
      this.oracle := oracle;
    }

    function Get(p: Ptr): Obj
      requires Live(cells, p)
      reads this
    {
      cells[p].obj
    }

    method New(obj: Obj) returns (p: Ptr)
      modifies this`cells
      ensures p == |old(cells)| && cells == old(cells) + [Cell(obj, 0)]
    {
      p := |cells|;
      cells := cells + [Cell(obj, 0)];
    }

    method Put(p: Ptr, obj: Obj)
      requires Live(cells, p)
      modifies this`cells
      ensures cells == old(cells)[p := Cell(obj, 0)]
    {
      cells := cells[p := Cell(obj, 0)];
    }

    method Delete(p: Ptr)
      requires Live(cells, p)
      modifies this`cells, this`log
      ensures cells == Kill(old(cells), {p})
      ensures log == old(log) + [Deleted(p)]
    {
      cells := cells[p := cells[p].(deletes := cells[p].deletes + 1)];
      log := log + [Deleted(p)];
      assert cells == Kill(old(cells), {p});
    }

    /** One provider call; the result says whether it threw. */
    method Call() returns (failed: bool)
      modifies this`calls
      ensures calls == old(calls) + 1 && failed == oracle(old(calls))
    {
      failed := oracle(calls);
      calls := calls + 1;
    }

    /** A provider call that is recorded. */
    method Invoke(use: Use) returns (failed: bool)
      modifies this`calls, this`trace
      ensures calls == old(calls) + 1 && failed == oracle(old(calls))
      ensures trace == old(trace) + [Record(use, failed)]
    {
      failed := Call();
      trace := trace + [Record(use, failed)];
    }

    /** Something recorded that is no provider call. */
    method Note(use: Use)
      modifies this`trace
      ensures trace == old(trace) + [Record(use, false)]
    {
      trace := trace + [Record(use, false)];
    }

    method Close(p: Ptr) returns (failed: bool)
      requires Live(cells, p)
      modifies this`calls, this`log
      ensures calls == old(calls) + 1 && failed == oracle(old(calls))
      ensures log == old(log) + [Closed(p)]
    {
      failed := Call();
      log := log + [Closed(p)];
    }
  }
}
