/**
 * Specification of the driver's batched transactions, its connection
 * registry and the environment they run against (internal/driver/driver.go).
 * The class in driver.dfy is proved to follow these functions step by step;
 * the lemmas here state what they promise.
 */
module Batch {
  import opened Wrappers
  import opened Address

  // ---------------------------------------------------------------- data

  /** One 4-byte scratch buffer of a transaction item. */
  type Buffer = b: seq<bv8> | |b| == 4 witness [0, 0, 0, 0]

  const ZeroBuffer: Buffer := [0, 0, 0, 0]

  /** The addressing part of a gos7 data item; its buffer is named by index. */
  datatype DataItem = DataItem(area: int, wordLen: int, dbNumber: int, start: int, amount: int)

  function ItemOf(d: DBInfo): DataItem {
    DataItem(d.area, d.wordLength, d.dbNumber, d.start, d.amount)
  }

  /** A dynamically typed value: a protocol property or a command value's payload. */
  datatype Value = IntValue(i: int) | TextValue(s: string) | BoolValue(b: bool) | OtherValue

  type Properties = map<string, Value>
  type Protocols = map<string, Properties>

  /** A read or write request for one device resource; nodeName is its `NodeName` attribute. */
  datatype Request = Request(resourceName: string, nodeName: string, valueType: string)

  datatype CommandValue = CommandValue(resourceName: string, valueType: string, value: Value)

  /**
   * The value codec, which lives in libraries outside this model: encode fills a
   * buffer from a write parameter; decode turns a read buffer of a supported
   * type into the content of that request's result slot.
   */
  datatype Codec = Codec(encode: (string, CommandValue) -> Buffer,
                         decode: (Request, Buffer) -> Option<CommandValue>)

  /** The value types a read can decode; any other leaves the result slot empty. */
  const ReadTypes: seq<string> := ["Bool", "String", "Uint8", "Uint16", "Uint32", "Uint64",
                                   "Int8", "Int16", "Int32", "Int64", "Float32", "Float64"]

  /** A client as the registry holds it; generation tells apart successive constructions. */
  datatype Client = Client(deviceName: string, generation: nat, connected: bool)

  /**
   * The network, as an oracle: whether a TCP handler can be created for a
   * configuration, whether the connection of the generation-th client succeeds,
   * whether the k-th multi-item transport call succeeds, and what a successful
   * read returns for one item.
   */
  datatype Network = Network(handler: (string, Protocols) -> bool,
                             connects: (string, nat) -> bool,
                             transport: nat -> bool,
                             memory: DataItem -> Buffer)

  // ---------------------------------------------------------------- chunks

  const BatchSize := 16
  const RetryTimes := 3

  /** The number of chunks: n/16 full ones, and one more holding the n%16 remaining. */
  function NumChunks(n: nat): nat {
    n / BatchSize + if n % BatchSize > 0 then 1 else 0
  }

  function ChunkStart(j: nat): nat { j * BatchSize }

  /** End of chunk j; every chunk is non-empty, holds at most 16 requests and the next begins where it ends. */
  function ChunkEnd(j: nat, n: nat): (e: nat)
    requires j < NumChunks(n)
    ensures ChunkStart(j) < e <= n && e - ChunkStart(j) <= BatchSize
    ensures j + 1 < NumChunks(n) ==> e == ChunkStart(j + 1)
    ensures j + 1 == NumChunks(n) ==> e == n
  {
    if j < n / BatchSize then j * BatchSize + BatchSize else n
  }

  /** There are ceil(n/16) chunks. */
  lemma NumChunksIsCeiling(n: nat)
    ensures NumChunks(n) == (n + BatchSize - 1) / BatchSize
    ensures (NumChunks(n) - 1) * BatchSize < n <= NumChunks(n) * BatchSize || n == 0
  {
  }

  /** Every request index lies in exactly one chunk, chunk k/16. */
  lemma ChunkOfIndex(n: nat, k: nat)
    requires k < n
    ensures k / BatchSize < NumChunks(n)
    ensures ChunkStart(k / BatchSize) <= k < ChunkEnd(k / BatchSize, n)
    ensures forall j: nat :: j < NumChunks(n) && ChunkStart(j) <= k < ChunkEnd(j, n) ==> j == k / BatchSize
  {
    forall j: nat | j < NumChunks(n) && ChunkStart(j) <= k < ChunkEnd(j, n)
      ensures j == k / BatchSize
    {
      assert j * BatchSize <= k < j * BatchSize + BatchSize;
    }
  }

  function Range(lo: nat, hi: nat): (r: seq<nat>)
    requires lo <= hi
    ensures |r| == hi - lo && forall k :: 0 <= k < |r| ==> r[k] == lo + k
  {
    seq(hi - lo, k requires 0 <= k < hi - lo => lo + k)
  }

  lemma {:induction false} RangeAppend(lo: nat, mid: nat, hi: nat)
    requires lo <= mid <= hi
    ensures Range(lo, mid) + Range(mid, hi) == Range(lo, hi)
  {
    assert |Range(lo, mid) + Range(mid, hi)| == hi - lo;
  }

  // ---------------------------------------------------------------- registry

  /** The state a transaction sees: its current client, the registry map and the two counters. */
  datatype Link = Link(client: Option<Client>, clients: map<string, Option<Client>>,
                       generation: nat, calls: nat)

  /** NewS7Client: a client for the device, connected or not, or none when no handler can be made. */
  function NewClient(net: Network, dev: string, prot: Protocols, generation: nat): (c: Option<Client>)
    ensures c.Some? <==> net.handler(dev, prot)
    ensures c.Some? ==> c.value.deviceName == dev && c.value.generation == generation
  {
    if net.handler(dev, prot) then Some(Client(dev, generation, net.connects(dev, generation))) else None
  }

  function NextGeneration(net: Network, dev: string, prot: Protocols, generation: nat): nat {
    if net.handler(dev, prot) then generation + 1 else generation
  }

  /** getS7Client: reuse a cached client, otherwise build one and cache whatever was built. */
  function Acquire(net: Network, dev: string, prot: Protocols, l: Link): (r: Link)
    ensures r.calls == l.calls
    ensures dev in l.clients && l.clients[dev].Some? ==>
      r == l.(client := l.clients[dev])
    ensures !(dev in l.clients && l.clients[dev].Some?) ==>
      && r.client == NewClient(net, dev, prot, l.generation)
      && r.clients == l.clients[dev := r.client]
      && r.generation == NextGeneration(net, dev, prot, l.generation)
  {
    if dev in l.clients && l.clients[dev].Some? then l.(client := l.clients[dev])
    else
      var c := NewClient(net, dev, prot, l.generation);
      l.(client := c, clients := l.clients[dev := c],
         generation := NextGeneration(net, dev, prot, l.generation))
  }

  /** After a failed call: the entry is set to nil and the client re-acquired, which rebuilds it. */
  function Rebuild(net: Network, dev: string, prot: Protocols, l: Link): (r: Link)
    ensures r.client.Some? ==> r.client.value.generation == l.generation && r.generation == l.generation + 1
  {
    Acquire(net, dev, prot, l.(clients := l.clients[dev := None]))
  }

  /**
   * Acquiring twice is acquiring once: whatever the first call built, or
   * failed to build, is what the second finds (a failed build is retried,
   * and fails again without side effect).
   */
  lemma AcquireIdempotent(net: Network, dev: string, prot: Protocols, l: Link)
    ensures var a := Acquire(net, dev, prot, l);
      Acquire(net, dev, prot, a) == a
  {
  }

  // ---------------------------------------------------------------- retry

  datatype Attempts = Delivered(link: Link) | Exhausted(link: Link) | Crash(link: Link)

  /**
   * The retry loop of one chunk with `tries` attempts left: a nil client is
   * dereferenced (Crash); a successful call ends the loop; a failed one
   * rebuilds the client and, while attempts remain, tries again.
   */
  function Retry(net: Network, dev: string, prot: Protocols, l: Link, tries: nat): (r: Attempts)
    requires tries >= 1
    ensures r.Crash? ==> r.link.client.None?
    decreases tries
  {
    if l.client.None? then Crash(l)
    else if net.transport(l.calls) then Delivered(l.(calls := l.calls + 1))
    else
      var l' := Rebuild(net, dev, prot, l.(calls := l.calls + 1));
      if tries == 1 then Exhausted(l') else Retry(net, dev, prot, l', tries - 1)
  }

  /**
   * One turn of the retry loop: a nil client crashes, a successful call
   * delivers, and a failed one rebuilds the client and, while attempts
   * remain, goes on.
   */
  lemma RetryStep(net: Network, dev: string, prot: Protocols, l: Link, tries: nat)
    requires tries >= 1
    ensures l.client.None? ==> Retry(net, dev, prot, l, tries) == Crash(l)
    ensures l.client.Some? && net.transport(l.calls) ==>
      Retry(net, dev, prot, l, tries) == Delivered(l.(calls := l.calls + 1))
    ensures var l' := Rebuild(net, dev, prot, l.(calls := l.calls + 1));
      l.client.Some? && !net.transport(l.calls) ==>
      Retry(net, dev, prot, l, tries) == if tries == 1 then Exhausted(l') else Retry(net, dev, prot, l', tries - 1)
  {
  }

  /**
   * At most `tries` transport calls are made, consecutive in the call count;
   * a delivery happens on the first call that succeeds, and exhaustion means
   * every one of the `tries` calls failed.
   */
  lemma {:induction false} RetryBound(net: Network, dev: string, prot: Protocols, l: Link, tries: nat)
    requires tries >= 1
    ensures var o := Retry(net, dev, prot, l, tries);
      && l.calls <= o.link.calls <= l.calls + tries
      && (forall a :: l.calls <= a < o.link.calls - (if o.Delivered? then 1 else 0) ==> !net.transport(a))
      && (o.Delivered? ==> o.link.calls > l.calls && net.transport(o.link.calls - 1))
      && (o.Exhausted? ==> o.link.calls == l.calls + tries)
    decreases tries
  {
    if l.client.Some? && !net.transport(l.calls) && tries > 1 {
      RetryBound(net, dev, prot, Rebuild(net, dev, prot, l.(calls := l.calls + 1)), tries - 1);
    }
  }

  /**
   * When a handler can always be made and the chunk starts with a client, the
   * retry loop never crashes, and every failed call rebuilds the device's
   * registry entry with a fresh client: the generation counter grows by the
   * number of failed calls and the entry holds the newest client.
   */
  lemma {:induction false} RetryRebuilds(net: Network, dev: string, prot: Protocols, l: Link, tries: nat)
    requires tries >= 1 && net.handler(dev, prot) && l.client.Some?
    ensures var o := Retry(net, dev, prot, l, tries);
      var failures := o.link.calls - l.calls - (if o.Delivered? then 1 else 0);
      && failures >= 0
      && !o.Crash?
      && o.link.client.Some?
      && o.link.generation == l.generation + failures
      && (failures == 0 ==> o.link.clients == l.clients && o.link.client == l.client)
      && (failures > 0 ==>
            o.link.clients == l.clients[dev := o.link.client]
            && o.link.client == Some(Client(dev, o.link.generation - 1, net.connects(dev, o.link.generation - 1))))
    decreases tries
  {
    if !net.transport(l.calls) && tries > 1 {
      var l' := Rebuild(net, dev, prot, l.(calls := l.calls + 1));
      RetryRebuilds(net, dev, prot, l', tries - 1);
      assert l'.clients == l.clients[dev := l'.client];
    }
  }

  /** With a handler, a rebuild after a failed call always yields a fresh client. */
  lemma RebuildFresh(net: Network, dev: string, prot: Protocols, l: Link)
    requires net.handler(dev, prot)
    ensures var l' := Rebuild(net, dev, prot, l);
      l'.client.Some? && l'.calls == l.calls && l'.generation == l.generation + 1
  {
  }

  /** A chunk whose first two calls fail and third succeeds is delivered after two rebuilds. */
  lemma TwoFailuresThenSuccess(net: Network, dev: string, prot: Protocols, l: Link)
    requires net.handler(dev, prot) && l.client.Some?
    requires !net.transport(l.calls) && !net.transport(l.calls + 1) && net.transport(l.calls + 2)
    ensures var o := Retry(net, dev, prot, l, RetryTimes);
      o.Delivered? && o.link.calls == l.calls + 3 && o.link.generation == l.generation + 2
  {
    var l1 := Rebuild(net, dev, prot, l.(calls := l.calls + 1));
    RebuildFresh(net, dev, prot, l.(calls := l.calls + 1));
    RetryStep(net, dev, prot, l, 3);
    var l2 := Rebuild(net, dev, prot, l1.(calls := l1.calls + 1));
    RebuildFresh(net, dev, prot, l1.(calls := l1.calls + 1));
    RetryStep(net, dev, prot, l1, 2);
    assert Retry(net, dev, prot, l2, 1) == Delivered(l2.(calls := l2.calls + 1));
  }

  /** A chunk whose three calls all fail is abandoned after three calls and three rebuilds. */
  lemma ThreeFailures(net: Network, dev: string, prot: Protocols, l: Link)
    requires net.handler(dev, prot) && l.client.Some?
    requires !net.transport(l.calls) && !net.transport(l.calls + 1) && !net.transport(l.calls + 2)
    ensures var o := Retry(net, dev, prot, l, RetryTimes);
      o.Exhausted? && o.link.calls == l.calls + 3 && o.link.generation == l.generation + 3
      && o.link.client.Some?
  {
    var l1 := Rebuild(net, dev, prot, l.(calls := l.calls + 1));
    RebuildFresh(net, dev, prot, l.(calls := l.calls + 1));
    RetryStep(net, dev, prot, l, 3);
    var l2 := Rebuild(net, dev, prot, l1.(calls := l1.calls + 1));
    RebuildFresh(net, dev, prot, l1.(calls := l1.calls + 1));
    RetryStep(net, dev, prot, l1, 2);
    RebuildFresh(net, dev, prot, l2.(calls := l2.calls + 1));
    RetryStep(net, dev, prot, l2, 1);
  }

  // ---------------------------------------------------------------- the chunk loop

  /** The descriptors of requests lo..hi-1 all exist; a missing one is dereferenced as nil. */
  predicate Resolved(descs: seq<Option<DBInfo>>, lo: nat, hi: nat)
    requires lo <= hi <= |descs|
  {
    forall k | lo <= k < hi :: descs[k].Some?
  }

  /** The descriptor of every request's NodeName attribute. */
  function Resolve(reqs: seq<Request>): (descs: seq<Option<DBInfo>>)
    ensures |descs| == |reqs|
    ensures forall i :: 0 <= i < |reqs| ==> descs[i] == GetDBInfo(reqs[i].nodeName)
  {
    seq(|reqs|, i requires 0 <= i < |reqs| => GetDBInfo(reqs[i].nodeName))
  }

  /** The buffers after a successful read of requests lo..hi-1: each holds what the PLC returned for its own item. */
  function Fill(buffers: seq<Buffer>, descs: seq<Option<DBInfo>>, lo: nat, hi: nat,
                memory: DataItem -> Buffer): (r: seq<Buffer>)
    requires |buffers| == |descs| && lo <= hi <= |descs| && Resolved(descs, lo, hi)
    ensures |r| == |buffers|
    ensures forall k :: 0 <= k < |r| ==>
      r[k] == if lo <= k < hi then memory(ItemOf(descs[k].value)) else buffers[k]
  {
    seq(|buffers|, k requires 0 <= k < |buffers| => FillOne(buffers, descs, lo, hi, memory, k))
  }

  function FillOne(buffers: seq<Buffer>, descs: seq<Option<DBInfo>>, lo: nat, hi: nat,
                   memory: DataItem -> Buffer, k: nat): Buffer
    requires |buffers| == |descs| && lo <= hi <= |descs| && Resolved(descs, lo, hi) && k < |buffers|
  {
    if lo <= k < hi then memory(ItemOf(descs[k].value)) else buffers[k]
  }

  /**
   * The state of one read or write call: the link, the scratch buffers, whether
   * the last transport call failed (Go's `err`), whether the call crashed on a
   * nil client, and the request indices whose chunk was delivered, in order.
   */
  datatype Run = Run(link: Link, buffers: seq<Buffer>, failed: bool, crashed: bool, delivered: seq<nat>)

  /**
   * The chunk loop from chunk j on. A chunk holding an unresolved address
   * crashes; otherwise it goes through the retry loop. A failed chunk only
   * sets `failed`, which the next chunk overwrites; a delivered read chunk
   * fills its requests' buffers.
   */
  function RunChunks(net: Network, dev: string, prot: Protocols, descs: seq<Option<DBInfo>>,
                     fill: bool, j: nat, r: Run): (r': Run)
    requires |r.buffers| == |descs|
    ensures |r'.buffers| == |descs|
    decreases NumChunks(|descs|) - j
  {
    if r.crashed || j >= NumChunks(|descs|) then r
    else
      var lo, hi := ChunkStart(j), ChunkEnd(j, |descs|);
      if !Resolved(descs, lo, hi) then r.(crashed := true)
      else
        match Retry(net, dev, prot, r.link, RetryTimes)
        case Crash(l) => r.(link := l, crashed := true)
        case Exhausted(l) => RunChunks(net, dev, prot, descs, fill, j + 1, r.(link := l, failed := true))
        case Delivered(l) =>
          RunChunks(net, dev, prot, descs, fill, j + 1,
                    r.(link := l, failed := false,
                       buffers := if fill then Fill(r.buffers, descs, lo, hi, net.memory) else r.buffers,
                       delivered := r.delivered + Range(lo, hi)))
  }

  /** One turn of the chunk loop, for a chunk whose addresses all resolve. */
  lemma ChunkStep(net: Network, dev: string, prot: Protocols, descs: seq<Option<DBInfo>>,
                  fill: bool, j: nat, r: Run)
    requires |r.buffers| == |descs| && j < NumChunks(|descs|) && !r.crashed
    requires Resolved(descs, ChunkStart(j), ChunkEnd(j, |descs|))
    ensures var lo, hi := ChunkStart(j), ChunkEnd(j, |descs|);
      var o := Retry(net, dev, prot, r.link, RetryTimes);
      RunChunks(net, dev, prot, descs, fill, j, r) ==
        if o.Crash? then r.(link := o.link, crashed := true)
        else if o.Exhausted? then RunChunks(net, dev, prot, descs, fill, j + 1, r.(link := o.link, failed := true))
        else RunChunks(net, dev, prot, descs, fill, j + 1,
                       r.(link := o.link, failed := false,
                          buffers := if fill then Fill(r.buffers, descs, lo, hi, net.memory) else r.buffers,
                          delivered := r.delivered + Range(lo, hi)))
  {
  }

  function Min(a: nat, b: nat): nat { if a < b then a else b }

  /**
   * When every transport call succeeds, chunks j.. are each sent once: one
   * call per chunk, no rebuild, every remaining request delivered in order,
   * and on a read every remaining buffer holds the PLC's value for its own
   * request.
   */
  lemma {:induction false} AllDelivered(net: Network, dev: string, prot: Protocols,
                                        descs: seq<Option<DBInfo>>, fill: bool, j: nat, r: Run)
    requires |r.buffers| == |descs| && j <= NumChunks(|descs|)
    requires forall a :: net.transport(a)
    requires r.link.client.Some? && !r.crashed && Resolved(descs, 0, |descs|)
    ensures var r' := RunChunks(net, dev, prot, descs, fill, j, r);
      && !r'.crashed
      && (j < NumChunks(|descs|) ==> !r'.failed)
      && r'.link.calls == r.link.calls + NumChunks(|descs|) - j
      && r'.link.clients == r.link.clients && r'.link.generation == r.link.generation
      && r'.delivered == r.delivered + Range(Min(ChunkStart(j), |descs|), |descs|)
      && forall k :: 0 <= k < |descs| ==>
           r'.buffers[k] == if fill && k >= ChunkStart(j) then net.memory(ItemOf(descs[k].value)) else r.buffers[k]
    decreases NumChunks(|descs|) - j
  {
    var n := |descs|;
    if j == NumChunks(n) {
      assert ChunkStart(j) >= n;
    } else {
      var lo, hi := ChunkStart(j), ChunkEnd(j, n);
      var l := r.link.(calls := r.link.calls + 1);
      assert Retry(net, dev, prot, r.link, RetryTimes) == Delivered(l);
      var next := r.(link := l, failed := false,
                     buffers := if fill then Fill(r.buffers, descs, lo, hi, net.memory) else r.buffers,
                     delivered := r.delivered + Range(lo, hi));
      AllDelivered(net, dev, prot, descs, fill, j + 1, next);
      if j + 1 < NumChunks(n) {
        RangeAppend(lo, hi, n);
      } else {
        assert ChunkStart(j + 1) >= n;
      }
    }
  }

  /**
   * When every transport call fails (and handlers can be made), each chunk
   * j.. makes three calls and three rebuilds and nothing is delivered; the
   * call ends with `failed` set.
   */
  lemma {:induction false} AllFailing(net: Network, dev: string, prot: Protocols,
                                      descs: seq<Option<DBInfo>>, fill: bool, j: nat, r: Run)
    requires |r.buffers| == |descs| && j <= NumChunks(|descs|)
    requires forall a :: !net.transport(a)
    requires net.handler(dev, prot)
    requires r.link.client.Some? && !r.crashed && Resolved(descs, 0, |descs|)
    ensures var r' := RunChunks(net, dev, prot, descs, fill, j, r);
      && !r'.crashed
      && (j < NumChunks(|descs|) ==> r'.failed)
      && r'.link.calls == r.link.calls + RetryTimes * (NumChunks(|descs|) - j)
      && r'.link.generation == r.link.generation + RetryTimes * (NumChunks(|descs|) - j)
      && r'.delivered == r.delivered
      && r'.buffers == r.buffers
    decreases NumChunks(|descs|) - j
  {
    var n := |descs|;
    if j < NumChunks(n) {
      ThreeFailures(net, dev, prot, r.link);
      var o := Retry(net, dev, prot, r.link, RetryTimes);
      AllFailing(net, dev, prot, descs, fill, j + 1, r.(link := o.link, failed := true));
    }
  }

  /**
   * A failed chunk is swallowed when a later one succeeds: with 17 requests,
   * if the first chunk fails three times and the second succeeds, the call
   * reports no failure although request 0 was never delivered and its buffer
   * was never filled.
   */
  lemma SwallowedFailure(net: Network, dev: string, prot: Protocols,
                         descs: seq<Option<DBInfo>>, r: Run)
    requires |descs| == 17 && |r.buffers| == 17 && Resolved(descs, 0, 17)
    requires net.handler(dev, prot) && r.link.client.Some? && !r.crashed && !r.failed
    requires var c := r.link.calls;
      !net.transport(c) && !net.transport(c + 1) && !net.transport(c + 2) && net.transport(c + 3)
    ensures var r' := RunChunks(net, dev, prot, descs, true, 0, r);
      && !r'.crashed && !r'.failed
      && r'.delivered == r.delivered + [16]
      && r'.buffers[0] == r.buffers[0]
  {
    ThreeFailures(net, dev, prot, r.link);
    RetryRebuilds(net, dev, prot, r.link, RetryTimes);
    var o := Retry(net, dev, prot, r.link, RetryTimes);
    var r1 := r.(link := o.link, failed := true);
    assert RunChunks(net, dev, prot, descs, true, 0, r) == RunChunks(net, dev, prot, descs, true, 1, r1);
    var l2 := o.link.(calls := o.link.calls + 1);
    assert Retry(net, dev, prot, o.link, RetryTimes) == Delivered(l2);
    assert NumChunks(17) == 2 && ChunkEnd(1, 17) == 17;
    assert Resolved(descs, 16, 17);
    var r2 := r1.(link := l2, failed := false, buffers := Fill(r1.buffers, descs, 16, 17, net.memory),
                  delivered := r1.delivered + Range(16, 17));
    assert RunChunks(net, dev, prot, descs, true, 1, r1) == RunChunks(net, dev, prot, descs, true, 2, r2) == r2;
    assert Range(16, 17) == [16];
  }

  /** Appending a chunk's indices to ones below the chunk keeps them all below its end. */
  lemma DeliveredBelow(delivered: seq<nat>, lo: nat, hi: nat)
    requires lo <= hi && forall x :: x in delivered ==> x < lo
    ensures forall x :: x in delivered + Range(lo, hi) ==> x < hi
  {
    forall x | x in delivered + Range(lo, hi) ensures x < hi {
      if x !in delivered {
        var k :| 0 <= k < hi - lo && Range(lo, hi)[k] == x;
      }
    }
  }

  /**
   * Only the last chunk decides `failed`: a run from chunk j that does not
   * crash ends failed exactly when the last request, which only the last
   * chunk carries, was not delivered; what the earlier chunks did is
   * forgotten.
   */
  lemma {:induction false} FailedIsLastChunk(net: Network, dev: string, prot: Protocols,
                                             descs: seq<Option<DBInfo>>, fill: bool, j: nat, r: Run)
    requires |r.buffers| == |descs| && j < NumChunks(|descs|) && !r.crashed
    requires forall x :: x in r.delivered ==> x < ChunkStart(j)
    ensures var r' := RunChunks(net, dev, prot, descs, fill, j, r);
      !r'.crashed ==> (r'.failed <==> |descs| - 1 !in r'.delivered)
    decreases NumChunks(|descs|) - j
  {
    var n := |descs|;
    var lo, hi := ChunkStart(j), ChunkEnd(j, n);
    if Resolved(descs, lo, hi) {
      ChunkStep(net, dev, prot, descs, fill, j, r);
      var o := Retry(net, dev, prot, r.link, RetryTimes);
      if o.Exhausted? {
        var next := r.(link := o.link, failed := true);
        if j + 1 < NumChunks(n) {
          FailedIsLastChunk(net, dev, prot, descs, fill, j + 1, next);
        } else {
          assert RunChunks(net, dev, prot, descs, fill, j + 1, next) == next;
          assert n - 1 !in next.delivered;
        }
      } else if o.Delivered? {
        var next := r.(link := o.link, failed := false,
                       buffers := if fill then Fill(r.buffers, descs, lo, hi, net.memory) else r.buffers,
                       delivered := r.delivered + Range(lo, hi));
        DeliveredBelow(r.delivered, lo, hi);
        if j + 1 < NumChunks(n) {
          FailedIsLastChunk(net, dev, prot, descs, fill, j + 1, next);
        } else {
          assert RunChunks(net, dev, prot, descs, fill, j + 1, next) == next;
          assert Range(lo, hi)[n - 1 - lo] == n - 1;
        }
      }
    }
  }

  // ---------------------------------------------------------------- whole calls

  /** What a driver entry point returns: success, a returned error, or a Go panic. */
  datatype Status = Ok | Failed | Panicked

  /**
   * The outcome of a read or write call: its status, the read results, the
   * link state left behind (a panic keeps what was done before it) and the
   * request indices whose chunk the PLC accepted.
   */
  datatype Reply = Reply(status: Status, values: seq<Option<CommandValue>>, link: Link, delivered: seq<nat>)

  /** The result slot of one read request: only the supported types are decoded. */
  function Decoded(req: Request, buffer: Buffer, codec: Codec): (r: Option<CommandValue>)
    ensures req.valueType !in ReadTypes ==> r.None?
    ensures req.valueType in ReadTypes ==> r == codec.decode(req, buffer)
  {
    if req.valueType in ReadTypes then codec.decode(req, buffer) else None
  }

  /** The read results: one slot per request, each made from its own request and buffer only. */
  function Results(reqs: seq<Request>, buffers: seq<Buffer>, codec: Codec): (r: seq<Option<CommandValue>>)
    requires |buffers| == |reqs|
    ensures |r| == |reqs|
    ensures forall i :: 0 <= i < |reqs| ==> r[i] == Decoded(reqs[i], buffers[i], codec)
  {
    seq(|reqs|, i requires 0 <= i < |reqs| => Decoded(reqs[i], buffers[i], codec))
  }

  /** The write buffers: request i's parameter encoded, whether or not encoding reported an error. */
  function Encoded(reqs: seq<Request>, params: seq<CommandValue>, codec: Codec): (r: seq<Buffer>)
    requires |params| >= |reqs|
    ensures |r| == |reqs|
    ensures forall i :: 0 <= i < |reqs| ==> r[i] == codec.encode(reqs[i].valueType, params[i])
  {
    seq(|reqs|, i requires 0 <= i < |reqs| => EncodeOne(reqs[i], params[i], codec))
  }

  function EncodeOne(req: Request, param: CommandValue, codec: Codec): Buffer {
    codec.encode(req.valueType, param)
  }

  function Zeros(n: nat): (r: seq<Buffer>)
    ensures |r| == n && forall i :: 0 <= i < n ==> r[i] == ZeroBuffer
  {
    seq(n, _ => ZeroBuffer)
  }

  /**
   * HandleReadCommands on a live registry: an empty request list panics;
   * otherwise the client is acquired, the chunks are read into zeroed
   * buffers, and the buffers are decoded. The returned error is that of the
   * last chunk.
   */
  function ReadCall(net: Network, dev: string, prot: Protocols, reqs: seq<Request>,
                    codec: Codec, l: Link): (rep: Reply)
    ensures rep.status == Panicked ==> rep.values == []
    ensures rep.status != Panicked ==> |rep.values| == |reqs| > 0
    ensures |reqs| == 0 ==> rep.status == Panicked && rep.link == l
  {
    if |reqs| == 0 then Reply(Panicked, [], l, [])
    else
      var r := RunChunks(net, dev, prot, Resolve(reqs), true, 0,
                         Run(Acquire(net, dev, prot, l), Zeros(|reqs|), false, false, []));
      if r.crashed then Reply(Panicked, [], r.link, r.delivered)
      else Reply(if r.failed then Failed else Ok, Results(reqs, r.buffers, codec), r.link, r.delivered)
  }

  /** A write gets past its preparation: requests exist, each has a parameter and an address that resolves. */
  predicate Writable(reqs: seq<Request>, params: seq<CommandValue>) {
    |reqs| > 0 && |params| >= |reqs| && Resolved(Resolve(reqs), 0, |reqs|)
  }

  /**
   * HandleWriteCommands on a live registry: every request is prepared first,
   * so an empty list, a missing parameter or an unresolved address panics
   * before the registry is touched; then the client is acquired and the
   * encoded buffers are sent chunk by chunk. Transport errors are never
   * returned.
   */
  function WriteCall(net: Network, dev: string, prot: Protocols, reqs: seq<Request>,
                     params: seq<CommandValue>, codec: Codec, l: Link): (rep: Reply)
    ensures rep.values == [] && rep.status != Failed
    ensures |reqs| == 0 || |params| < |reqs| ==> rep.status == Panicked && rep.link == l
  {
    if !Writable(reqs, params) then Reply(Panicked, [], l, [])
    else
      var r := RunChunks(net, dev, prot, Resolve(reqs), false, 0,
                         Run(Acquire(net, dev, prot, l), Encoded(reqs, params, codec), false, false, []));
      Reply(if r.crashed then Panicked else Ok, [], r.link, r.delivered)
  }

  /**
   * A read whose every transport call succeeds: one call per chunk, every
   * request delivered in order, and result i is request i's type decoded
   * from what the PLC holds at request i's own address.
   */
  lemma ReadAllDelivered(net: Network, dev: string, prot: Protocols, reqs: seq<Request>, codec: Codec, l: Link)
    requires |reqs| > 0 && Resolved(Resolve(reqs), 0, |reqs|)
    requires Acquire(net, dev, prot, l).client.Some? && forall a :: net.transport(a)
    ensures var rep := ReadCall(net, dev, prot, reqs, codec, l);
      && rep.status == Ok
      && rep.delivered == Range(0, |reqs|)
      && rep.link.calls == l.calls + NumChunks(|reqs|)
      && rep.link.clients == Acquire(net, dev, prot, l).clients
      && forall i :: 0 <= i < |reqs| ==>
           rep.values[i] == Decoded(reqs[i], net.memory(ItemOf(Resolve(reqs)[i].value)), codec)
  {
    var descs := Resolve(reqs);
    var a := Acquire(net, dev, prot, l);
    var r := RunChunks(net, dev, prot, descs, true, 0, Run(a, Zeros(|reqs|), false, false, []));
    AllDelivered(net, dev, prot, descs, true, 0, Run(a, Zeros(|reqs|), false, false, []));
    assert ReadCall(net, dev, prot, reqs, codec, l) == Reply(Ok, Results(reqs, r.buffers, codec), r.link, r.delivered);
  }

  /**
   * A read whose every transport call fails reports the failure; each
   * result is decoded from an untouched zero buffer, and every chunk made
   * three calls.
   */
  lemma ReadAllFailing(net: Network, dev: string, prot: Protocols, reqs: seq<Request>, codec: Codec, l: Link)
    requires |reqs| > 0 && Resolved(Resolve(reqs), 0, |reqs|)
    requires net.handler(dev, prot) && forall a :: !net.transport(a)
    ensures var rep := ReadCall(net, dev, prot, reqs, codec, l);
      && rep.status == Failed
      && rep.delivered == []
      && rep.link.calls == l.calls + RetryTimes * NumChunks(|reqs|)
      && forall i :: 0 <= i < |reqs| ==> rep.values[i] == Decoded(reqs[i], ZeroBuffer, codec)
  {
    var a := Acquire(net, dev, prot, l);
    AllFailing(net, dev, prot, Resolve(reqs), true, 0, Run(a, Zeros(|reqs|), false, false, []));
  }

  /**
   * A read that does not panic reports an error exactly when its last chunk
   * was not delivered, whatever happened to the chunks before it.
   */
  lemma ReadFailedIsLastChunk(net: Network, dev: string, prot: Protocols, reqs: seq<Request>, codec: Codec, l: Link)
    ensures var rep := ReadCall(net, dev, prot, reqs, codec, l);
      rep.status != Panicked ==> (rep.status == Failed <==> |reqs| - 1 !in rep.delivered)
  {
    if |reqs| > 0 {
      FailedIsLastChunk(net, dev, prot, Resolve(reqs), true, 0,
                        Run(Acquire(net, dev, prot, l), Zeros(|reqs|), false, false, []));
    }
  }

  /**
   * A write whose every transport call fails still reports success, although
   * nothing was delivered.
   */
  lemma WriteFailureHidden(net: Network, dev: string, prot: Protocols, reqs: seq<Request>,
                           params: seq<CommandValue>, codec: Codec, l: Link)
    requires |reqs| > 0 && |params| >= |reqs| && Resolved(Resolve(reqs), 0, |reqs|)
    requires net.handler(dev, prot) && forall a :: !net.transport(a)
    ensures var rep := WriteCall(net, dev, prot, reqs, params, codec, l);
      rep.status == Ok && rep.delivered == [] && rep.link.calls == l.calls + RetryTimes * NumChunks(|reqs|)
  {
    var a := Acquire(net, dev, prot, l);
    AllFailing(net, dev, prot, Resolve(reqs), false, 0, Run(a, Encoded(reqs, params, codec), false, false, []));
  }

  /** An unresolved address anywhere in a write panics before anything is sent or acquired. */
  lemma WriteUnresolvedPanics(net: Network, dev: string, prot: Protocols, reqs: seq<Request>,
                              params: seq<CommandValue>, codec: Codec, l: Link, k: nat)
    requires k < |reqs| && GetDBInfo(reqs[k].nodeName).None?
    ensures var rep := WriteCall(net, dev, prot, reqs, params, codec, l);
      rep.status == Panicked && rep.link == l && rep.delivered == []
  {
    assert Resolve(reqs)[k].None?;
  }

  /**
   * A write whose every transport call succeeds delivers every request once,
   * in order, with one call per chunk.
   */
  lemma WriteAllDelivered(net: Network, dev: string, prot: Protocols, reqs: seq<Request>,
                          params: seq<CommandValue>, codec: Codec, l: Link)
    requires |reqs| > 0 && |params| >= |reqs| && Resolved(Resolve(reqs), 0, |reqs|)
    requires Acquire(net, dev, prot, l).client.Some? && forall a :: net.transport(a)
    ensures var rep := WriteCall(net, dev, prot, reqs, params, codec, l);
      rep.status == Ok && rep.delivered == Range(0, |reqs|) && rep.link.calls == l.calls + NumChunks(|reqs|)
  {
    var a := Acquire(net, dev, prot, l);
    AllDelivered(net, dev, prot, Resolve(reqs), false, 0, Run(a, Encoded(reqs, params, codec), false, false, []));
  }

  // ---------------------------------------------------------------- initial population

  datatype Device = Device(name: string, protocols: Protocols)

  /**
   * Initialize's loop from a given map and generation: each device in turn
   * gets a new client, and those that could be built are stored.
   */
  function Populate(net: Network, devices: seq<Device>, clients: map<string, Option<Client>>, generation: nat)
    : (r: (map<string, Option<Client>>, nat))
    ensures r.1 >= generation
    ensures clients.Keys <= r.0.Keys
    decreases |devices|
  {
    if devices == [] then (clients, generation)
    else
      var d := devices[0];
      var c := NewClient(net, d.name, d.protocols, generation);
      Populate(net, devices[1..], if c.Some? then clients[d.name := c] else clients,
               NextGeneration(net, d.name, d.protocols, generation))
  }

  /** The names of the devices for which a client can be built. */
  function Buildable(net: Network, devices: seq<Device>): set<string> {
    set d | d in devices && net.handler(d.name, d.protocols) :: d.name
  }

  lemma BuildableCons(net: Network, devices: seq<Device>)
    requires devices != []
    ensures Buildable(net, devices) ==
      (if net.handler(devices[0].name, devices[0].protocols) then {devices[0].name} else {})
      + Buildable(net, devices[1..])
  {
    assert forall e :: e in devices <==> e == devices[0] || e in devices[1..];
  }

  /**
   * After the initial population the registry holds exactly the devices it
   * held before plus those for which a client could be built, and every
   * entry it adds or replaces holds a client.
   */
  lemma {:induction false} PopulateKeys(net: Network, devices: seq<Device>,
                                        clients: map<string, Option<Client>>, generation: nat)
    ensures var m := Populate(net, devices, clients, generation).0;
      && m.Keys == clients.Keys + Buildable(net, devices)
      && (forall name :: name in m ==> (name in clients && m[name] == clients[name]) || m[name].Some?)
    decreases |devices|
  {
    if devices != [] {
      var d := devices[0];
      var c := NewClient(net, d.name, d.protocols, generation);
      var next := if c.Some? then clients[d.name := c] else clients;
      PopulateKeys(net, devices[1..], next, NextGeneration(net, d.name, d.protocols, generation));
      BuildableCons(net, devices);
      assert next.Keys == clients.Keys + (if c.Some? then {d.name} else {});
    }
  }
}
