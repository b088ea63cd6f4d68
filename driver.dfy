/**
 * The S7 protocol driver (internal/driver/driver.go) as a class over its
 * client registry. Every method follows the Go code step by step and is
 * proved against the functions of module Batch.
 */
module S7Driver {
  import opened Wrappers
  import opened Address
  import opened Batch

  // ---------------------------------------------------------------- data items

  /** One gos7 data item as a transaction builds it: an address and the index of its scratch buffer. */
  datatype Item = Item(item: DataItem, slot: nat)

  /** The items of requests lo..i-1: request k's address, bound to buffer k. */
  function ChunkItems(descs: seq<Option<DBInfo>>, lo: nat, i: nat): (r: seq<Item>)
    requires lo <= i <= |descs| && Resolved(descs, lo, i)
    ensures |r| == i - lo
    ensures forall k :: 0 <= k < |r| ==> r[k] == Item(ItemOf(descs[lo + k].value), lo + k)
  {
    seq(i - lo, k requires 0 <= k < i - lo => Item(ItemOf(descs[lo + k].value), lo + k))
  }

  lemma ChunkItemsSnoc(descs: seq<Option<DBInfo>>, lo: nat, i: nat)
    requires lo <= i < |descs| && Resolved(descs, lo, i + 1)
    ensures ChunkItems(descs, lo, i + 1) == ChunkItems(descs, lo, i) + [Item(ItemOf(descs[i].value), i)]
  {
    assert ChunkItems(descs, lo, i + 1)[..i - lo] == ChunkItems(descs, lo, i);
  }

  /** What a successful multi-item read leaves in the buffers: each item's buffer holds the PLC's value for it. */
  function Deposit(buffers: seq<Buffer>, items: seq<Item>, memory: DataItem -> Buffer): (r: seq<Buffer>)
    requires forall it :: it in items ==> it.slot < |buffers|
    ensures |r| == |buffers|
    decreases |items|
  {
    if items == [] then buffers
    else
      var last := items[|items| - 1];
      Deposit(buffers, items[..|items| - 1], memory)[last.slot := memory(last.item)]
  }

  /** Depositing a chunk's items fills exactly that chunk's buffers, each from its own request's address. */
  lemma {:induction false} DepositChunk(buffers: seq<Buffer>, descs: seq<Option<DBInfo>>, lo: nat, hi: nat,
                                        memory: DataItem -> Buffer)
    requires |buffers| == |descs| && lo <= hi <= |descs| && Resolved(descs, lo, hi)
    ensures Deposit(buffers, ChunkItems(descs, lo, hi), memory) == Fill(buffers, descs, lo, hi, memory)
    decreases hi - lo
  {
    var items := ChunkItems(descs, lo, hi);
    if lo < hi {
      assert items[..|items| - 1] == ChunkItems(descs, lo, hi - 1);
      DepositChunk(buffers, descs, lo, hi - 1, memory);
      var prev := Fill(buffers, descs, lo, hi - 1, memory)[hi - 1 := memory(ItemOf(descs[hi - 1].value))];
      var next := Fill(buffers, descs, lo, hi, memory);
      assert |prev| == |next|;
      forall k | 0 <= k < |next| ensures prev[k] == next[k] {
      }
    } else {
      assert Fill(buffers, descs, lo, hi, memory) == buffers;
    }
  }

  // ---------------------------------------------------------------- device validation

  /** The name of the driver's protocol entry in a device's protocol map. */
  const ProtocolName := "s7"

  /** The value the two timeouts get when they cannot be read as integers. */
  const DefaultTimeout := 30

  /**
   * The conversions of the cast library, which lies outside this model:
   * whether a property (or its absence) converts to an integer or a string.
   */
  datatype Caster = Caster(toInt: Option<Value> -> bool, toStr: Option<Value> -> bool)

  datatype Check = StringField(key: string) | IntField(key: string)

  datatype ValidationError = MissingProtocol | BadField(key: string)

  /** The connection properties a device must have, in the order they are checked. */
  const RequiredFields: seq<Check> := [StringField("Host"), IntField("Port"), IntField("Rack"), IntField("Slot")]

  function Get(pp: Properties, key: string): Option<Value> {
    if key in pp then Some(pp[key]) else None
  }

  predicate Passes(c: Check, pp: Properties, cast: Caster) {
    match c
    case StringField(key) => cast.toStr(Get(pp, key))
    case IntField(key) => cast.toInt(Get(pp, key))
  }

  /** The key of the first check that fails, if any. */
  function FirstFailing(checks: seq<Check>, pp: Properties, cast: Caster): (r: Option<string>)
    ensures r.Some? ==> exists c :: c in checks && c.key == r.value && !Passes(c, pp, cast)
    decreases |checks|
  {
    if checks == [] then None
    else if !Passes(checks[0], pp, cast) then Some(checks[0].key)
    else FirstFailing(checks[1..], pp, cast)
  }

  /** FirstFailing finds nothing exactly when every check passes, and otherwise names the first check that fails. */
  lemma {:induction false} FirstFailingIsFirst(checks: seq<Check>, pp: Properties, cast: Caster)
    ensures var r := FirstFailing(checks, pp, cast);
      && (r.None? <==> forall i :: 0 <= i < |checks| ==> Passes(checks[i], pp, cast))
      && (r.Some? ==>
            exists i :: (0 <= i < |checks| && checks[i].key == r.value
              && !Passes(checks[i], pp, cast) && forall k :: 0 <= k < i ==> Passes(checks[k], pp, cast)))
    decreases |checks|
  {
    if checks != [] && Passes(checks[0], pp, cast) {
      var tail := checks[1..];
      FirstFailingIsFirst(tail, pp, cast);
      var r := FirstFailing(tail, pp, cast);
      if r.Some? {
        var i :| 0 <= i < |tail| && tail[i].key == r.value
          && !Passes(tail[i], pp, cast) && forall k :: 0 <= k < i ==> Passes(tail[k], pp, cast);
        assert checks[i + 1] == tail[i];
        forall k | 0 <= k < i + 1 ensures Passes(checks[k], pp, cast) {
          if k > 0 { assert checks[k] == tail[k - 1]; }
        }
      } else {
        forall i | 0 <= i < |checks| ensures Passes(checks[i], pp, cast) {
          if i > 0 { assert checks[i] == tail[i - 1]; }
        }
      }
    }
  }

  /** A timeout property after validation: kept when it reads as an integer, otherwise 30. */
  function Defaulted(pp: Properties, key: string, cast: Caster): (r: Properties)
    ensures Get(r, key) == if cast.toInt(Get(pp, key)) then Get(pp, key) else Some(IntValue(DefaultTimeout))
    ensures forall other :: other != key ==> Get(r, other) == Get(pp, other)
  {
    if cast.toInt(Get(pp, key)) then pp else pp[key := IntValue(DefaultTimeout)]
  }

  // ---------------------------------------------------------------- the driver

  class Driver {
    /** The environment: handler creation, connection, transport outcomes and PLC memory. */
    const net: Network
    /** The client registry, s7Clients; nilMap is true while the Go map is nil. */
    var clients: map<string, Option<Client>>
    var nilMap: bool
    /** Whether the logging client is set; until Initialize it is nil and every log call panics. */
    var logging: bool
    /** The number of clients built so far, and of multi-item transport calls made so far. */
    var generation: nat
    var calls: nat

    /** The registry as a transaction sees it, holding client c. */
    function State(c: Option<Client>): Link
      reads this
    {
      Link(c, clients, generation, calls)
    }

    /** A fresh driver, whose registry map and logging client are nil until Initialize. */
    constructor(net: Network)
      ensures this.net == net && nilMap && !logging && clients == map[] && generation == 0 && calls == 0
    {
      this.net := net;
      clients := map[];
      nilMap := true;
      logging := false;
      generation := 0;
      calls := 0;
    }

    /** NewS7Client: no client when no handler can be made; otherwise one, even when its connection failed. */
    method NewS7Client(dev: string, prot: Protocols) returns (c: Option<Client>)
      modifies this
      ensures c == NewClient(net, dev, prot, old(generation))
      ensures generation == NextGeneration(net, dev, prot, old(generation))
      ensures clients == old(clients) && nilMap == old(nilMap) && logging == old(logging) && calls == old(calls)
    {
      if !net.handler(dev, prot) {
        return None;
      }
      var connected := net.connects(dev, generation);
      c := Some(Client(dev, generation, connected));
      generation := generation + 1;
    }

    /** getS7Client: the cached client when there is one, otherwise a new one, which is cached even when absent. */
    method GetS7Client(dev: string, prot: Protocols) returns (c: Option<Client>)
      requires !nilMap
      modifies this
      ensures var a := Acquire(net, dev, prot, old(State(None)));
        c == a.client && State(c) == a && !nilMap && logging == old(logging)
    {
      c := if dev in clients then clients[dev] else None;
      if c.None? {
        c := NewS7Client(dev, prot);
        clients := clients[dev := c];
      }
    }

    /**
     * One chunk's transaction: the retry loop, then, for a delivered read,
     * the values the successful call wrote into the items' buffers.
     */
    method Transact(dev: string, prot: Protocols, client: Option<Client>, items: seq<Item>,
                    dataset: array<Buffer>, fill: bool)
      returns (delivered: bool, crashed: bool, c: Option<Client>)
      requires !nilMap
      requires forall it :: it in items ==> it.slot < dataset.Length
      modifies this, dataset
      ensures var o := Retry(net, dev, prot, old(State(client)), RetryTimes);
        && crashed == o.Crash? && delivered == o.Delivered?
        && State(c) == o.link && !nilMap && logging == old(logging)
      ensures dataset[..] == if fill && delivered then Deposit(old(dataset[..]), items, net.memory) else old(dataset[..])
    {
      delivered, crashed, c := RetryCalls(dev, prot, client);
      // the successful call itself wrote the items' buffers; nothing runs in between
      if delivered && fill {
        Receive(items, dataset);
      }
    }

    /**
     * The retry loop of one chunk: up to three multi-item calls; after each
     * failure the entry is cleared and the client re-acquired.
     */
    method RetryCalls(dev: string, prot: Protocols, client: Option<Client>)
      returns (delivered: bool, crashed: bool, c: Option<Client>)
      requires !nilMap
      modifies this
      ensures var o := Retry(net, dev, prot, old(State(client)), RetryTimes);
        && crashed == o.Crash? && delivered == o.Delivered?
        && State(c) == o.link && !nilMap && logging == old(logging)
    {
      c := client;
      delivered, crashed := false, false;
      var retrytimes := RetryTimes;
      ghost var outcome := Retry(net, dev, prot, State(client), RetryTimes);
      while true
        invariant 1 <= retrytimes <= RetryTimes && !nilMap && logging == old(logging) && !delivered && !crashed
        invariant outcome == Retry(net, dev, prot, State(c), retrytimes)
        decreases retrytimes
      {
        ghost var before := State(c);
        RetryStep(net, dev, prot, before, retrytimes);
        if c.None? {
          crashed := true;
          break;
        }
        var ok;
        ok, c := Attempt(dev, prot, c);
        if ok {
          delivered := true;
          break;
        }
        assert State(c) == Rebuild(net, dev, prot, before.(calls := before.calls + 1));
        retrytimes := retrytimes - 1;
        if retrytimes == 0 {
          break;
        }
      }
    }

    /**
     * One multi-item call of the retry loop: on failure the device's entry is
     * cleared and the client re-acquired.
     */
    method Attempt(dev: string, prot: Protocols, client: Option<Client>) returns (ok: bool, c: Option<Client>)
      requires !nilMap && client.Some?
      modifies this
      ensures ok == net.transport(old(calls)) && !nilMap && logging == old(logging)
      ensures var sent := old(State(client)).(calls := old(calls) + 1);
        State(c) == if ok then sent else Rebuild(net, dev, prot, sent)
    {
      ok := net.transport(calls);
      calls := calls + 1;
      c := client;
      if !ok {
        clients := clients[dev := None];
        c := GetS7Client(dev, prot);
      }
    }

    /** The data a successful multi-item read writes: each item's buffer receives the PLC's value. */
    method Receive(items: seq<Item>, dataset: array<Buffer>)
      requires forall it :: it in items ==> it.slot < dataset.Length
      modifies dataset
      ensures dataset[..] == Deposit(old(dataset[..]), items, net.memory)
    {
      for i := 0 to |items|
        invariant dataset[..] == Deposit(old(dataset[..]), items[..i], net.memory)
      {
        assert items[..i + 1][..i] == items[..i];
        dataset[items[i].slot] := net.memory(items[i].item);
      }
      assert items[..|items|] == items;
    }

    /**
     * The items of one chunk, built request by request; an address that does
     * not resolve is dereferenced as nil, which panics (ok is false).
     */
    method BuildItems(reqs: seq<Request>, lo: nat, hi: nat) returns (ok: bool, items: seq<Item>)
      requires lo <= hi <= |reqs|
      ensures ok <==> Resolved(Resolve(reqs), lo, hi)
      ensures ok ==> items == ChunkItems(Resolve(reqs), lo, hi)
    {
      ghost var descs := Resolve(reqs);
      items := [];
      var i := lo;
      while i < hi
        invariant lo <= i <= hi && Resolved(descs, lo, i) && items == ChunkItems(descs, lo, i)
      {
        var d := GetDBInfo(reqs[i].nodeName);
        assert d == descs[i];
        if d.None? {
          return false, [];
        }
        assert Resolved(descs, lo, i + 1);
        ChunkItemsSnoc(descs, lo, i);
        items := items + [Item(ItemOf(d.value), i)];
        i := i + 1;
      }
      ok := true;
    }

    /** The read results: each supported request decoded from its own buffer, the others left empty. */
    method DecodeResults(reqs: seq<Request>, dataset: array<Buffer>, codec: Codec)
      returns (res: seq<Option<CommandValue>>)
      requires dataset.Length == |reqs|
      ensures res == Results(reqs, dataset[..], codec)
    {
      var n := |reqs|;
      res := seq(n, _ => None);
      for i := 0 to n
        invariant |res| == n
        invariant forall k :: 0 <= k < i ==> res[k] == Decoded(reqs[k], dataset[k], codec)
        invariant forall k :: i <= k < n ==> res[k] == None
      {
        if reqs[i].valueType !in ReadTypes {
          continue;
        }
        res := res[i := codec.decode(reqs[i], dataset[i])];
      }
    }

    /**
     * One turn of a read's chunk loop, for chunk j = requests lo..hi-1: its
     * items are built and sent through the retry loop.
     */
    method ReadChunk(dev: string, prot: Protocols, reqs: seq<Request>, j: nat, lo: nat, hi: nat,
                     client: Option<Client>, dataset: array<Buffer>, ghost failed: bool, ghost delivered: seq<nat>)
      returns (crashed: bool, ok: bool, c: Option<Client>, ghost delivered': seq<nat>)
      requires !nilMap && dataset.Length == |reqs| && j < NumChunks(|reqs|)
      requires lo == ChunkStart(j) && hi == ChunkEnd(j, |reqs|)
      modifies this, dataset
      ensures !nilMap && logging == old(logging)
      ensures var before := Run(old(State(client)), old(dataset[..]), failed, false, delivered);
        var r := RunChunks(net, dev, prot, Resolve(reqs), true, j, before);
        && (crashed ==> r.crashed && State(None) == r.link.(client := None))
        && (!crashed ==> r == RunChunks(net, dev, prot, Resolve(reqs), true, j + 1,
                                        Run(State(c), dataset[..], !ok, false, delivered')))
    {
      ghost var descs := Resolve(reqs);
      ghost var before := Run(State(client), dataset[..], failed, false, delivered);
      var items;
      ok, items := BuildItems(reqs, lo, hi);
      if !ok {
        return true, ok, client, delivered;
      }
      ChunkStep(net, dev, prot, descs, true, j, before);
      ok, crashed, c := Transact(dev, prot, client, items, dataset, true);
      if !crashed {
        DepositChunk(before.buffers, descs, lo, hi, net.memory);
      }
      delivered' := if ok then delivered + Range(lo, hi) else delivered;
    }

    /**
     * The chunk loop of a read: n/16 full chunks, then one holding the n%16
     * requests that remain, if any.
     */
    method ReadChunks(dev: string, prot: Protocols, reqs: seq<Request>, client: Option<Client>, dataset: array<Buffer>)
      returns (crashed: bool, failed: bool)
      requires !nilMap && dataset.Length == |reqs|
      modifies this, dataset
      ensures var r := RunChunks(net, dev, prot, Resolve(reqs), true, 0,
                                 Run(old(State(client)), old(dataset[..]), false, false, []));
        && crashed == r.crashed && State(None) == r.link.(client := None) && !nilMap && logging == old(logging)
        && (!crashed ==> failed == r.failed && dataset[..] == r.buffers)
    {
      var n := |reqs|;
      var c := client;
      var times, remains := n / BatchSize, n % BatchSize;
      ghost var target := RunChunks(net, dev, prot, Resolve(reqs), true, 0, Run(State(c), dataset[..], false, false, []));
      ghost var delivered: seq<nat> := [];
      failed := false;
      var j := 0;
      while j <= times
        invariant j <= NumChunks(n) && !nilMap && logging == old(logging)
        invariant target == RunChunks(net, dev, prot, Resolve(reqs), true, j, Run(State(c), dataset[..], failed, false, delivered))
        invariant j > times ==> j == NumChunks(n)
      {
        var lo, hi;
        if j >= times {
          if remains > 0 {
            lo, hi := times * BatchSize, times * BatchSize + remains;
          } else {
            break;
          }
        } else {
          lo, hi := j * BatchSize, j * BatchSize + BatchSize;
        }
        var ok;
        crashed, ok, c, delivered := ReadChunk(dev, prot, reqs, j, lo, hi, c, dataset, failed, delivered);
        if crashed {
          return;
        }
        failed := !ok;
        j := j + 1;
      }
      crashed := false;
    }

    /**
     * HandleReadCommands: the opening log call panics before Initialize, as
     * does an empty request list; a nil registry map panics once the client
     * is built; otherwise the chunks are read into zeroed buffers and every
     * request gets its own decoded result.
     */
    method HandleReadCommands(dev: string, prot: Protocols, reqs: seq<Request>, codec: Codec)
      returns (status: Status, res: seq<Option<CommandValue>>)
      modifies this
      ensures !old(logging) ==> status == Panicked && res == [] && unchanged(this)
      ensures old(logging) && old(nilMap) && |reqs| > 0 ==>
        && status == Panicked && res == [] && nilMap && logging
        && clients == old(clients) && calls == old(calls)
        && generation == NextGeneration(net, dev, prot, old(generation))
      ensures old(logging) && (!old(nilMap) || |reqs| == 0) ==>
        var rep := ReadCall(net, dev, prot, reqs, codec, old(State(None)));
        status == rep.status && res == rep.values && State(None) == rep.link.(client := None)
        && nilMap == old(nilMap) && logging
    {
      if !logging || |reqs| == 0 {
        return Panicked, [];
      }
      if nilMap {
        var _ := NewS7Client(dev, prot);
        return Panicked, [];
      }
      var dataset := new Buffer[|reqs|](_ => ZeroBuffer);
      assert dataset[..] == Zeros(|reqs|);
      var c := GetS7Client(dev, prot);
      var crashed, failed := ReadChunks(dev, prot, reqs, c, dataset);
      if crashed {
        return Panicked, [];
      }
      res := DecodeResults(reqs, dataset, codec);
      status := if failed then Failed else Ok;
    }
  
    /**
     * The preparation of a write: every request in turn gets its parameter
     * encoded into its own buffer (even when encoding reports an error) and
     * its item built; a missing parameter or an unresolved address panics.
     */
    method PrepareWrite(reqs: seq<Request>, params: seq<CommandValue>, codec: Codec, dataset: array<Buffer>)
      returns (ok: bool, items: seq<Item>)
      requires dataset.Length == |reqs| > 0
      modifies dataset
      ensures ok <==> Writable(reqs, params)
      ensures ok ==> items == ChunkItems(Resolve(reqs), 0, |reqs|) && dataset[..] == Encoded(reqs, params, codec)
    {
      ghost var descs := Resolve(reqs);
      items := [];
      for i := 0 to |reqs|
        invariant i <= |params| && Resolved(descs, 0, i) && items == ChunkItems(descs, 0, i)
        invariant forall k :: 0 <= k < i ==> dataset[k] == EncodeOne(reqs[k], params[k], codec)
      {
        if i >= |params| {
          return false, [];
        }
        var d := GetDBInfo(reqs[i].nodeName);
        assert d == descs[i];
        dataset[i] := EncodeOne(reqs[i], params[i], codec);
        if d.None? {
          return false, [];
        }
        assert Resolved(descs, 0, i + 1);
        ChunkItemsSnoc(descs, 0, i);
        items := items + [Item(ItemOf(d.value), i)];
      }
      ok := true;
    }

    /** One turn of a write's chunk loop: the prepared items of chunk j go through the retry loop. */
    method WriteChunk(dev: string, prot: Protocols, reqs: seq<Request>, items: seq<Item>, j: nat, lo: nat, hi: nat,
                      client: Option<Client>, dataset: array<Buffer>, ghost failed: bool, ghost delivered: seq<nat>)
      returns (crashed: bool, ok: bool, c: Option<Client>, ghost delivered': seq<nat>)
      requires !nilMap && dataset.Length == |reqs| && j < NumChunks(|reqs|)
      requires Resolved(Resolve(reqs), 0, |reqs|) && items == ChunkItems(Resolve(reqs), 0, |reqs|)
      requires lo == ChunkStart(j) && hi == ChunkEnd(j, |reqs|)
      modifies this, dataset
      ensures !nilMap && logging == old(logging) && dataset[..] == old(dataset[..])
      ensures var before := Run(old(State(client)), old(dataset[..]), failed, false, delivered);
        var r := RunChunks(net, dev, prot, Resolve(reqs), false, j, before);
        && (crashed ==> r.crashed && State(None) == r.link.(client := None))
        && (!crashed ==> r == RunChunks(net, dev, prot, Resolve(reqs), false, j + 1,
                                        Run(State(c), dataset[..], !ok, false, delivered')))
    {
      ghost var descs := Resolve(reqs);
      ghost var before := Run(State(client), dataset[..], failed, false, delivered);
      assert items[lo..hi] == ChunkItems(descs, lo, hi);
      ChunkStep(net, dev, prot, descs, false, j, before);
      ok, crashed, c := Transact(dev, prot, client, items[lo..hi], dataset, false);
      delivered' := if ok then delivered + Range(lo, hi) else delivered;
    }

    /** The chunk loop of a write, over the prepared items; its transport errors are dropped. */
    method WriteChunks(dev: string, prot: Protocols, reqs: seq<Request>, items: seq<Item>,
                       client: Option<Client>, dataset: array<Buffer>)
      returns (crashed: bool)
      requires !nilMap && dataset.Length == |reqs|
      requires Resolved(Resolve(reqs), 0, |reqs|) && items == ChunkItems(Resolve(reqs), 0, |reqs|)
      modifies this, dataset
      ensures var r := RunChunks(net, dev, prot, Resolve(reqs), false, 0,
                                 Run(old(State(client)), old(dataset[..]), false, false, []));
        crashed == r.crashed && State(None) == r.link.(client := None) && !nilMap && logging == old(logging)
    {
      var n := |reqs|;
      var c := client;
      var times, remains := n / BatchSize, n % BatchSize;
      ghost var target := RunChunks(net, dev, prot, Resolve(reqs), false, 0, Run(State(c), dataset[..], false, false, []));
      ghost var delivered: seq<nat> := [];
      ghost var failed := false;
      var j := 0;
      while j <= times
        invariant j <= NumChunks(n) && !nilMap && logging == old(logging)
        invariant target == RunChunks(net, dev, prot, Resolve(reqs), false, j, Run(State(c), dataset[..], failed, false, delivered))
        invariant j > times ==> j == NumChunks(n)
      {
        var lo, hi;
        if j >= times {
          if remains > 0 {
            lo, hi := times * BatchSize, times * BatchSize + remains;
          } else {
            break;
          }
        } else {
          lo, hi := j * BatchSize, j * BatchSize + BatchSize;
        }
        var ok;
        crashed, ok, c, delivered := WriteChunk(dev, prot, reqs, items, j, lo, hi, c, dataset, failed, delivered);
        if crashed {
          return;
        }
        failed := !ok;
        j := j + 1;
      }
      crashed := false;
    }

    /**
     * HandleWriteCommands: the opening log call panics before Initialize, as
     * does an empty request list; then preparation (a panic there changes nothing),
     * then, on a nil registry map, a panic once the client is built;
     * otherwise the chunks are written and success is reported whatever the
     * transport said.
     */
    method HandleWriteCommands(dev: string, prot: Protocols, reqs: seq<Request>, params: seq<CommandValue>, codec: Codec)
      returns (status: Status)
      modifies this
      ensures !old(logging) ==> status == Panicked && unchanged(this)
      ensures old(logging) && old(nilMap) ==>
        && status == Panicked && nilMap && logging && clients == old(clients) && calls == old(calls)
        && generation == if Writable(reqs, params) then NextGeneration(net, dev, prot, old(generation)) else old(generation)
      ensures old(logging) && !old(nilMap) ==>
        var rep := WriteCall(net, dev, prot, reqs, params, codec, old(State(None)));
        status == rep.status && State(None) == rep.link.(client := None) && !nilMap && logging
    {
      if !logging || |reqs| == 0 {
        return Panicked;
      }
      var dataset := new Buffer[|reqs|](_ => ZeroBuffer);
      var ok, items := PrepareWrite(reqs, params, codec, dataset);
      if !ok {
        return Panicked;
      }
      if nilMap {
        var _ := NewS7Client(dev, prot);
        return Panicked;
      }
      var c := GetS7Client(dev, prot);
      var crashed := WriteChunks(dev, prot, reqs, items, c, dataset);
      status := if crashed then Panicked else Ok;
    }

    // ---------------------------------------------------------------- registry

    /**
     * Initialize: the logging client is set, and a fresh map holds a client
     * for every device for which one can be built, in order.
     */
    method Initialize(devices: seq<Device>)
      modifies this
      ensures (clients, generation) == Populate(net, devices, map[], old(generation))
      ensures !nilMap && logging && calls == old(calls)
    {
      logging := true;
      clients := map[];
      nilMap := false;
      for i := 0 to |devices|
        invariant !nilMap && logging && calls == old(calls)
        invariant Populate(net, devices, map[], old(generation)) == Populate(net, devices[i..], clients, generation)
      {
        assert devices[i..][1..] == devices[i + 1..];
        var c := NewS7Client(devices[i].name, devices[i].protocols);
        if c.None? {
          continue;
        }
        clients := clients[devices[i].name := c];
      }
      assert devices[|devices|..] == [];
    }

    /**
     * AddDevice: the entry is cleared and re-acquired, so a new client is
     * always built; when none can be, an error is returned and the entry
     * stays empty. Before Initialize the opening log call panics, and on a
     * nil map the first store does.
     */
    method AddDevice(dev: string, prot: Protocols) returns (status: Status)
      modifies this
      ensures !old(logging) || old(nilMap) ==> status == Panicked && unchanged(this)
      ensures old(logging) && !old(nilMap) ==>
        var c := NewClient(net, dev, prot, old(generation));
        && clients == old(clients)[dev := c]
        && generation == NextGeneration(net, dev, prot, old(generation))
        && status == (if c.Some? then Ok else Failed)
        && calls == old(calls) && !nilMap && logging
    {
      if !logging || nilMap {
        return Panicked;
      }
      clients := clients[dev := None];
      var c := GetS7Client(dev, prot);
      if c.None? {
        return Failed;
      }
      clients := clients[dev := c];
      status := Ok;
    }

    /**
     * UpdateDevice: a new client replaces the entry; when none can be built
     * the registry is left as it was and an error is returned. Before
     * Initialize the opening log call panics.
     */
    method UpdateDevice(dev: string, prot: Protocols) returns (status: Status)
      modifies this
      ensures !old(logging) ==> status == Panicked && unchanged(this)
      ensures old(logging) ==>
        var c := NewClient(net, dev, prot, old(generation));
        && generation == NextGeneration(net, dev, prot, old(generation))
        && calls == old(calls) && nilMap == old(nilMap) && logging
        && (c.None? ==> status == Failed && clients == old(clients))
        && (c.Some? && old(nilMap) ==> status == Panicked && clients == old(clients))
        && (c.Some? && !old(nilMap) ==> status == Ok && clients == old(clients)[dev := c])
    {
      if !logging {
        return Panicked;
      }
      var c := NewS7Client(dev, prot);
      if c.None? {
        return Failed;
      }
      if nilMap {
        return Panicked;
      }
      clients := clients[dev := c];
      status := Ok;
    }

    /**
     * RemoveDevice: only that device's entry goes; deleting from a nil map
     * does nothing. Before Initialize the opening log call panics.
     */
    method RemoveDevice(dev: string) returns (status: Status)
      modifies this
      ensures !old(logging) ==> status == Panicked && unchanged(this)
      ensures old(logging) ==>
        && status == Ok
        && clients == (if old(nilMap) then old(clients) else old(clients) - {dev})
        && nilMap == old(nilMap) && logging && generation == old(generation) && calls == old(calls)
    {
      if !logging {
        return Panicked;
      }
      if !nilMap {
        clients := clients - {dev};
      }
      status := Ok;
    }

    /** Stop: the registry map becomes nil; its log call is guarded, so it never panics. */
    method Stop()
      modifies this
      ensures nilMap && clients == map[] && logging == old(logging)
      ensures generation == old(generation) && calls == old(calls)
    {
      clients := map[];
      nilMap := true;
    }

    /**
     * ValidateDevice: the s7 entry must exist and Host, Port, Rack and Slot
     * must convert, checked in that order; the first failure is returned and
     * nothing is changed. On success a Timeout or IdleTimeout that does not
     * convert to an integer is set to 30 in the device's protocol map. Before
     * Initialize the opening log call panics.
     */
    method ValidateDevice(device: Device, cast: Caster)
      returns (panicked: bool, err: Option<ValidationError>, protocols: Protocols)
      ensures panicked <==> !logging
      ensures panicked ==> err == None && protocols == device.protocols
      ensures !panicked && ProtocolName !in device.protocols ==> err == Some(MissingProtocol) && protocols == device.protocols
      ensures !panicked && ProtocolName in device.protocols ==>
        var pp := device.protocols[ProtocolName];
        match FirstFailing(RequiredFields, pp, cast)
        case Some(key) => err == Some(BadField(key)) && protocols == device.protocols
        case None =>
          (err == None &&
           protocols == device.protocols[ProtocolName := Defaulted(Defaulted(pp, "Timeout", cast), "IdleTimeout", cast)])
    {
      protocols := device.protocols;
      panicked := !logging;
      if panicked {
        return panicked, None, protocols;
      }
      if ProtocolName !in protocols {
        return false, Some(MissingProtocol), protocols;
      }
      var pp := protocols[ProtocolName];
      if !cast.toStr(Get(pp, "Host")) {
        return false, Some(BadField("Host")), protocols;
      }
      if !cast.toInt(Get(pp, "Port")) {
        return false, Some(BadField("Port")), protocols;
      }
      if !cast.toInt(Get(pp, "Rack")) {
        return false, Some(BadField("Rack")), protocols;
      }
      if !cast.toInt(Get(pp, "Slot")) {
        return false, Some(BadField("Slot")), protocols;
      }
      if !cast.toInt(Get(pp, "Timeout")) {
        pp := pp["Timeout" := IntValue(DefaultTimeout)];
      }
      if !cast.toInt(Get(pp, "IdleTimeout")) {
        pp := pp["IdleTimeout" := IntValue(DefaultTimeout)];
      }
      protocols := protocols[ProtocolName := pp];
      err := None;
    }
  }
}
