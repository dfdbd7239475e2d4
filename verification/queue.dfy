/** The per-tenant input queue of the API server: `start` reads the tenant's
    partition count and creates one buffer and one worker per partition,
    `add` routes an event to partition `UserID % partitions`, `stop` puts a
    close marker into every buffer, and each worker repeatedly drains up to
    64 items into one batched queue write. Goroutines become explicit steps:
    `WorkerStep` is one cycle of one partition's worker. */
module TenantQueue {
  import opened Common
  import Storage

  /** The user event an `add` carries; `userId` selects the partition. */
  datatype UserEvent = UserEvent(userId: uint32, payload: bytes)

  /** The caller's context an `add` enqueues and the callback gets back. */
  datatype Ctx = Ctx(caller: nat, event: UserEvent)

  /** A buffer entry: an enqueued context, or the close marker `stop` puts. */
  datatype Item = Enqueued(ctx: Ctx) | CloseFlag

  /** One partition: its index (the worker's `partition` argument), its
      FIFO buffer, and whether its worker still runs (it stops, disposing
      the buffer, when it meets the close marker). */
  datatype Partition = Partition(index: uint32, buffer: seq<Item>, live: bool)

  /** `tenantQueue`: the `running` and `created` flags, the partition count
      and the list of partition buffers. */
  datatype Queue = Queue(id: uint64, running: bool, created: bool, partitions: uint32,
                         queues: seq<Partition>)

  /** `newTenantQueue`: stopped, not created, no partitions; both queue
      invariants hold from the start. */
  function NewQueue(id: uint64): (q: Queue)
    ensures !q.running && !q.created && q.queues == [] && q.id == id
    ensures Valid(q) && OnePerIndex(q)
  {
    Queue(id, false, false, 0, [])
  }

  /** Once created, every partition `add` can route to has a buffer. */
  predicate Valid(q: Queue)
  {
    q.created ==> q.partitions <= |q.queues|
  }

  /** `n` empty partitions with running workers, indexed `0 .. n-1`. */
  function Fresh(n: uint32): (ps: seq<Partition>)
    ensures |ps| == n
    ensures forall i :: 0 <= i < n ==> ps[i] == Partition(i, [], true)
  {
    seq(n, i requires 0 <= i < n => Partition(i, [], true))
  }

  /** `add`: the caller has waited (`waitCreated`) until the queue is
      created; the context goes to the end of buffer `UserID % partitions`.
      With no partitions the modulo panics. */
  function Add(q: Queue, c: Ctx): (r: Exit<Queue>)
    requires q.created && Valid(q)
    ensures r.Fatal? <==> q.partitions == 0
    ensures r.Returns? ==>
      var p := c.event.userId % q.partitions;
      && p < q.partitions
      && |r.value.queues| == |q.queues|
      && r.value.queues[p] == q.queues[p].(buffer := q.queues[p].buffer + [Enqueued(c)])
      && (forall i :: 0 <= i < |q.queues| && i != p ==> r.value.queues[i] == q.queues[i])
      && r.value.(queues := q.queues) == q
      && Valid(r.value)
  {
    if q.partitions == 0 then Fatal("integer divide by zero")
    else
      var p := c.event.userId % q.partitions;
      var part := q.queues[p];
      Returns(q.(queues := q.queues[p := part.(buffer := part.buffer + [Enqueued(c)])]))
  }

  /** Two adds routed to the same partition keep their arrival order. */
  lemma AddKeepsArrivalOrder(q: Queue, c1: Ctx, c2: Ctx)
    requires q.created && Valid(q) && q.partitions > 0
    requires c1.event.userId % q.partitions == c2.event.userId % q.partitions
    ensures
      var p := c1.event.userId % q.partitions;
      var q1 := Add(q, c1).value;
      Add(q1, c2).Returns?
      && Add(q1, c2).value.queues[p].buffer == q.queues[p].buffer + [Enqueued(c1), Enqueued(c2)]
  {
  }

  /** The outcome of `start`: the new state and the error returned. */
  datatype Started = Started(q: Queue, err: Option<string>)

  /** `start`, as written: on the `running` 0 to 1 transition, read the
      tenant metadata (`meta`, decoded by `partitionsOf`), fail if the read
      fails or the value is empty, and otherwise APPEND one fresh partition
      per configured partition and mark the queue created. */
  function Start(q: Queue, meta: Result<bytes>, partitionsOf: bytes -> uint32): (r: Started)
    requires Valid(q)
    ensures Valid(r.q)
    ensures q.running ==> r == Started(q, None)
    ensures !q.running && meta.Err? ==> r == Started(q.(running := true), Some(meta.error))
    ensures !q.running && meta.Ok? && |meta.value| == 0 ==>
      r.err.Some? && r.q == q.(running := true)
    ensures !q.running && meta.Ok? && |meta.value| > 0 ==>
      var n := partitionsOf(meta.value);
      && r.err.None?
      && r.q == q.(running := true, created := true, partitions := n, queues := q.queues + Fresh(n))
  {
    if q.running then Started(q, None)
    else
      var q1 := q.(running := true);
      match meta
      case Err(e) => Started(q1, Some(e))
      case Ok(value) =>
        if |value| == 0 then Started(q1, Some("tenant not init"))
        else
          var n := partitionsOf(value);
          Started(q1.(partitions := n, queues := q1.queues + Fresh(n), created := true), None)
  }

  /** `stop`: on the `running` 1 to 0 transition, one close marker into
      every buffer of the list; otherwise nothing. */
  function Stop(q: Queue): (r: Queue)
    requires Valid(q)
    ensures Valid(r)
    ensures !q.running ==> r == q
    ensures q.running ==>
      && !r.running
      && |r.queues| == |q.queues|
      && (forall i :: 0 <= i < |q.queues| ==>
            r.queues[i] == q.queues[i].(buffer := q.queues[i].buffer + [CloseFlag]))
      && r.(running := true, queues := q.queues) == q
  {
    if !q.running then q
    else
      var closed := seq(|q.queues|, i requires 0 <= i < |q.queues| =>
        q.queues[i].(buffer := q.queues[i].buffer + [CloseFlag]));
      q.(running := false, queues := closed)
  }

  /** A second `start` while running changes nothing and succeeds; a
      `stop` while stopped changes nothing. */
  lemma StartStopIdempotent(q: Queue, meta: Result<bytes>, partitionsOf: bytes -> uint32)
    requires Valid(q)
    ensures Start(Start(q, meta, partitionsOf).q, meta, partitionsOf)
         == Started(Start(q, meta, partitionsOf).q, None)
    ensures Stop(Stop(q)) == Stop(q)
  {
  }

  /** A `start` that fails still leaves the queue marked running, so a later
      `start` neither retries the metadata read nor creates the queue:
      `add` keeps waiting for creation. */
  lemma FailedStartIsNotRetried(q: Queue, meta: Result<bytes>, meta2: Result<bytes>,
                                partitionsOf: bytes -> uint32)
    requires Valid(q) && !q.running && !q.created
    requires Start(q, meta, partitionsOf).err.Some?
    ensures
      var q1 := Start(q, meta, partitionsOf).q;
      Start(q1, meta2, partitionsOf) == Started(q1, None) && !q1.created
  {
  }

  /** The callback a worker invokes for one item: `cb(item, nil, err)`. */
  datatype Callback = Callback(item: Item, err: Option<string>)

  /** One worker cycle: either the close marker was met (the buffer is
      disposed and the worker returns), or one batched queue write was
      issued and every item's callback got its shared outcome. */
  datatype StepResult = Disposed | Committed(put: Storage.Call, callbacks: seq<Callback>)

  /** The most items one cycle takes. */
  const BatchSize: nat := 64

  /** One cycle of the worker of partition `p`: take up to 64 items; stop at
      a close marker (items before it in the batch are neither written nor
      called back); otherwise write all their events with one `PutToQueue`
      into the tenant input group and call every item back with the write's
      outcome `putErr`. `marshal` is the protobuf encoding of a user event;
      a worker waits while its buffer is empty. */
  method WorkerStep(q: Queue, p: nat, marshal: UserEvent -> bytes, putErr: Option<string>)
    returns (q': Queue, step: StepResult)
    requires p < |q.queues| && q.queues[p].live && |q.queues[p].buffer| > 0
    requires Valid(q)
    ensures Valid(q')
    ensures
      var part := q.queues[p];
      var n := Min(BatchSize, |part.buffer|);
      && (step.Disposed? <==> CloseFlag in part.buffer[..n])
      && (step.Disposed? ==> q' == q.(queues := q.queues[p := Partition(part.index, [], false)]))
      && (step.Committed? ==>
            && q' == q.(queues := q.queues[p := part.(buffer := part.buffer[n..])])
            && step.put.group == Storage.TenantInputGroup
            && step.put.req.QueueAddRequest?
            && step.put == Storage.PutToQueue(q.id, part.index, Storage.TenantInputGroup, step.put.req.items)
            && |step.put.req.items| == n
            && (forall i :: 0 <= i < n ==>
                  part.buffer[i].Enqueued? && step.put.req.items[i] == marshal(part.buffer[i].ctx.event))
            && |step.callbacks| == n
            && (forall i :: 0 <= i < n ==> step.callbacks[i] == Callback(part.buffer[i], putErr)))
  {
    var part := q.queues[p];
    var n := Min(BatchSize, |part.buffer|);
    var items := part.buffer[..n];
    var events: seq<bytes> := [];
    var i := 0;
    while i < n
      invariant 0 <= i <= n
      invariant CloseFlag !in items[..i]
      invariant |events| == i
      invariant forall j :: 0 <= j < i ==> items[j].Enqueued? && events[j] == marshal(items[j].ctx.event)
    {
      var item := items[i];
      if item == CloseFlag {
        q' := q.(queues := q.queues[p := Partition(part.index, [], false)]);
        step := Disposed;
        return;
      }
      events := events + [marshal(item.ctx.event)];
      assert items[..i + 1] == items[..i] + [item];
      i := i + 1;
    }
    assert items[..i] == items;
    var put := Storage.PutToQueue(q.id, part.index, Storage.TenantInputGroup, events);
    var callbacks: seq<Callback> := [];
    i := 0;
    while i < n
      invariant 0 <= i <= n
      invariant |callbacks| == i
      invariant forall j :: 0 <= j < i ==> callbacks[j] == Callback(items[j], putErr)
    {
      callbacks := callbacks + [Callback(items[i], putErr)];
      i := i + 1;
    }
    q' := q.(queues := q.queues[p := part.(buffer := part.buffer[n..])]);
    step := Committed(put, callbacks);
  }

  /** Restart as written: after `stop` and a successful `start` with the
      same partition count, `add` still routes into the OLD buffer of its
      index, behind that buffer's close marker, while the new partition of
      that index stays empty. The old worker exits at the marker, so the
      event is never written and its caller never called back. */
  lemma RestartRoutesBehindCloseFlag(q: Queue, meta: bytes, partitionsOf: bytes -> uint32, c: Ctx)
    requires Valid(q) && q.running && q.created && q.partitions > 0
    requires |meta| > 0 && partitionsOf(meta) == q.partitions
    ensures
      var q2 := Start(Stop(q), Ok(meta), partitionsOf).q;
      var p := c.event.userId % q.partitions;
      && Add(q2, c).Returns?
      && p < |q.queues|
      && Add(q2, c).value.queues[p].buffer == q.queues[p].buffer + [CloseFlag, Enqueued(c)]
      && Add(q2, c).value.queues[|q.queues| + p] == Partition(p, [], true)
  {
    var q1 := Stop(q);
    var q2 := Start(q1, Ok(meta), partitionsOf).q;
    var p := c.event.userId % q.partitions;
    assert q2.queues[|q.queues| + p] == Fresh(q.partitions)[p];
  }

  /** The evidently intended `start`: the same transition, but the fresh
      partitions REPLACE the list, so index `i` of the list is partition
      `i` with its own running worker. */
  function StartFresh(q: Queue, meta: Result<bytes>, partitionsOf: bytes -> uint32): (r: Started)
    requires OnePerIndex(q)
    ensures OnePerIndex(r.q)
    ensures q.running ==> r == Started(q, None)
    ensures !q.running && meta.Err? ==> r == Started(q.(running := true), Some(meta.error))
    ensures !q.running && meta.Ok? && |meta.value| == 0 ==>
      r.err.Some? && r.q == q.(running := true)
    ensures !q.running && meta.Ok? && |meta.value| > 0 ==>
      var n := partitionsOf(meta.value);
      && r.err.None?
      && r.q == q.(running := true, created := true, partitions := n, queues := Fresh(n))
  {
    if q.running then Started(q, None)
    else
      var q1 := q.(running := true);
      match meta
      case Err(e) => Started(q1, Some(e))
      case Ok(value) =>
        if |value| == 0 then Started(q1, Some("tenant not init"))
        else
          var n := partitionsOf(value);
          Started(q1.(partitions := n, queues := Fresh(n), created := true), None)
  }

  /** The invariant the corrected start keeps: once created, the list holds
      exactly one partition per index, each at its own position. */
  predicate OnePerIndex(q: Queue)
  {
    && Valid(q)
    && (q.created ==> |q.queues| == q.partitions)
    && (forall i :: 0 <= i < |q.queues| ==> q.queues[i].index == i)
  }

  /** `add` and `stop` keep the corrected invariant. */
  lemma OnePerIndexPreserved(q: Queue, c: Ctx)
    requires OnePerIndex(q)
    ensures OnePerIndex(Stop(q))
    ensures q.created && q.partitions > 0 ==> OnePerIndex(Add(q, c).value)
  {
  }

  /** With the corrected start, an `add` after a restart lands in the new,
      running partition of its index, which then holds just that event. */
  lemma RestartRoutesToFreshPartition(q: Queue, meta: bytes, partitionsOf: bytes -> uint32, c: Ctx)
    requires OnePerIndex(q) && q.running && q.created && q.partitions > 0
    requires |meta| > 0 && partitionsOf(meta) == q.partitions
    ensures
      var q2 := StartFresh(Stop(q), Ok(meta), partitionsOf).q;
      var p := c.event.userId % q.partitions;
      && Add(q2, c).Returns?
      && Add(q2, c).value.queues[p] == Partition(p, [Enqueued(c)], true)
  {
  }
}
