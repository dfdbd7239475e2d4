# busybee storage core in Dafny

This project models the storage-and-ingestion core of busybee, a multi-tenant workflow engine whose
durable state lives in a raft-replicated key-value store (beehive). The model covers four parts:

- **Command dispatch** (`CmdHandler`, `pkg/storage/cmd_handler.go`):
  - `BuildRequest` turns a typed rpc request into a replicated command envelope: routing key, custom type, read/write class and payload.
  - `init` is the handler registration table.
  - `getValue` and `getValueWithPrefix` strip, or keep, the type byte of a stored value.
- **Wire codec** (`Codec`, `pkg/storage/codec.go`): a frame is a 4-byte length field holding `size + 1` (taken to be big-endian), one type tag byte, then the marshalled body. `Decode` reads requests and `Encode` writes responses. A type outside either table ends the process.
- **Storage facade and workflow scans** (`Storage`, `WorkflowScan`, `pkg/storage/storage.go`):
  - The requests `Set`/`SetWithTTL`/`Get`/`Delete`/`Scan`/`PutToQueue` hand to the store.
  - The single cancellable scan task that follows leadership: `ProphetBecomeLeader` / `ProphetBecomeFollower`.
  - The two paged tallies `scanWorkflow` and `scanWorkflowShards`. Only `scanWorkflow` is the leader scan: the scan task `doWorkflowScan` calls it (`storage.go:237`). `scanWorkflowShards` has no caller in the source modelled here.
- **Tenant input queue** (`TenantQueue`, `pkg/api/queue.go`):
  - `start` reads the tenant's partition count and creates one buffer and one worker per partition.
  - `add` routes an event to partition `UserID % partitions`.
  - `stop` puts a close marker into every buffer.
  - Each worker drains up to 64 items per cycle into one batched `PutToQueue` and calls every caller back with the shared outcome.

How the source is represented:

- **Go error returns**: `Result`.
- **`log.Fatalf` and unrecovered runtime panics** (such as a modulo by zero): `Exit.Fatal`.
- **Blocking waits** become preconditions: `waitCreated`, and a worker's `Get` on an empty buffer.
- **Calls into code that is not part of this model** become parameters:
  - the store's answer to the tenant metadata read;
  - protobuf marshalling and unmarshalling;
  - the outcome of the replicated queue write;
  - the range scan failing on its n-th call.
- **Goroutines**: each one becomes an explicit step (`WorkerStep`).
- **Keys**: the key encoders (`KVKey`, `StartedInstanceKey`, `InstanceShardKey`, `PartitionKey`, `TenantMetadataKey`) are constructors of a symbolic `Rpc.Key`, so distinct arguments give distinct keys. The range scans work on the numeric order of the ids that those keys encode.
- **`rpcpb.Type` wire values**: these are not part of this model. `Rpc.Code` numbers the 22 types 0 to 21 in declaration order. `Codec.TypeOfCode` and `Codec.Decode` rely on the codes being exactly the bytes 0 to 21, so a byte of 22 or more names no type.

## Model

| member | source | states |
|---|---|---|
| CmdHandler.BuildRequest | pkg/storage/cmd_handler.go:31-178 | Ends the process exactly for BMDel, StepInstanceStateShard and scan requests, which have no case. Otherwise the custom type is the request's own type, and the command is the request unchanged. It is classed as a read exactly for Get, BMContains, BMCount and BMRange. |
| CmdHandler.KVRequestsRouteOnKVKey | pkg/storage/cmd_handler.go:33-116 | Every key-value and bitmap request is routed on the KV encoding of its own key field. |
| CmdHandler.LifecycleRequestsRouteOnInstanceKey | pkg/storage/cmd_handler.go:117-137 | Instance lifecycle requests are writes routed on the started-instance key. For a starting instance that key is the snapshot's id; otherwise it is the workflow id. |
| CmdHandler.ShardRequestsRouteOnShardKey | pkg/storage/cmd_handler.go:138-158 | Create, update and remove of a state shard are routed on the shard key of (workflow id, start, end). Create and update take these from the embedded state; remove takes them from its own fields. |
| CmdHandler.QueueRequestsRouteVerbatim | pkg/storage/cmd_handler.go:159-172 | Queue add and fetch are writes routed on the caller's key unchanged. |
| CmdHandler.RoutingIgnoresPayload | pkg/storage/cmd_handler.go:33-116 | Two key-value requests of the same type with the same key get the same routing key and class, whatever their payloads. |
| CmdHandler.Registered | pkg/storage/cmd_handler.go:12-26 | The lookup in the registration table finds a class exactly when some entry registers the type, and the class it returns is that entry's. |
| CmdHandler.InitRegistersEachTypeOnce | pkg/storage/cmd_handler.go:12-26 | The 13 registrations of `init` name pairwise distinct types. |
| CmdHandler.InitEntryAgreesWithBuildRequest | pkg/storage/cmd_handler.go:12-26 | For each registered type, `BuildRequest` handles the request and gives it the read/write class it was registered with. |
| CmdHandler.InitAgreesWithBuildRequest | pkg/storage/cmd_handler.go:12-178 | The same agreement, read through the registration lookup. |
| CmdHandler.GetValue | pkg/storage/cmd_handler.go:200-211 | A store error is passed on unchanged, and an empty value reads as nil. Otherwise the result is the stored value with exactly its first byte removed. |
| CmdHandler.GetValueWithPrefix | pkg/storage/cmd_handler.go:213-224 | A store error is passed on unchanged, and an empty value reads as nil. Otherwise the stored value is returned whole. |
| CmdHandler.GetValueDropsOnlyThePrefix | pkg/storage/cmd_handler.go:200-224 | The two readers fail together with the same error and agree on nil. Otherwise they differ by exactly the type byte. |
| Codec.WriteInt | pkg/storage/codec.go:124 | The length field is always four bytes. |
| Codec.ReadWriteInt | pkg/storage/codec.go:124 | Reading the length field back gives the written value modulo 2^32. |
| Codec.TypeOfCode | pkg/storage/codec.go:27 | A wire byte names a type exactly when it is below the number of types, and then it is that type's code. |
| Codec.Decode | pkg/storage/codec.go:19-75 | Without a tag byte, the frame is complete with no message and an error. A tag outside the request table ends the process. Otherwise the message has the tagged type and exactly the bytes after the tag as its body. |
| Codec.Encode | pkg/storage/codec.go:77-135 | Fails exactly for responses outside the table. Otherwise it appends to `out`, leaving `out` intact, a length field that reads back as (body size + 1) modulo 2^32, the response type's tag and then the body, and nothing else. |
| Codec.EmptyBodyWritesHeaderOnly | pkg/storage/codec.go:122-131 | An empty body writes only the length field (value 1) and the tag. |
| Codec.ResponseTag | pkg/storage/codec.go:79-120 | A response is tagged only with its own type. It gets no tag exactly when it is not an rpc response or its type is StopInstance, AllocID or ResetID. |
| Codec.ResponseTagsInjective | pkg/storage/codec.go:79-117 | A response in the table is tagged with its same-named type, and distinct response types get distinct tags. |
| Codec.EncodeAndDecodeTablesAgree | pkg/storage/codec.go:29-117 | A type can be encoded exactly when a frame with its tag can be decoded. |
| Codec.CountInTable | pkg/storage/codec.go:29-70 | The count of table types among a prefix of the type list never exceeds the prefix length. |
| Codec.NineteenTags | pkg/storage/codec.go:29-70 | The shared table holds 19 of the 22 types. |
| Codec.TypesOutsideTheTables | pkg/storage/codec.go:29-117 | The types neither direction accepts are exactly StopInstance, AllocID and ResetID. |
| Codec.FrameRoundTrip | pkg/storage/codec.go:19-135 | Decoding the bytes after the length field of an encoded frame gives back the response's type and exactly its body. |
| Codec.SplitFrame | pkg/storage/codec.go:12 | The length-field framing of the decoder built at this line returns a frame of exactly the announced length followed by the rest. It returns nothing exactly when the field or the announced bytes are missing. |
| Codec.StreamRoundTrip | pkg/storage/codec.go:19-135 | An encoded frame followed by any bytes is split off whole and decodes to the response's type and body, under the framing assumed for `SplitFrame`. |
| Storage.SetWithTTL | pkg/storage/storage.go:121-128 | The request goes to the default group and is dispatched as a Set write routed on the KV key of the caller's key. It carries the caller's value and TTL. |
| Storage.SetKey | pkg/storage/storage.go:117-119 | `Set` is dispatched like `SetWithTTL`: a Set write on the KV key of the caller's key, in the default group, carrying the value with TTL 0 (no expiry). |
| Storage.GetKey | pkg/storage/storage.go:130-133 | The request goes to the default group and is dispatched as a Get read routed on the KV key of the caller's key. |
| Storage.DeleteKey | pkg/storage/storage.go:143-149 | The request goes to the default group and is dispatched as a Delete write routed on the KV key of the caller's key. |
| Storage.ScanRange | pkg/storage/storage.go:151-158 | The request carries start, end, limit and skip unchanged, and the dispatcher has no case for it, so executing it ends the process. |
| Storage.PutToQueue | pkg/storage/storage.go:171-178 | The request goes to the caller's group and is dispatched as a QueueAdd write routed on the partition key of (id, partition). It carries exactly the records. |
| Storage.KeyOperationsShareAShard | pkg/storage/storage.go:117-149 | Set, SetWithTTL, Get and Delete of one key are routed on the same key. Two keys are routed apart exactly when they differ. |
| Storage.QueuePartitionsRouteApart | pkg/storage/storage.go:171-178 | Two queue writes are routed on the same key exactly when they name the same tenant id and partition, whatever their groups and records. |
| Storage.WorkflowScansEndTheProcess | pkg/storage/storage.go:151-158 | As written, the first range scan of `scanWorkflow` (lines 249-253) and of `scanWorkflowShards` (lines 292-295) builds a request that the dispatcher treats as fatal. |
| Storage.StopTask | pkg/storage/storage.go:214 | Afterwards the id is not live. Every other task is live exactly when it was before, and the id counter is unchanged. |
| Storage.StopUndoesRun | pkg/storage/storage.go:212-224 | Stopping the task just started restores the previous live set, and stopping an id twice is the same as stopping it once. |
| Storage.RunTask | pkg/storage/storage.go:217 | A started task gets a fresh positive id, which becomes live. |
| Storage.StartWorkflowScan | pkg/storage/storage.go:212-218 | Afterwards exactly one scan task is live. It is newly started, and the previous one is stopped. |
| Storage.StopWorkflowScan | pkg/storage/storage.go:220-224 | Afterwards no scan task is live, and the recorded id is kept. |
| Storage.Notify | pkg/storage/storage.go:204-210 | Becoming leader leaves exactly one, fresh, scan task live. Becoming follower leaves none. |
| Storage.NotifyAll | pkg/storage/storage.go:204-224 | Any run of notifications keeps the scan-task invariant. |
| Storage.AtMostOneScanTask | pkg/storage/storage.go:204-224 | However leadership toggles, at most one scan task is live. One is live exactly when the last notification was becoming leader. |
| Storage.ScanTasksFromStartup | pkg/storage/storage.go:204-224 | The initial state, with no task live, satisfies the scan-task invariant. From it, any run of notifications leaves at most one scan task live, and one exactly when the last notification was becoming leader. |
| WorkflowScan.Between | pkg/storage/storage.go:253 | The records a range holds all have keys inside it. |
| WorkflowScan.Page | pkg/storage/storage.go:41-42 | A range scan returns at most `limit` records, all with keys in `[start, end)`, as a prefix of the range in key order. Fewer than `limit` records means the range is exhausted. |
| WorkflowScan.BetweenSplit | pkg/storage/storage.go:252-282 | Splitting a range at a key splits its records into the part below and the part above. |
| WorkflowScan.PagePrefix | pkg/storage/storage.go:276-280 | The first k records of a range are exactly the records up to the k-th one's key. Moving the cursor to that key + 1 leaves exactly the rest. |
| WorkflowScan.CountTagAppend | pkg/storage/storage.go:264-274 | Counting records of one type is additive over concatenation. |
| WorkflowScan.Bump | pkg/storage/storage.go:265-274 | The `switch` on the type byte increments exactly the matching counter, or none when no counter matches. |
| WorkflowScan.BumpTally | pkg/storage/storage.go:264-274 | Bumping for one more record is the tally of the extended records. |
| WorkflowScan.PageAccounting | pkg/storage/storage.go:252-262 | An empty page is the last of `PageCalls(total)` range scans; a non-empty one keeps every earlier page full unless nothing remains. |
| WorkflowScan.AdvancePage | pkg/storage/storage.go:276-280 | Moving the cursor to the last key of a non-empty page plus one puts exactly that page below the cursor and leaves fewer records ahead. |
| WorkflowScan.LastPage | pkg/storage/storage.go:260-262 | An empty page means the records below the cursor are the whole range, and this was the last range scan. |
| WorkflowScan.TallyPage | pkg/storage/storage.go:264-281 | Bucketing a page in order gives the tally of the earlier records plus the page, and the cursor moves to the page's last key plus one. |
| WorkflowScan.TakePage | pkg/storage/storage.go:264-281 | After one non-empty page the tally covers every record below the new, larger cursor, and the scan count stays within bound. |
| WorkflowScan.PagedScan | pkg/storage/storage.go:242-285 | If any of the range scans a full walk issues fails, nothing is published. Otherwise the published counters are the per-type counts of every record in the range. |
| WorkflowScan.ScanWorkflow | pkg/storage/storage.go:242-285 | `scanWorkflow` publishes the four lifecycle counts of all instances with id below MaxUint64, or fails exactly when one of its range scans fails. |
| WorkflowScan.EveryRecordCountedOnce | pkg/storage/storage.go:249-250 | When every id is below MaxUint64, the scanned range covers the whole store. |
| WorkflowScan.ShardPos | pkg/storage/storage.go:292-293 | A shard key's position encodes the workflow id above and the 32-bit index below. |
| WorkflowScan.ShardCursorAsWritten | pkg/storage/storage.go:317 | The cursor as written keeps the workflow id. Below index MaxUint32 it is the next position; at MaxUint32 the index wraps to 0, which is a position before the shard just seen. |
| WorkflowScan.ShardCursor | pkg/storage/storage.go:317 | The corrected cursor is the position right after the last shard seen, carrying into the workflow id. |
| WorkflowScan.ShardWalkUsesCorrectedCursor | pkg/storage/storage.go:314-318 | The walk's cursor (last key + 1) is the corrected cursor of the last shard. That cursor equals the one as written exactly when the index is below MaxUint32. |
| WorkflowScan.AsWrittenShardCursorRepeatsPage | pkg/storage/storage.go:317 | As written, a shard with index MaxUint32 moves the cursor back to index 0 of its workflow, and the next scan returns the same page. |
| WorkflowScan.ScanWorkflowShards | pkg/storage/storage.go:287-323 | With the corrected cursor, the scan publishes the running and stopped counts of all shards in range, or fails exactly when one of its range scans fails. |
| TenantQueue.NewQueue | pkg/api/queue.go:33-40 | A new queue is neither running nor created and has no partitions. It satisfies both queue invariants: every routable partition has a buffer, and there is one partition per index. |
| TenantQueue.Add | pkg/api/queue.go:52-55 | With zero partitions the modulo panics. Otherwise the context is appended to buffer `UserID % partitions`, and every other buffer and field is unchanged. |
| TenantQueue.AddKeepsArrivalOrder | pkg/api/queue.go:52-55 | Two adds routed to one partition sit in that buffer in arrival order. |
| TenantQueue.Start | pkg/api/queue.go:57-82 | A running queue is left as it is, without error. Otherwise the queue is marked running. A failed or empty metadata read returns an error and creates nothing. A good read appends one fresh partition per configured partition and marks the queue created. |
| TenantQueue.Stop | pkg/api/queue.go:84-90 | On the running-to-stopped transition, exactly one close marker is appended to every buffer. Otherwise nothing changes. |
| TenantQueue.StartStopIdempotent | pkg/api/queue.go:57-90 | A second `start` changes nothing and returns no error, and a second `stop` changes nothing. |
| TenantQueue.FailedStartIsNotRetried | pkg/api/queue.go:57-66 | After a failed `start` the queue is still marked running, so a later `start` returns no error and still creates nothing. |
| TenantQueue.WorkerStep | pkg/api/queue.go:92-129 | Takes min(64, buffered) items. With a close marker among them, the buffer is disposed and the worker stops. Otherwise it issues one `PutToQueue` to the tenant input group with the partition's index, carrying those items' events in order. Each of those items gets one callback with the shared outcome, and the buffer loses exactly that batch. |
| TenantQueue.RestartRoutesBehindCloseFlag | pkg/api/queue.go:71-78 | As written, after stop and a good start, an `add` lands in the old buffer of its index, behind that buffer's close marker. The new partition of that index stays empty. |
| TenantQueue.StartFresh | pkg/api/queue.go:57-82 | The corrected `start` replaces the partition list, keeping one partition per index. |
| TenantQueue.OnePerIndexPreserved | pkg/api/queue.go:52-90 | `add` and `stop` keep the one-partition-per-index invariant. |
| TenantQueue.RestartRoutesToFreshPartition | pkg/api/queue.go:52-82 | With the corrected start, an `add` after a restart lands in the new, running partition of its index. |

## Left out

- The raft store, beehive's application layer, goetty's buffers and protobuf are not part of this model. A marshalled message is represented by the request value itself, or by a `marshal` parameter.
- The byte layouts of the key encoders and the numeric values of `rpcpb.Type` are not part of this model. Keys are symbolic and tags are ordinals. The instance and shard type-byte constants are distinct placeholders.
- `cmd_handler.go` calls `InstanceShardKey` with three arguments and `storage.go` calls it with two. Each call site is modelled as written: the dispatch key is `InstanceShardKey` with three fields, and the scan bounds are `ShardScanKey` with (workflow id, index).
- Message pooling (`Acquire…`/`Release…`), metrics and logging are left out. They do not affect results.
- `doWorkflowScan`, the 10-second ticker and task cancellation are left out: a scan cycle is modelled as one `PagedScan`. So are the handler bodies registered by `init`, `handleShardCycle`, `WriteBatch`, `Codec()`, `Close` and the asynchronous exec variants.
- Decoding the response of `Get` and `Scan` (`BytesResponse` and `BytesSliceResponse` unmarshalling) is left out, along with a body that fails to unmarshal (`MustUnmarshal` panics).
- A partition buffer is created with `task.New(1024)` (`queue.go:73`), but `task.Queue` is not part of this model, so its capacity and any blocking behaviour are not modelled: the model's buffers are unbounded.
- `WorkerStep` models one cycle on a non-empty buffer of a live partition. The `log.Fatalf` on a `Get` from a disposed buffer is not modelled, and neither is cancellation through the task runner.
- TenantQueue.Add and TenantQueue.Stop append to a partition's buffer even after its worker has disposed it (`live` false). The source ignores `Put`'s result (`queue.go:54`, `queue.go:87`), and `task.Queue` is not part of this model, so the model keeps the item where the source presumably drops it. Either way the item is never written and never called back.
- Concurrency is left out: the compare-and-swaps of `start` and `stop` are modelled as atomic state transitions.
- In the source, `init` registers 13 types, and 19 types are decodable from the wire. AllocID, ResetID and StopInstance are registered but cannot be decoded. Set, Delete, the bitmap writes (BMCreate, BMAdd, BMRemove, BMClear, BMDel), StepInstanceStateShard and QueueAdd are not registered in `init`. The registry is modelled as written, not as a table with one handler for every type.
- The byte order of goetty's `WriteInt` is not part of this model. The length field is taken to be big-endian; only its round trip through `ReadInt` is relied on.
- Codec.SplitFrame: goetty's `IntLengthFieldBasedDecoder` (built at `codec.go:12`) is not part of this model, and the framing is an assumed model of it. The length field counts the bytes after it, there is no maximum frame size, and the encoder wrapper (`codec.go:13`) adds no second length field. Codec.StreamRoundTrip holds only under this assumption.
- WorkflowScan.ScanWorkflow: as written, `scanWorkflow` calls `Scan`, whose request the dispatcher treats as fatal (see Storage.WorkflowScansEndTheProcess). The model instead assumes `Scan` performs the `[start, end)` range scan documented at `storage.go:41`, and proves what the walk publishes under that assumption.
- WorkflowScan.ScanWorkflowShards: the same assumption about `Scan` as for `ScanWorkflow`, together with the corrected cursor.
- WorkflowScan.PagedScan: the cursor is taken from the record's key. The source takes it from the unmarshalled value (`instance.Snapshot.ID + 1` at `storage.go:278-279`, `shard.WorkflowID` and `shard.Index` at `storage.go:316-317`), and the model assumes these agree with the key.
- WorkflowScan.Bump: every record's value is taken to be non-empty. In the source, `value[0]` on an empty value (`storage.go:265`, `storage.go:307`) panics, and that panic is not modelled.
- Storage.RunTask: starting a task always succeeds. The source discards the error of `RunCancelableTask` (`storage.go:217`), and a failed start is not modelled.
- When `WorkerStep` disposes a buffer, items that were batched before the close marker are neither written nor called back. This follows the code, even where a graceful drain before exiting would be expected.

## Findings

| source | as written | input that shows it | evidently intended | confidence | as-written member | corrected member |
|---|---|---|---|---|---|---|
| pkg/storage/storage.go:317 | The next page of the shard scan starts at `InstanceShardKey(WorkflowID, Index+1)`. `Index` is a uint32, so `Index+1` wraps to 0 for `Index` = MaxUint32. | Latent, since `scanWorkflowShards` has no caller in the source modelled here: once called on one shard with workflow id 0 and index MaxUint32, the cursor returns to (0, 0), the same page comes back, and the loop never ends. | Advance to the key right after the last shard, carrying into the workflow id. | not executed | WorkflowScan.AsWrittenShardCursorRepeatsPage | WorkflowScan.ScanWorkflowShards |
| pkg/storage/storage.go:151-158 | `Scan` sends a `ScanRequest` through `ExecCommand`, and `BuildRequest` has no case for it (`cmd_handler.go:173-174`), so it calls `log.Fatalf`. Both tallies call `Scan` first thing; `scanWorkflow` is the one the leader's scan task runs (`storage.go:237`). | Any store that becomes leader: the first `scanWorkflow` tick scans from `StartedInstanceKey(0)` and the process exits. | `Scan` performs the `[start, end)` range scan documented at `storage.go:41`. | not executed | Storage.WorkflowScansEndTheProcess | WorkflowScan.PagedScan |
| pkg/api/queue.go:71-78 | A restart after `stop` appends N new partitions to the list. `add` keeps indexing the first N, which are the old buffers, each holding a close marker. | A running queue with N > 0 partitions; `stop`, then `start` with the same metadata, then `add`. The event lands behind the close marker of old buffer `UserID % N`, whose worker exits there, so the event is never written and its callback never runs. | `start` creates the partitions afresh, so index i is the live partition i. | not executed | TenantQueue.RestartRoutesBehindCloseFlag | TenantQueue.RestartRoutesToFreshPartition |
