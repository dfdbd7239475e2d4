/** The request vocabulary shared by the storage layer: the `rpcpb.Type`
    enumeration, the typed requests that reach `BuildRequest`, and the
    routing keys they are sent to. */
module Rpc {
  import opened Common

  /** The `rpcpb.Type` constants the storage layer refers to. */
  datatype RpcType =
    | Set | Get | Delete | AllocID | ResetID
    | BMCreate | BMAdd | BMRemove | BMClear | BMContains | BMDel | BMCount | BMRange
    | StartingInstance | StartedInstance | StopInstance
    | CreateInstanceStateShard | UpdateInstanceStateShard | RemoveInstanceStateShard
    | StepInstanceStateShard
    | QueueAdd | QueueFetch

  /** Every rpc type, each once. */
  const AllTypes: seq<RpcType> := [
    Set, Get, Delete, AllocID, ResetID,
    BMCreate, BMAdd, BMRemove, BMClear, BMContains, BMDel, BMCount, BMRange,
    StartingInstance, StartedInstance, StopInstance,
    CreateInstanceStateShard, UpdateInstanceStateShard, RemoveInstanceStateShard,
    StepInstanceStateShard,
    QueueAdd, QueueFetch
  ]

  /** The one-byte wire value of a type (`byte(t)`). The generated protobuf
      numbering is not part of this model: the position in `AllTypes` is
      used, so the codes are exactly the bytes 0 to 21, which
      `Codec.TypeOfCode` and `Codec.Decode` rely on. */
  function Code(t: RpcType): (b: byte)
    ensures 0 <= b as int < |AllTypes| && AllTypes[b as int] == t
  {
    match t
    case Set => 0
    case Get => 1
    case Delete => 2
    case AllocID => 3
    case ResetID => 4
    case BMCreate => 5
    case BMAdd => 6
    case BMRemove => 7
    case BMClear => 8
    case BMContains => 9
    case BMDel => 10
    case BMCount => 11
    case BMRange => 12
    case StartingInstance => 13
    case StartedInstance => 14
    case StopInstance => 15
    case CreateInstanceStateShard => 16
    case UpdateInstanceStateShard => 17
    case RemoveInstanceStateShard => 18
    case StepInstanceStateShard => 19
    case QueueAdd => 20
    case QueueFetch => 21
  }

  /** Routing keys. The byte encoders of the storage package are not part of
      this model; each encoder is a constructor, so two keys built by
      different encoders or from different arguments are different keys.
      `Raw` is a key a caller supplies as plain bytes. The storage package
      calls `InstanceShardKey` with three arguments when it routes a shard
      request and with two (workflow id, index) when it scans shards; the
      two call forms are `InstanceShardKey` and `ShardScanKey`. */
  datatype Key =
    | Raw(raw: bytes)
    | KVKey(kv: bytes)
    | StartedInstanceKey(instanceId: uint64)
    | InstanceShardKey(workflowId: uint64, start: uint64, end: uint64)
    | ShardScanKey(workflowId: uint64, index: uint32)
    | PartitionKey(queueId: uint64, partition: uint64)
    | TenantMetadataKey(tenantId: uint64)

  /** The `State` field of the create/update state-shard requests. */
  datatype ShardState = ShardState(workflowId: uint64, start: uint64, end: uint64)

  /** The typed requests a caller hands to the storage layer. Fields the
      storage layer never inspects are kept as one opaque `args` payload. */
  datatype Request =
    | SetRequest(key: bytes, value: bytes, ttl: int)
    | GetRequest(key: bytes)
    | DeleteRequest(key: bytes)
    | AllocIDRequest(key: bytes, args: bytes)
    | ResetIDRequest(key: bytes, args: bytes)
    | BMCreateRequest(key: bytes, args: bytes)
    | BMAddRequest(key: bytes, args: bytes)
    | BMRemoveRequest(key: bytes, args: bytes)
    | BMClearRequest(key: bytes, args: bytes)
    | BMContainsRequest(key: bytes, args: bytes)
    | BMDelRequest(key: bytes, args: bytes)
    | BMCountRequest(key: bytes, args: bytes)
    | BMRangeRequest(key: bytes, args: bytes)
    | StartingInstanceRequest(snapshotId: uint64, args: bytes)
    | StartedInstanceRequest(workflowId: uint64, args: bytes)
    | StopInstanceRequest(workflowId: uint64, args: bytes)
    | CreateInstanceStateShardRequest(state: ShardState, args: bytes)
    | UpdateInstanceStateShardRequest(state: ShardState, args: bytes)
    | RemoveInstanceStateShardRequest(workflowId: uint64, start: uint64, end: uint64, args: bytes)
    | StepInstanceStateShardRequest(args: bytes)
    | QueueAddRequest(qkey: Key, items: seq<bytes>)
    | QueueFetchRequest(qkey: Key, args: bytes)
    | ScanRequest(from: Key, to: Key, limit: uint64, skip: int)

  /** The rpc type a request is named after; the scan request has none. */
  function TypeOf(r: Request): Option<RpcType>
  {
    match r
    case SetRequest(_, _, _) => Some(Set)
    case GetRequest(_) => Some(Get)
    case DeleteRequest(_) => Some(Delete)
    case AllocIDRequest(_, _) => Some(AllocID)
    case ResetIDRequest(_, _) => Some(ResetID)
    case BMCreateRequest(_, _) => Some(BMCreate)
    case BMAddRequest(_, _) => Some(BMAdd)
    case BMRemoveRequest(_, _) => Some(BMRemove)
    case BMClearRequest(_, _) => Some(BMClear)
    case BMContainsRequest(_, _) => Some(BMContains)
    case BMDelRequest(_, _) => Some(BMDel)
    case BMCountRequest(_, _) => Some(BMCount)
    case BMRangeRequest(_, _) => Some(BMRange)
    case StartingInstanceRequest(_, _) => Some(StartingInstance)
    case StartedInstanceRequest(_, _) => Some(StartedInstance)
    case StopInstanceRequest(_, _) => Some(StopInstance)
    case CreateInstanceStateShardRequest(_, _) => Some(CreateInstanceStateShard)
    case UpdateInstanceStateShardRequest(_, _) => Some(UpdateInstanceStateShard)
    case RemoveInstanceStateShardRequest(_, _, _, _) => Some(RemoveInstanceStateShard)
    case StepInstanceStateShardRequest(_) => Some(StepInstanceStateShard)
    case QueueAddRequest(_, _) => Some(QueueAdd)
    case QueueFetchRequest(_, _) => Some(QueueFetch)
    case ScanRequest(_, _, _, _) => None
  }

  /** Distinct types have distinct wire codes. */
  lemma CodeInjective(a: RpcType, b: RpcType)
    ensures Code(a) == Code(b) <==> a == b
  {
  }
}
