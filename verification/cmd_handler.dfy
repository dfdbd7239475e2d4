/** Command dispatch: how a typed request becomes a replicated command
    envelope (`BuildRequest`), which types the store registers as read or
    write handlers (`init`), and how stored values lose their type prefix
    (`getValue`). */
module CmdHandler {
  import opened Common
  import opened Rpc

  /** `raftcmdpb.Read` / `raftcmdpb.Write`. */
  datatype CmdType = Read | Write

  /** The fields `BuildRequest` fills in: the routing key, the custom type,
      the read/write classification and the command payload (the request
      itself stands for its marshalled form). */
  datatype Envelope = Envelope(key: Key, custemType: RpcType, cmdType: CmdType, cmd: Request)

  /** The types served by the read path; every other handled type is a write. */
  predicate IsReadType(t: RpcType)
  {
    t == Get || t == BMContains || t == BMCount || t == BMRange
  }

  /** The requests `BuildRequest` has no case for. */
  predicate Unhandled(r: Request)
  {
    r.BMDelRequest? || r.StepInstanceStateShardRequest? || r.ScanRequest?
  }

  /** `BuildRequest`: one case per request type; any other request reaches
      `log.Fatalf`. */
  function BuildRequest(r: Request): (e: Exit<Envelope>)
    ensures e.Fatal? <==> Unhandled(r)
    ensures e.Returns? ==> TypeOf(r) == Some(e.value.custemType)
    ensures e.Returns? ==> (e.value.cmdType == Read <==> IsReadType(e.value.custemType))
    ensures e.Returns? ==> e.value.cmd == r
  {
    match r
    case SetRequest(k, _, _) => Returns(Envelope(KVKey(k), Set, Write, r))
    case GetRequest(k) => Returns(Envelope(KVKey(k), Get, Read, r))
    case DeleteRequest(k) => Returns(Envelope(KVKey(k), Delete, Write, r))
    case AllocIDRequest(k, _) => Returns(Envelope(KVKey(k), AllocID, Write, r))
    case ResetIDRequest(k, _) => Returns(Envelope(KVKey(k), ResetID, Write, r))
    case BMCreateRequest(k, _) => Returns(Envelope(KVKey(k), BMCreate, Write, r))
    case BMAddRequest(k, _) => Returns(Envelope(KVKey(k), BMAdd, Write, r))
    case BMRemoveRequest(k, _) => Returns(Envelope(KVKey(k), BMRemove, Write, r))
    case BMClearRequest(k, _) => Returns(Envelope(KVKey(k), BMClear, Write, r))
    case BMContainsRequest(k, _) => Returns(Envelope(KVKey(k), BMContains, Read, r))
    case BMCountRequest(k, _) => Returns(Envelope(KVKey(k), BMCount, Read, r))
    case BMRangeRequest(k, _) => Returns(Envelope(KVKey(k), BMRange, Read, r))
    case StartingInstanceRequest(id, _) =>
      Returns(Envelope(StartedInstanceKey(id), StartingInstance, Write, r))
    case StartedInstanceRequest(wid, _) =>
      Returns(Envelope(StartedInstanceKey(wid), StartedInstance, Write, r))
    case StopInstanceRequest(wid, _) =>
      Returns(Envelope(StartedInstanceKey(wid), StopInstance, Write, r))
    case CreateInstanceStateShardRequest(s, _) =>
      Returns(Envelope(InstanceShardKey(s.workflowId, s.start, s.end), CreateInstanceStateShard, Write, r))
    case UpdateInstanceStateShardRequest(s, _) =>
      Returns(Envelope(InstanceShardKey(s.workflowId, s.start, s.end), UpdateInstanceStateShard, Write, r))
    case RemoveInstanceStateShardRequest(wid, lo, hi, _) =>
      Returns(Envelope(InstanceShardKey(wid, lo, hi), RemoveInstanceStateShard, Write, r))
    case QueueAddRequest(k, _) => Returns(Envelope(k, QueueAdd, Write, r))
    case QueueFetchRequest(k, _) => Returns(Envelope(k, QueueFetch, Write, r))
    case BMDelRequest(_, _) => Fatal("not support request")
    case StepInstanceStateShardRequest(_) => Fatal("not support request")
    case ScanRequest(_, _, _, _) => Fatal("not support request")
  }

  /** The key-value and bitmap requests: they carry a plain `key` field. */
  predicate KeyedByKV(r: Request)
  {
    r.SetRequest? || r.GetRequest? || r.DeleteRequest? || r.AllocIDRequest? || r.ResetIDRequest?
    || r.BMCreateRequest? || r.BMAddRequest? || r.BMRemoveRequest? || r.BMClearRequest?
    || r.BMContainsRequest? || r.BMCountRequest? || r.BMRangeRequest?
  }

  /** Key-value and bitmap requests route on the KV encoding of their key. */
  lemma KVRequestsRouteOnKVKey(r: Request)
    requires KeyedByKV(r)
    ensures BuildRequest(r).Returns? && BuildRequest(r).value.key == KVKey(r.key)
  {
  }

  /** Instance lifecycle requests route on the started-instance key of the
      instance: the snapshot id when starting, the workflow id otherwise. */
  lemma LifecycleRequestsRouteOnInstanceKey(r: Request)
    requires r.StartingInstanceRequest? || r.StartedInstanceRequest? || r.StopInstanceRequest?
    ensures BuildRequest(r).Returns?
    ensures BuildRequest(r).value.key ==
      StartedInstanceKey(if r.StartingInstanceRequest? then r.snapshotId else r.workflowId)
    ensures BuildRequest(r).value.cmdType == Write
  {
  }

  /** The three state-shard requests route on the shard key of
      (workflow id, start, end), wherever the request keeps those fields. */
  lemma ShardRequestsRouteOnShardKey(r: Request)
    requires r.CreateInstanceStateShardRequest? || r.UpdateInstanceStateShardRequest?
             || r.RemoveInstanceStateShardRequest?
    ensures BuildRequest(r).Returns?
    ensures r.RemoveInstanceStateShardRequest? ==>
      BuildRequest(r).value.key == InstanceShardKey(r.workflowId, r.start, r.end)
    ensures !r.RemoveInstanceStateShardRequest? ==>
      BuildRequest(r).value.key == InstanceShardKey(r.state.workflowId, r.state.start, r.state.end)
  {
  }

  /** Queue requests use the caller's key verbatim. */
  lemma QueueRequestsRouteVerbatim(r: Request)
    requires r.QueueAddRequest? || r.QueueFetchRequest?
    ensures BuildRequest(r).Returns? && BuildRequest(r).value.key == r.qkey
    ensures BuildRequest(r).value.cmdType == Write
  {
  }

  /** The routing key depends only on the routed fields: two requests of the
      same type with the same routed fields share a shard, whatever their
      payloads. */
  lemma RoutingIgnoresPayload(a: Request, b: Request)
    requires KeyedByKV(a) && KeyedByKV(b) && TypeOf(a) == TypeOf(b) && a.key == b.key
    ensures BuildRequest(a).value.key == BuildRequest(b).value.key
    ensures BuildRequest(a).value.cmdType == BuildRequest(b).value.cmdType
  {
  }

  /** One `AddReadFunc` / `AddWriteFunc` call of `init`. */
  datatype Registration = Registration(name: string, rpcType: RpcType, cmdType: CmdType)

  /** The handler table `init` registers, in order. */
  const InitTable: seq<Registration> := [
    Registration("get", Get, Read),
    Registration("allocid", AllocID, Write),
    Registration("resetid", ResetID, Write),
    Registration("bm-contains", BMContains, Read),
    Registration("bm-count", BMCount, Read),
    Registration("bm-range", BMRange, Read),
    Registration("starting-instance", StartingInstance, Write),
    Registration("started-instance", StartedInstance, Write),
    Registration("stop-instance", StopInstance, Write),
    Registration("create-state", CreateInstanceStateShard, Write),
    Registration("update-state", UpdateInstanceStateShard, Write),
    Registration("remove-state", RemoveInstanceStateShard, Write),
    Registration("queue-fetch", QueueFetch, Write)
  ]

  /** The classification `init` gives a type, if it registers one. */
  function Registered(table: seq<Registration>, t: RpcType): (c: Option<CmdType>)
    ensures c.Some? <==> exists i :: 0 <= i < |table| && table[i].rpcType == t
    ensures c.Some? ==> exists i :: 0 <= i < |table| && table[i] == Registration(table[i].name, t, c.value)
  {
    if |table| == 0 then None
    else if table[0].rpcType == t then Some(table[0].cmdType)
    else
      var rest := Registered(table[1..], t);
      assert rest.Some? ==> exists i :: 0 <= i < |table[1..]| && table[1..][i].rpcType == t;
      assert forall i :: 0 <= i < |table[1..]| ==> table[1..][i] == table[i + 1];
      rest
  }

  /** `init` registers no type twice (a second registration of a type would
      be a wiring bug). */
  lemma InitRegistersEachTypeOnce()
    ensures forall i, j :: 0 <= i < j < |InitTable| ==> InitTable[i].rpcType != InitTable[j].rpcType
  {
  }

  /** Every entry `init` registers is handled by `BuildRequest` with the
      same read/write classification. */
  lemma InitEntryAgreesWithBuildRequest(i: int, r: Request)
    requires 0 <= i < |InitTable| && TypeOf(r) == Some(InitTable[i].rpcType)
    ensures BuildRequest(r).Returns?
    ensures BuildRequest(r).value.cmdType == InitTable[i].cmdType
  {
    assert InitTable[i].cmdType == Read <==> IsReadType(InitTable[i].rpcType);
  }

  /** The same agreement, read through the registered-handler lookup. */
  lemma InitAgreesWithBuildRequest(r: Request)
    requires exists i :: 0 <= i < |InitTable| && TypeOf(r) == Some(InitTable[i].rpcType)
    ensures TypeOf(r).Some? && Registered(InitTable, TypeOf(r).value).Some?
    ensures BuildRequest(r).Returns?
    ensures BuildRequest(r).value.cmdType == Registered(InitTable, TypeOf(r).value).value
  {
    var t := TypeOf(r).value;
    var j :| 0 <= j < |InitTable| && TypeOf(r) == Some(InitTable[j].rpcType);
    var c := Registered(InitTable, t).value;
    var i :| 0 <= i < |InitTable| && InitTable[i] == Registration(InitTable[i].name, t, c);
    InitEntryAgreesWithBuildRequest(i, r);
  }

  /** `getValue`: the stored value without its one-byte type prefix; an
      empty stored value reads as nil (`None`), a store error is passed on. */
  function GetValue(stored: Result<bytes>): (r: Result<Option<bytes>>)
    ensures stored.Err? <==> r.Err?
    ensures stored.Err? ==> r.error == stored.error
    ensures stored.Ok? && |stored.value| == 0 ==> r == Ok(None)
    ensures stored.Ok? && |stored.value| > 0 ==>
      r.Ok? && r.value.Some? && |r.value.value| == |stored.value| - 1
      && [stored.value[0]] + r.value.value == stored.value
  {
    match stored
    case Err(e) => Err(e)
    case Ok(v) => if |v| == 0 then Ok(None) else Ok(Some(v[1..]))
  }

  /** `getValueWithPrefix`: the stored value as it is, nil when empty. */
  function GetValueWithPrefix(stored: Result<bytes>): (r: Result<Option<bytes>>)
    ensures stored.Err? <==> r.Err?
    ensures stored.Err? ==> r.error == stored.error
    ensures stored.Ok? && |stored.value| == 0 ==> r == Ok(None)
    ensures stored.Ok? && |stored.value| > 0 ==> r == Ok(Some(stored.value))
  {
    match stored
    case Err(e) => Err(e)
    case Ok(v) => if |v| == 0 then Ok(None) else Ok(Some(v))
  }

  /** The two readers agree on errors and on empty values, and otherwise
      differ by exactly the first stored byte. */
  lemma GetValueDropsOnlyThePrefix(stored: Result<bytes>)
    ensures GetValue(stored).Err? <==> GetValueWithPrefix(stored).Err?
    ensures GetValue(stored).Err? ==> GetValue(stored).error == GetValueWithPrefix(stored).error
    ensures GetValue(stored) == Ok(None) <==> GetValueWithPrefix(stored) == Ok(None)
    ensures GetValueWithPrefix(stored).Ok? && GetValueWithPrefix(stored).value.Some? ==>
      var full := GetValueWithPrefix(stored).value.value;
      GetValue(stored) == Ok(Some(full[1..])) && full == [full[0]] + GetValue(stored).value.value
  {
  }
}
