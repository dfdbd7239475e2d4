/** The storage facade: the requests the public key-value and queue
    operations hand to the replicated store, and the single workflow-scan
    task that follows this replica's leadership. */
module Storage {
  import opened Common
  import opened Rpc
  import CmdHandler

  /** `metapb.Group`: the replica group a command is executed in. */
  datatype Group = DefaultGroup | TenantInputGroup

  /** One command handed to the application layer (`ExecCommand` runs in
      the default group, `ExecCommandWithGroup` in the given one). */
  datatype Call = Call(req: Request, group: Group)

  /** `SetWithTTL`: the store executes a write of type Set routed on the
      key-value key of `key`, carrying the value and the TTL. */
  function SetWithTTL(key: bytes, value: bytes, ttl: int): (c: Call)
    ensures c.group == DefaultGroup
    ensures CmdHandler.BuildRequest(c.req)
      == Returns(CmdHandler.Envelope(KVKey(key), Set, CmdHandler.Write, c.req))
    ensures c.req.value == value && c.req.ttl == ttl
  {
    Call(SetRequest(key, value, ttl), DefaultGroup)
  }

  /** `Set`: the same write as `SetWithTTL`, with no expiry. */
  function SetKey(key: bytes, value: bytes): (c: Call)
    ensures c.group == DefaultGroup
    ensures CmdHandler.BuildRequest(c.req)
      == Returns(CmdHandler.Envelope(KVKey(key), Set, CmdHandler.Write, c.req))
    ensures c.req.value == value && c.req.ttl == 0
  {
    SetWithTTL(key, value, 0)
  }

  /** `Get`: the store executes a read of type Get routed on the key-value
      key of `key`. */
  function GetKey(key: bytes): (c: Call)
    ensures c.group == DefaultGroup
    ensures CmdHandler.BuildRequest(c.req)
      == Returns(CmdHandler.Envelope(KVKey(key), Get, CmdHandler.Read, c.req))
  {
    Call(GetRequest(key), DefaultGroup)
  }

  /** `Delete`: the store executes a write of type Delete routed on the
      key-value key of `key`. */
  function DeleteKey(key: bytes): (c: Call)
    ensures c.group == DefaultGroup
    ensures CmdHandler.BuildRequest(c.req)
      == Returns(CmdHandler.Envelope(KVKey(key), Delete, CmdHandler.Write, c.req))
  {
    Call(DeleteRequest(key), DefaultGroup)
  }

  /** `Scan`: a scan request over `[start, end)`. The dispatcher has no case
      for it, so executing it ends the process. */
  function ScanRange(start: Key, end: Key, limit: uint64, skipPrefix: int): (c: Call)
    ensures CmdHandler.BuildRequest(c.req).Fatal?
    ensures c.req.ScanRequest? && c.req.from == start && c.req.to == end
    ensures c.req.limit == limit && c.req.skip == skipPrefix
  {
    Call(ScanRequest(start, end, limit, skipPrefix), DefaultGroup)
  }

  /** `PutToQueue`: the store executes, in the given group, a write of type
      QueueAdd routed on the partition key of (id, partition) and carrying
      exactly the records. */
  function PutToQueue(id: uint64, partition: uint64, group: Group, data: seq<bytes>): (c: Call)
    ensures c.group == group
    ensures CmdHandler.BuildRequest(c.req)
      == Returns(CmdHandler.Envelope(PartitionKey(id, partition), QueueAdd, CmdHandler.Write, c.req))
    ensures c.req.QueueAddRequest? && c.req.items == data
  {
    Call(QueueAddRequest(PartitionKey(id, partition), data), group)
  }

  /** Writes, reads and deletes of one key land on the same shard, whatever
      the value and TTL; different keys are routed apart. */
  lemma KeyOperationsShareAShard(key: bytes, other: bytes, value: bytes, ttl: int)
    ensures
      var k := CmdHandler.BuildRequest(SetWithTTL(key, value, ttl).req).value.key;
      && k == CmdHandler.BuildRequest(SetKey(key, value).req).value.key
      && k == CmdHandler.BuildRequest(GetKey(key).req).value.key
      && k == CmdHandler.BuildRequest(DeleteKey(key).req).value.key
      && (other != key <==> k != CmdHandler.BuildRequest(GetKey(other).req).value.key)
  {
  }

  /** Queue writes to one partition share a routing key whatever their
      records and group; writes to different partitions or queues do not. */
  lemma QueuePartitionsRouteApart(id: uint64, p: uint64, id': uint64, p': uint64,
                                  g: Group, g': Group, data: seq<bytes>, data': seq<bytes>)
    ensures
      var k := CmdHandler.BuildRequest(PutToQueue(id, p, g, data).req).value.key;
      var k' := CmdHandler.BuildRequest(PutToQueue(id', p', g', data').req).value.key;
      k == k' <==> id == id' && p == p'
  {
  }

  /** As written, the first range scan of both tallies is a scan request,
      which the dispatcher does not handle: a tally ends the process before
      it reads a page. `scanWorkflow` is the one the leader's scan task
      runs; `scanWorkflowShards` has no caller in this model. */
  lemma WorkflowScansEndTheProcess()
    ensures CmdHandler.BuildRequest(
      ScanRange(StartedInstanceKey(0), StartedInstanceKey(MaxUint64), 16, 0).req).Fatal?
    ensures CmdHandler.BuildRequest(
      ScanRange(ShardScanKey(0, 0), ShardScanKey(MaxUint64, MaxUint32), 16, 0).req).Fatal?
  {
  }

  /** The cancellable tasks of the storage's task runner that run the
      workflow scan: `next` is the id the runner hands out next, `live`
      the ids of scan tasks not yet stopped. */
  datatype Runner = Runner(next: nat, live: set<nat>)

  /** The runner plus `scanTaskID`, the id of the last scan task started
      (0 before the first). */
  datatype ScanTasks = ScanTasks(scanTaskID: nat, runner: Runner)

  /** Task ids are positive and fresh; only the recorded task can be live. */
  predicate Valid(s: ScanTasks)
  {
    && 0 < s.runner.next
    && s.scanTaskID < s.runner.next
    && s.runner.live <= {s.scanTaskID}
    && 0 !in s.runner.live
  }

  /** The storage as created: no scan task recorded, none running. */
  const Initial: ScanTasks := ScanTasks(0, Runner(1, {}))

  /** `StopCancelableTask`: the task is no longer live; every other task
      keeps its state and no id is handed out. */
  function StopTask(r: Runner, id: nat): (r': Runner)
    ensures id !in r'.live
    ensures forall x :: x != id ==> (x in r'.live <==> x in r.live)
    ensures r'.next == r.next
  {
    Runner(r.next, r.live - {id})
  }

  /** `RunCancelableTask`: a fresh id, now live. */
  function RunTask(r: Runner): (res: (Runner, nat))
    requires 0 < r.next && forall id :: id in r.live ==> id < r.next
    ensures res.1 == r.next && res.1 !in r.live && 0 < res.1
    ensures res.0.live == r.live + {res.1} && res.0.next > res.1
  {
    (Runner(r.next + 1, r.live + {r.next}), r.next)
  }

  /** Stopping the task just started gives back the live tasks from
      before it started; stopping a task twice is stopping it once. */
  lemma StopUndoesRun(r: Runner, id: nat)
    requires 0 < r.next && forall x :: x in r.live ==> x < r.next
    ensures StopTask(RunTask(r).0, RunTask(r).1).live == r.live
    ensures StopTask(StopTask(r, id), id) == StopTask(r, id)
  {
  }

  /** `startWorkflowScan`: stops the recorded task (if any) before
      recording a newly started one. */
  function StartWorkflowScan(s: ScanTasks): (s': ScanTasks)
    requires Valid(s)
    ensures Valid(s')
    ensures s'.runner.live == {s'.scanTaskID} && s'.scanTaskID != s.scanTaskID
    ensures s'.scanTaskID !in s.runner.live
  {
    var r := if s.scanTaskID > 0 then StopTask(s.runner, s.scanTaskID) else s.runner;
    var (r', id) := RunTask(r);
    ScanTasks(id, r')
  }

  /** `stopWorkflowScan`: stops the recorded task but keeps its id. */
  function StopWorkflowScan(s: ScanTasks): (s': ScanTasks)
    requires Valid(s)
    ensures Valid(s')
    ensures s'.runner.live == {} && s'.scanTaskID == s.scanTaskID && s'.runner.next == s.runner.next
  {
    if s.scanTaskID > 0 then ScanTasks(s.scanTaskID, StopTask(s.runner, s.scanTaskID)) else s
  }

  /** A leadership notification from the placement service. */
  datatype Role = BecomeLeader | BecomeFollower

  /** `ProphetBecomeLeader` / `ProphetBecomeFollower`. */
  function Notify(s: ScanTasks, role: Role): (s': ScanTasks)
    requires Valid(s)
    ensures Valid(s')
    ensures role == BecomeLeader ==>
      s'.runner.live == {s'.scanTaskID} && s'.scanTaskID !in s.runner.live
    ensures role == BecomeFollower ==> s'.runner.live == {} && s'.scanTaskID == s.scanTaskID
  {
    match role
    case BecomeLeader => StartWorkflowScan(s)
    case BecomeFollower => StopWorkflowScan(s)
  }

  /** A run of notifications, in order. */
  function NotifyAll(s: ScanTasks, roles: seq<Role>): (s': ScanTasks)
    requires Valid(s)
    ensures Valid(s')
    decreases |roles|
  {
    if |roles| == 0 then s else NotifyAll(Notify(s, roles[0]), roles[1..])
  }

  /** However leadership toggles, at most one scan task is live, and one is
      live exactly when the last notification was becoming leader. */
  lemma {:induction false} AtMostOneScanTask(s: ScanTasks, roles: seq<Role>)
    requires Valid(s)
    decreases |roles|
    ensures |NotifyAll(s, roles).runner.live| <= 1
    ensures |roles| > 0 ==>
      (NotifyAll(s, roles).runner.live != {} <==> roles[|roles| - 1] == BecomeLeader)
    ensures |roles| == 0 ==> NotifyAll(s, roles) == s
  {
    var s' := NotifyAll(s, roles);
    assert s'.runner.live == {} || s'.runner.live == {s'.scanTaskID};
    if |roles| > 1 {
      AtMostOneScanTask(Notify(s, roles[0]), roles[1..]);
      assert roles[1..][|roles[1..]| - 1] == roles[|roles| - 1];
    } else if |roles| == 1 {
      assert |roles[1..]| == 0;
      assert s' == NotifyAll(Notify(s, roles[0]), roles[1..]) == Notify(s, roles[0]);
    }
  }

  /** The storage starts in a valid state, so from start-up, whatever the
      leadership changes, at most one scan task runs, and one runs exactly
      when the last change made this replica leader. */
  lemma ScanTasksFromStartup(roles: seq<Role>)
    ensures Valid(Initial) && Initial.runner.live == {}
    ensures |NotifyAll(Initial, roles).runner.live| <= 1
    ensures NotifyAll(Initial, roles).runner.live != {} <==>
      |roles| > 0 && roles[|roles| - 1] == BecomeLeader
  {
    AtMostOneScanTask(Initial, roles);
  }
}
