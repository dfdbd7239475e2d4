/** The two paged tallies of the storage layer: `scanWorkflow`, which the
    leader's scan task runs, walks the instance lifecycle records, and
    `scanWorkflowShards`, which has no caller in this model, walks the
    instance-state shard records, in pages of 16, bucketing each record by the type byte that
    prefixes its value. The store is modelled as the records of the scanned
    key range in ascending key order; a record's `key` is its position in
    that order (the instance id, or the (workflow id, index) pair). */
module WorkflowScan {
  import opened Common

  /** A stored record: the type byte its value starts with, and its key. */
  datatype Rec = Rec(tag: byte, key: nat)

  /** Keys strictly ascend, as the store returns them. */
  predicate Ascending(s: seq<Rec>)
  {
    forall i, j :: 0 <= i < j < |s| ==> s[i].key < s[j].key
  }

  /** The records with `lo <= key < hi`, in store order. */
  function Between(s: seq<Rec>, lo: int, hi: int): (r: seq<Rec>)
    ensures |r| <= |s|
    ensures forall i :: 0 <= i < |r| ==> lo <= r[i].key < hi
  {
    if |s| == 0 then []
    else
      var rest := Between(s[1..], lo, hi);
      if lo <= s[0].key < hi then [s[0]] + rest else rest
  }

  /** The records the store's range scan returns: those in `[lo, hi)` in
      key order, at most `limit` of them. */
  function Page(s: seq<Rec>, lo: int, hi: int, limit: nat): (r: seq<Rec>)
    ensures r <= Between(s, lo, hi)
    ensures |r| <= limit
    ensures |r| < limit ==> r == Between(s, lo, hi)
    ensures forall i :: 0 <= i < |r| ==> lo <= r[i].key < hi
  {
    var all := Between(s, lo, hi);
    all[..Min(limit, |all|)]
  }

  /** The page size of both scans. */
  const PageLimit: nat := 16

  lemma BetweenEmptyRange(s: seq<Rec>, lo: int, hi: int)
    requires hi <= lo
    ensures Between(s, lo, hi) == []
  {
  }

  /** Every record of a range has a key above any bound the whole store
      keeps. */
  lemma {:induction false} BetweenAbove(s: seq<Rec>, lo: int, hi: int, b: int)
    requires forall i :: 0 <= i < |s| ==> s[i].key > b
    ensures forall i :: 0 <= i < |Between(s, lo, hi)| ==> Between(s, lo, hi)[i].key > b
  {
    if |s| > 0 {
      BetweenAbove(s[1..], lo, hi, b);
    }
  }

  /** A range that covers every stored key holds the whole store. */
  lemma {:induction false} BetweenWhole(s: seq<Rec>, lo: int, hi: int)
    requires forall i :: 0 <= i < |s| ==> lo <= s[i].key < hi
    ensures Between(s, lo, hi) == s
  {
    if |s| > 0 {
      BetweenWhole(s[1..], lo, hi);
      assert [s[0]] + s[1..] == s;
    }
  }

  /** A range below every stored key holds no record. */
  lemma {:induction false} BetweenBelowAll(s: seq<Rec>, lo: int, hi: int)
    requires forall i :: 0 <= i < |s| ==> s[i].key >= hi
    ensures Between(s, lo, hi) == []
  {
    if |s| > 0 {
      BetweenBelowAll(s[1..], lo, hi);
    }
  }

  lemma {:induction false} BetweenAscending(s: seq<Rec>, lo: int, hi: int)
    requires Ascending(s)
    ensures Ascending(Between(s, lo, hi))
  {
    if |s| > 0 {
      BetweenAscending(s[1..], lo, hi);
      BetweenAbove(s[1..], lo, hi, s[0].key);
    }
  }

  /** Splitting a key range splits the records in it. */
  lemma {:induction false} BetweenSplit(s: seq<Rec>, lo: int, m: int, hi: int)
    requires Ascending(s) && lo <= m <= hi
    ensures Between(s, lo, hi) == Between(s, lo, m) + Between(s, m, hi)
  {
    if |s| > 0 {
      var t := s[1..];
      BetweenSplit(t, lo, m, hi);
      if m <= s[0].key {
        BetweenBelowAll(t, lo, m);
      }
    }
  }

  /** A non-empty prefix of the records in a range is exactly the records up
      to and including the prefix's last key. */
  lemma PagePrefix(s: seq<Rec>, lo: int, hi: int, k: nat)
    requires Ascending(s)
    requires 0 < k <= |Between(s, lo, hi)|
    ensures
      var t := Between(s, lo, hi);
      var x := t[k - 1].key;
      && lo <= x < hi
      && t[..k] == Between(s, lo, x + 1)
      && t[k..] == Between(s, x + 1, hi)
  {
    var t := Between(s, lo, hi);
    var x := t[k - 1].key;
    BetweenAscending(s, lo, hi);
    BetweenSplit(s, lo, x + 1, hi);
    var a := Between(s, lo, x + 1);
    assert t == a + Between(s, x + 1, hi);
    var b := Between(s, x + 1, hi);
    SplitAtKey(a, b, x);
    assert k - 1 < |a|;
    assert k < |t| ==> t[k].key > x;
    assert |a| == k;
    assert t[..k] == a;
  }

  /** Records whose keys are at most `x`, followed by records whose keys
      exceed it: a position holds a key at most `x` exactly when it lies in
      the first part. */
  lemma SplitAtKey(a: seq<Rec>, b: seq<Rec>, x: int)
    requires forall i :: 0 <= i < |a| ==> a[i].key <= x
    requires forall i :: 0 <= i < |b| ==> b[i].key > x
    ensures forall i :: 0 <= i < |a + b| ==> ((a + b)[i].key <= x <==> i < |a|)
  {
  }

  /** How many records of `s` carry type byte `t`. */
  function CountTag(s: seq<Rec>, t: byte): (n: nat)
    ensures n <= |s|
  {
    if |s| == 0 then 0
    else CountTag(s[..|s| - 1], t) + (if s[|s| - 1].tag == t then 1 else 0)
  }

  lemma {:induction false} CountTagAppend(a: seq<Rec>, b: seq<Rec>, t: byte)
    ensures CountTag(a + b, t) == CountTag(a, t) + CountTag(b, t)
    decreases |b|
  {
    if |b| == 0 {
      assert a + b == a;
    } else {
      assert (a + b)[..|a + b| - 1] == a + b[..|b| - 1];
      CountTagAppend(a, b[..|b| - 1], t);
    }
  }

  /** The counters a scan publishes: one per tracked type byte. */
  function Tally(s: seq<Rec>, tags: seq<byte>): (c: seq<nat>)
    ensures |c| == |tags|
    ensures forall j :: 0 <= j < |tags| ==> c[j] == CountTag(s, tags[j])
  {
    seq(|tags|, j requires 0 <= j < |tags| => CountTag(s, tags[j]))
  }

  /** The type bytes of a Go `switch`: constants, so pairwise distinct. */
  predicate Distinct(tags: seq<byte>)
  {
    forall i, j :: 0 <= i < j < |tags| ==> tags[i] != tags[j]
  }

  /** The `switch value[0]` of the scan loops: the one counter whose type
      byte matches is incremented; a value of any other type changes none. */
  function Bump(counts: seq<nat>, tags: seq<byte>, t: byte): (c: seq<nat>)
    requires |counts| == |tags| && Distinct(tags)
    ensures |c| == |counts|
    ensures forall j :: 0 <= j < |tags| && tags[j] == t ==>
      c[j] == counts[j] + 1 && forall i :: 0 <= i < |tags| && i != j ==> c[i] == counts[i]
    ensures (forall j :: 0 <= j < |tags| ==> tags[j] != t) ==> c == counts
  {
    seq(|counts|, j requires 0 <= j < |counts| => if tags[j] == t then counts[j] + 1 else counts[j])
  }

  lemma BumpTally(s: seq<Rec>, r: Rec, tags: seq<byte>)
    requires Distinct(tags)
    ensures Tally(s + [r], tags) == Bump(Tally(s, tags), tags, r.tag)
  {
    forall j | 0 <= j < |tags|
      ensures CountTag(s + [r], tags[j]) == CountTag(s, tags[j]) + (if r.tag == tags[j] then 1 else 0)
    {
      CountTagAppend(s, [r], tags[j]);
      assert CountTag([r], tags[j]) == (if r.tag == tags[j] then 1 else 0) by {
        assert [r][..0] == [];
      }
    }
  }

  /** The number of range scans a full walk over `n` records issues: one
      per full page, one for a final partial page, and the empty one that
      ends the walk. */
  function PageCalls(n: nat): (c: nat)
  {
    (n + PageLimit - 1) / PageLimit + 1
  }

  /** After `calls` range scans, `done` records have been tallied and
      `remaining` are left: every scan so far returned a full page, or the
      last one returned a partial page and nothing is left. */
  predicate Accounted(done: nat, remaining: nat, calls: nat)
  {
    || done == PageLimit * calls
    || (0 < calls && remaining == 0 && PageLimit * (calls - 1) < done < PageLimit * calls)
  }

  /** One more range scan returns `page` records: an empty page is the last
      scan of the walk, and a non-empty one keeps the accounting. */
  lemma PageAccounting(total: nat, done: nat, calls: nat, page: nat)
    requires done <= total && page == Min(PageLimit, total - done)
    requires Accounted(done, total - done, calls) && calls < PageCalls(total)
    ensures page == 0 ==> calls + 1 == PageCalls(total)
    ensures page > 0 ==>
      Accounted(done + page, total - done - page, calls + 1) && calls + 1 < PageCalls(total)
  {
    if page == 0 {
      assert total == done;
      if done != PageLimit * calls {
        assert (total + PageLimit - 1) / PageLimit == calls;
      }
    } else if page < PageLimit {
      assert done == PageLimit * calls;
      assert (total + PageLimit - 1) / PageLimit >= calls + 1;
    } else {
      assert done == PageLimit * calls;
      assert total >= PageLimit * (calls + 1);
      assert (total + PageLimit - 1) / PageLimit >= calls + 1;
    }
  }

  /** A scan cycle either publishes its counters or, when a range scan
      fails, bumps the failure metric and publishes nothing. */
  datatype ScanOutcome = Published(counts: seq<nat>) | Failed

  /** The inner loop over one page: bucket every record in order onto the
      counters of the records before it, and at the last record move the
      cursor to its key plus one. */
  method TallyPage(counts: seq<nat>, ghost before: seq<Rec>, values: seq<Rec>, tags: seq<byte>, start: int)
    returns (counts': seq<nat>, start': int)
    requires Distinct(tags) && counts == Tally(before, tags)
    ensures counts' == Tally(before + values, tags)
    ensures |values| == 0 ==> start' == start
    ensures |values| > 0 ==> start' == values[|values| - 1].key + 1
  {
    counts' := counts;
    start' := start;
    var idx := 0;
    assert before + values[..0] == before;
    while idx < |values|
      invariant 0 <= idx <= |values|
      invariant counts' == Tally(before + values[..idx], tags)
      invariant (idx == 0 || idx < |values|) ==> start' == start
      invariant 0 < idx == |values| ==> start' == values[|values| - 1].key + 1
    {
      assert (before + values[..idx]) + [values[idx]] == before + values[..idx + 1];
      BumpTally(before + values[..idx], values[idx], tags);
      counts' := Bump(counts', tags, values[idx].tag);
      if idx == |values| - 1 {
        start' := values[idx].key + 1;
      }
      idx := idx + 1;
    }
    assert values[..idx] == values;
  }

  /** A non-empty page moves the cursor past its last key: the records
      before the new cursor are the old ones plus the page, fewer records
      remain, and the scan count stays accounted for. */
  lemma AdvancePage(store: seq<Rec>, end: nat, from: nat, calls: nat, total: nat)
    requires Ascending(store) && from <= end
    requires |Between(store, 0, from)| + |Between(store, from, end)| == total
    requires Accounted(|Between(store, 0, from)|, |Between(store, from, end)|, calls)
    requires calls < PageCalls(total)
    requires |Page(store, from, end, PageLimit)| > 0
    ensures
      var values := Page(store, from, end, PageLimit);
      var next := values[|values| - 1].key + 1;
      && from < next <= end
      && Between(store, 0, next) == Between(store, 0, from) + values
      && |Between(store, 0, next)| + |Between(store, next, end)| == total
      && |Between(store, next, end)| < |Between(store, from, end)|
      && Accounted(|Between(store, 0, next)|, |Between(store, next, end)|, calls + 1)
      && calls + 1 < PageCalls(total)
  {
    var values := Page(store, from, end, PageLimit);
    var done := |Between(store, 0, from)|;
    var next := values[|values| - 1].key + 1;
    PageAccounting(total, done, calls, |values|);
    PagePrefix(store, from, end, |values|);
    BetweenSplit(store, 0, from, next);
    BetweenSplit(store, from, next, end);
    assert |Between(store, 0, next)| == done + |values|;
  }

  /** An empty page ends the walk: the records before the cursor are all
      the records of the range, and this was the last range scan. */
  lemma LastPage(store: seq<Rec>, end: nat, from: nat, calls: nat, total: nat)
    requires Ascending(store) && from <= end
    requires |Between(store, 0, from)| + |Between(store, from, end)| == total
    requires Accounted(|Between(store, 0, from)|, |Between(store, from, end)|, calls)
    requires calls < PageCalls(total)
    requires |Page(store, from, end, PageLimit)| == 0
    ensures Between(store, 0, end) == Between(store, 0, from)
    ensures calls + 1 == PageCalls(total)
  {
    PageAccounting(total, |Between(store, 0, from)|, calls, 0);
    BetweenSplit(store, 0, from, end);
  }

  /** The walk's handling of one non-empty page: tally its records and move
      the cursor past its last key. The tally then covers every record
      below the new cursor, fewer records remain, and the number of range
      scans issued stays within `PageCalls`. */
  method TakePage(store: seq<Rec>, end: nat, tags: seq<byte>, values: seq<Rec>,
                  counts: seq<nat>, start: nat, calls: nat, ghost total: nat)
    returns (counts': seq<nat>, start': nat)
    requires Ascending(store) && Distinct(tags) && start <= end
    requires values == Page(store, start, end, PageLimit) && |values| > 0
    requires counts == Tally(Between(store, 0, start), tags)
    requires |Between(store, 0, start)| + |Between(store, start, end)| == total
    requires Accounted(|Between(store, 0, start)|, |Between(store, start, end)|, calls)
    requires calls < PageCalls(total)
    ensures start < start' <= end
    ensures counts' == Tally(Between(store, 0, start'), tags)
    ensures |Between(store, 0, start')| + |Between(store, start', end)| == total
    ensures |Between(store, start', end)| < |Between(store, start, end)|
    ensures Accounted(|Between(store, 0, start')|, |Between(store, start', end)|, calls + 1)
    ensures calls + 1 < PageCalls(total)
  {
    AdvancePage(store, end, start, calls, total);
    var next: int;
    counts', next := TallyPage(counts, Between(store, 0, start), values, tags, start);
    start' := next;
  }

  /** The paged walk shared by both scans: from key 0, fetch a page of at
      most 16 records in `[start, end)`, bucket every record, move `start`
      past the page's last key, and stop at the first empty page. The range
      scan numbered `failAt` (counting from 0), if any, fails. */
  method PagedScan(store: seq<Rec>, end: nat, tags: seq<byte>, failAt: Option<nat>)
    returns (out: ScanOutcome)
    requires Ascending(store) && Distinct(tags)
    ensures out.Published? ==> out.counts == Tally(Between(store, 0, end), tags)
    ensures out.Failed? <==> failAt.Some? && failAt.value < PageCalls(|Between(store, 0, end)|)
  {
    ghost var total := |Between(store, 0, end)|;
    var start := 0;
    var counts := seq(|tags|, j => 0);
    BetweenEmptyRange(store, 0, 0);
    var calls := 0;
    while true
      invariant 0 <= start <= end
      invariant counts == Tally(Between(store, 0, start), tags)
      invariant failAt.Some? ==> failAt.value >= calls
      invariant |Between(store, 0, start)| + |Between(store, start, end)| == total
      invariant Accounted(|Between(store, 0, start)|, |Between(store, start, end)|, calls)
      invariant calls < PageCalls(total)
      decreases |Between(store, start, end)|
    {
      if failAt == Some(calls) {
        return Failed;
      }
      var values := Page(store, start, end, PageLimit);
      if |values| == 0 {
        LastPage(store, end, start, calls, total);
        break;
      }
      counts, start := TakePage(store, end, tags, values, counts, start, calls, total);
      calls := calls + 1;
    }
    out := Published(counts);
  }

  /** The type bytes of lifecycle records (`instanceStartingType` ...). Their
      values are not part of this model; they are distinct. */
  const InstanceStartingType: byte := 0
  const InstanceStartedType: byte := 1
  const InstanceStoppingType: byte := 2
  const InstanceStoppedType: byte := 3

  /** The four counters `SetWorkflowCount` publishes. */
  datatype WorkflowCounts = WorkflowCounts(starting: nat, started: nat, stopping: nat, stopped: nat)

  datatype WorkflowOutcome = WorkflowPublished(counts: WorkflowCounts) | WorkflowFailed

  /** `scanWorkflow`: over instance ids in `[0, MaxUint64)` (the end key is
      exclusive), with the next page starting at the last id plus one. */
  method ScanWorkflow(store: seq<Rec>, failAt: Option<nat>) returns (out: WorkflowOutcome)
    requires Ascending(store)
    ensures out.WorkflowPublished? ==>
      var live := Between(store, 0, MaxUint64);
      out.counts == WorkflowCounts(
        CountTag(live, InstanceStartingType), CountTag(live, InstanceStartedType),
        CountTag(live, InstanceStoppingType), CountTag(live, InstanceStoppedType))
    ensures out.WorkflowFailed? <==>
      failAt.Some? && failAt.value < PageCalls(|Between(store, 0, MaxUint64)|)
  {
    var tags := [InstanceStartingType, InstanceStartedType, InstanceStoppingType, InstanceStoppedType];
    var r := PagedScan(store, MaxUint64, tags, failAt);
    match r
    case Failed => out := WorkflowFailed;
    case Published(c) => out := WorkflowPublished(WorkflowCounts(c[0], c[1], c[2], c[3]));
  }

  /** When every stored instance id is below MaxUint64, a published tally
      counts every stored record exactly once, under its own type. */
  lemma EveryRecordCountedOnce(store: seq<Rec>, t: byte)
    requires forall i :: 0 <= i < |store| ==> store[i].key < MaxUint64
    ensures CountTag(Between(store, 0, MaxUint64), t) == CountTag(store, t)
  {
    BetweenWhole(store, 0, MaxUint64);
  }

  /** The type bytes of state-shard records (`runningStateType`,
      `stoppedStateType`); placeholders, distinct. */
  const RunningStateType: byte := 0
  const StoppedStateType: byte := 1

  /** The position of the shard key (workflow id, index) in key order. */
  function ShardPos(workflowId: uint64, index: uint32): (p: nat)
    ensures p / TwoTo32 == workflowId && p % TwoTo32 == index
  {
    workflowId * TwoTo32 + index
  }

  /** The exclusive end key `InstanceShardKey(MaxUint64, MaxUint32)`. */
  const ShardEnd: nat := MaxUint64 * TwoTo32 + MaxUint32

  /** The cursor `scanWorkflowShards` computes after a page, as written:
      `Index+1` on the uint32 index, which wraps to 0. */
  function ShardCursorAsWritten(workflowId: uint64, index: uint32): (c: (uint64, uint32))
    ensures c.0 == workflowId
    ensures index < MaxUint32 ==> ShardPos(c.0, c.1) == ShardPos(workflowId, index) + 1
    ensures index == MaxUint32 ==> c.1 == 0 && ShardPos(c.0, c.1) < ShardPos(workflowId, index)
  {
    (workflowId, (index + 1) % TwoTo32)
  }

  /** The cursor the scan needs: the shard key right after (workflow id,
      index), carrying into the workflow id when the index is at its
      maximum. */
  function ShardCursor(workflowId: uint64, index: uint32): (c: (uint64, uint32))
    requires ShardPos(workflowId, index) < ShardEnd
    ensures ShardPos(c.0, c.1) == ShardPos(workflowId, index) + 1
  {
    if index < MaxUint32 then (workflowId, index + 1) else (workflowId + 1, 0)
  }

  /** As written, a shard whose index is MaxUint32 sends the cursor back to
      index 0 of its workflow: the next range scan returns the same page
      again, so the loop never reaches an empty page. */
  lemma AsWrittenShardCursorRepeatsPage()
    ensures
      var store := [Rec(RunningStateType, ShardPos(0, MaxUint32))];
      var first := Page(store, ShardPos(0, 0), ShardEnd, PageLimit);
      var c := ShardCursorAsWritten(0, MaxUint32);
      && first == store
      && ShardPos(c.0, c.1) < ShardPos(0, MaxUint32)
      && Page(store, ShardPos(c.0, c.1), ShardEnd, PageLimit) == first
  {
    var store := [Rec(RunningStateType, ShardPos(0, MaxUint32))];
    assert store[1..] == [];
  }

  /** The walk moves its cursor to the last key plus one; for a record at
      an in-range shard key that is exactly the corrected cursor, which
      agrees with the cursor as written except at index MaxUint32. */
  lemma ShardWalkUsesCorrectedCursor(r: Rec, workflowId: uint64, index: uint32)
    requires r.key == ShardPos(workflowId, index) < ShardEnd
    ensures
      var c := ShardCursor(workflowId, index);
      r.key + 1 == ShardPos(c.0, c.1)
    ensures index < MaxUint32 <==> ShardCursorAsWritten(workflowId, index) == ShardCursor(workflowId, index)
  {
  }

  /** The counters `SetWorkflowShardsCount` publishes. */
  datatype ShardCounts = ShardCounts(running: nat, stopped: nat)

  datatype ShardOutcome = ShardsPublished(counts: ShardCounts) | ShardsFailed

  /** `scanWorkflowShards` with the corrected cursor: over shard keys in
      `[(0, 0), (MaxUint64, MaxUint32))`, the next page starting at
      `ShardCursor` of the last record, which is its position plus one. */
  method ScanWorkflowShards(store: seq<Rec>, failAt: Option<nat>) returns (out: ShardOutcome)
    requires Ascending(store)
    ensures out.ShardsPublished? ==>
      var live := Between(store, 0, ShardEnd);
      out.counts == ShardCounts(CountTag(live, RunningStateType), CountTag(live, StoppedStateType))
    ensures out.ShardsFailed? <==>
      failAt.Some? && failAt.value < PageCalls(|Between(store, 0, ShardEnd)|)
  {
    var r := PagedScan(store, ShardEnd, [RunningStateType, StoppedStateType], failAt);
    match r
    case Failed => out := ShardsFailed;
    case Published(c) => out := ShardsPublished(ShardCounts(c[0], c[1]));
  }
}
