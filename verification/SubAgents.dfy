/** The pool of sub-agents: one record each, marked by its worker, cancelled by anyone at any time. */
module SubAgents {
  import opened Wrappers
  import opened Text

  datatype Status = Queued | Running | Completed | Failed | Cancelled

  datatype Record = Record(parentSessionId: string, status: Status, cancelled: bool, result: Option<string>, error: Option<string>)

  predicate IsTerminal(status: Status) {
    status.Completed? || status.Failed? || status.Cancelled?
  }

  /** What is done to the pool. New ids are unused. */
  datatype Op =
    | Create(id: string, parentSessionId: string)
    | MarkRunning(id: string)
    | MarkCompleted(id: string, result: string)
    | MarkFailed(id: string, error: string)
    | Cancel(target: Option<string>)

  function CancelRecord(r: Record): Record {
    Record(r.parentSessionId, if IsTerminal(r.status) then r.status else Cancelled, true, r.result, r.error)
  }

  function Apply(records: map<string, Record>, op: Op): map<string, Record> {
    match op
    case Create(id, parentSessionId) => records[id := Record(parentSessionId, Queued, false, None, None)]
    case MarkRunning(id) =>
      if id in records then records[id := records[id].(status := Running)] else records
    case MarkCompleted(id, result) =>
      if id in records
      then records[id := records[id].(status := if records[id].cancelled then Cancelled else Completed, result := Some(result))]
      else records
    case MarkFailed(id, error) =>
      if id in records
      then records[id := records[id].(status := if records[id].cancelled then Cancelled else Failed, error := Some(error))]
      else records
    case Cancel(Some(id)) => if id in records then records[id := CancelRecord(records[id])] else records
    case Cancel(None) => map id | id in records :: CancelRecord(records[id])
  }

  function After(ops: seq<Op>): map<string, Record> {
    if ops == [] then map[] else Apply(After(ops[..|ops| - 1]), ops[|ops| - 1])
  }

  // ---------------------------------------------------------------- one record's history

  predicate Creates(op: Op, id: string) {
    op.Create? && op.id == id
  }

  predicate Cancels(op: Op, id: string) {
    op.Cancel? && (op.target.None? || op.target.value == id)
  }

  predicate Finishes(op: Op, id: string) {
    (op.MarkCompleted? || op.MarkFailed?) && op.id == id
  }

  predicate Starts(op: Op, id: string) {
    op.MarkRunning? && op.id == id
  }

  lemma OneMoreOp(ops: seq<Op>, k: nat)
    requires k < |ops|
    ensures After(ops[..k + 1]) == Apply(After(ops[..k]), ops[k])
  {
    assert ops[..k + 1][..k] == ops[..k];
  }

  /** What one operation does to one record. */
  lemma {:induction false} OneRecord(records: map<string, Record>, op: Op, id: string)
    requires id in records && !Creates(op, id)
    ensures var was, now := records[id], Apply(records, op);
            && id in now
            && (now[id].cancelled <==> was.cancelled || Cancels(op, id))
            && now[id].status == (if Starts(op, id) then Running
                                  else if Finishes(op, id) then
                                    if was.cancelled then Cancelled else if op.MarkCompleted? then Completed else Failed
                                  else if Cancels(op, id) && !IsTerminal(was.status) then Cancelled
                                  else was.status)
  {
  }

  predicate Untouched(ops: seq<Op>, from: nat, to: nat, id: string) {
    forall k :: from <= k < to && k < |ops| ==> !Creates(ops[k], id)
  }

  predicate CancelledBetween(ops: seq<Op>, from: nat, to: nat, id: string) {
    exists k :: from <= k < to && k < |ops| && Cancels(ops[k], id)
  }

  /** The cancel flag is up exactly when the record has been cancelled since it was made; it never
      comes down. */
  lemma {:induction false} FlagTellsOfCancel(ops: seq<Op>, start: nat, k: nat, id: string)
    requires start < k <= |ops| && Creates(ops[start], id) && Untouched(ops, start + 1, k, id)
    ensures id in After(ops[..k])
    ensures After(ops[..k])[id].cancelled <==> CancelledBetween(ops, start, k, id)
    decreases k
  {
    hide After;
    OneMoreOp(ops, k - 1);
    if start < k - 1 {
      FlagTellsOfCancel(ops, start, k - 1, id);
      OneRecord(After(ops[..k - 1]), ops[k - 1], id);
    }
  }

  /** One worker: after its completion mark at `mark` it touches the record no more. */
  predicate WorkerIsDone(ops: seq<Op>, mark: nat, id: string) {
    && mark < |ops| && Finishes(ops[mark], id)
    && forall k :: mark < k < |ops| ==> !Starts(ops[k], id) && !Finishes(ops[k], id)
  }

  /** However cancels fall in between, a worked-off sub-agent ends as cancelled exactly when a cancel
      came before its completion mark; a later one only raises the flag. */
  lemma {:induction false} CancelledExactlyWhen(ops: seq<Op>, start: nat, mark: nat, k: nat, id: string)
    requires start < mark < k <= |ops| && Creates(ops[start], id) && Untouched(ops, start + 1, |ops|, id)
    requires WorkerIsDone(ops, mark, id)
    ensures id in After(ops[..k])
    ensures After(ops[..k])[id].status
            == if CancelledBetween(ops, start, mark, id) then Cancelled
               else if ops[mark].MarkCompleted? then Completed else Failed
    decreases k
  {
    hide After;
    FlagTellsOfCancel(ops, start, k - 1, id);
    OneMoreOp(ops, k - 1);
    OneRecord(After(ops[..k - 1]), ops[k - 1], id);
    if mark < k - 1 {
      CancelledExactlyWhen(ops, start, mark, k - 1, id);
    }
  }

  /** Nothing started the record between these two operations. */
  predicate NoStart(ops: seq<Op>, from: nat, to: nat, id: string) {
    forall k :: from <= k < to && k < |ops| ==> !Starts(ops[k], id)
  }

  predicate NotFinished(ops: seq<Op>, from: nat, to: nat, id: string) {
    forall k :: from <= k < to && k < |ops| ==> !Finishes(ops[k], id)
  }

  /** Some cancel was not followed by a start. */
  predicate CancelledLast(ops: seq<Op>, from: nat, to: nat, id: string) {
    exists c :: from <= c < to && c < |ops| && Cancels(ops[c], id) && NoStart(ops, c + 1, to, id)
  }

  /** Before its completion mark a sub-agent shows as cancelled exactly when some cancel since it was
      made was not followed by a start: a worker that starts late shows it as running again. */
  lemma {:induction false} ShowsCancelledExactlyWhen(ops: seq<Op>, start: nat, k: nat, id: string)
    requires start < k <= |ops| && Creates(ops[start], id)
    requires Untouched(ops, start + 1, k, id) && NotFinished(ops, start + 1, k, id)
    ensures id in After(ops[..k])
    ensures After(ops[..k])[id].status.Cancelled? <==> CancelledLast(ops, start + 1, k, id)
    ensures After(ops[..k])[id].status in {Queued, Running, Cancelled}
    decreases k
  {
    hide After, Starts, Cancels;
    OneMoreOp(ops, k - 1);
    if start < k - 1 {
      ShowsCancelledExactlyWhen(ops, start, k - 1, id);
      OneRecord(After(ops[..k - 1]), ops[k - 1], id);
      CancelledLastGrows(ops, start + 1, k - 1, id);
      StartIsNoCancel(ops[k - 1], id);
    }
  }

  lemma StartIsNoCancel(op: Op, id: string)
    ensures !(Starts(op, id) && Cancels(op, id)) && !(Finishes(op, id) && Cancels(op, id))
  {
  }

  lemma CancelledLastGrows(ops: seq<Op>, from: nat, n: nat, id: string)
    requires from <= n < |ops|
    ensures CancelledLast(ops, from, n + 1, id)
            <==> Cancels(ops[n], id) || (CancelledLast(ops, from, n, id) && !Starts(ops[n], id))
  {
    hide Starts, Cancels;
    if CancelledLast(ops, from, n + 1, id) && !Cancels(ops[n], id) {
      var c :| from <= c < n + 1 && Cancels(ops[c], id) && NoStart(ops, c + 1, n + 1, id);
      assert NoStart(ops, c + 1, n, id);
    }
    if Cancels(ops[n], id) {
      assert NoStart(ops, n + 1, n + 1, id);
    } else if CancelledLast(ops, from, n, id) && !Starts(ops[n], id) {
      var c :| from <= c < n && Cancels(ops[c], id) && NoStart(ops, c + 1, n, id);
      assert NoStart(ops, c + 1, n + 1, id);
    }
  }

  // ---------------------------------------------------------------- snapshots

  datatype Snapshot = Snapshot(total: nat, queued: nat, running: nat, completed: nat, failed: nat, cancelled: nat, ids: set<string>)

  /** A blank filter lets every record through; any other is compared without its outer spaces. */
  predicate Matches(r: Record, filter: Option<string>) {
    filter.None? || Trim(filter.value) == "" || r.parentSessionId == Trim(filter.value)
  }

  function Selected(records: map<string, Record>, filter: Option<string>): set<string> {
    set id | id in records && Matches(records[id], filter)
  }

  function WithStatus(records: map<string, Record>, ids: set<string>, status: Status): set<string> {
    set id | id in ids && id in records && records[id].status == status
  }

  function SnapshotOf(records: map<string, Record>, filter: Option<string>): Snapshot {
    var ids := Selected(records, filter);
    Snapshot(|ids|,
             |WithStatus(records, ids, Queued)|, |WithStatus(records, ids, Running)|, |WithStatus(records, ids, Completed)|,
             |WithStatus(records, ids, Failed)|, |WithStatus(records, ids, Cancelled)|, ids)
  }

  /** Every selected record is counted under one status, whatever the filter. */
  lemma {:induction false} CountsAddUp(records: map<string, Record>, filter: Option<string>)
    ensures var s := SnapshotOf(records, filter);
            s.queued + s.running + s.completed + s.failed + s.cancelled == s.total
  {
    StatusesCoverAll(records, Selected(records, filter));
  }

  function CountAll(records: map<string, Record>, ids: set<string>): nat {
    |WithStatus(records, ids, Queued)| + |WithStatus(records, ids, Running)| + |WithStatus(records, ids, Completed)|
    + |WithStatus(records, ids, Failed)| + |WithStatus(records, ids, Cancelled)|
  }

  lemma {:induction false} StatusesCoverAll(records: map<string, Record>, ids: set<string>)
    requires ids <= records.Keys
    ensures CountAll(records, ids) == |ids|
    decreases |ids|
  {
    hide WithStatus;
    if ids == {} {
      NoneCounted(records);
    } else {
      var id :| id in ids;
      var rest := ids - {id};
      StatusesCoverAll(records, rest);
      assert ids == rest + {id};
      CountOneMore(records, rest, id, Queued);
      CountOneMore(records, rest, id, Running);
      CountOneMore(records, rest, id, Completed);
      CountOneMore(records, rest, id, Failed);
      CountOneMore(records, rest, id, Cancelled);
    }
  }

  lemma NoneCounted(records: map<string, Record>)
    ensures CountAll(records, {}) == 0
  {
    assert forall status :: WithStatus(records, {}, status) == {};
  }

  /** A record is selected by its parent session, or always when the filter is missing or blank. */
  predicate IsSelected(r: Record, filter: Option<string>) {
    match filter
    case None => true
    case Some(text) => IsBlank(text) || r.parentSessionId == Trim(text)
  }

  lemma {:induction false} FilterSelects(r: Record, filter: Option<string>)
    ensures Matches(r, filter) <==> IsSelected(r, filter)
  {
    hide Trim, IsBlank;
    if filter.Some? {
      TrimmedOrBlank(filter.value);
    }
  }

  /** One more record, if it is selected, adds one to the count of its own status and to no other. */
  lemma {:induction false} OneMoreRecord(records: map<string, Record>, id: string, r: Record, filter: Option<string>)
    requires id !in records
    ensures var was, now := SnapshotOf(records, filter), SnapshotOf(records[id := r], filter);
            var selected := IsSelected(r, filter);
            && now.queued == was.queued + (if selected && r.status == Queued then 1 else 0)
            && now.running == was.running + (if selected && r.status == Running then 1 else 0)
            && now.completed == was.completed + (if selected && r.status == Completed then 1 else 0)
            && now.failed == was.failed + (if selected && r.status == Failed then 1 else 0)
            && now.cancelled == was.cancelled + (if selected && r.status == Cancelled then 1 else 0)
            && now.total == was.total + (if selected then 1 else 0)
            && now.ids == was.ids + (if selected then {id} else {})
  {
    hide Matches, IsSelected, WithStatus;
    FilterSelects(r, filter);
    var was, selected := Selected(records, filter), Matches(r, filter);
    assert Selected(records[id := r], filter) == was + if selected then {id} else {};
    OneMoreCounted(records, id, r, was, selected, Queued);
    OneMoreCounted(records, id, r, was, selected, Running);
    OneMoreCounted(records, id, r, was, selected, Completed);
    OneMoreCounted(records, id, r, was, selected, Failed);
    OneMoreCounted(records, id, r, was, selected, Cancelled);
  }

  lemma {:induction false} OneMoreCounted(records: map<string, Record>, id: string, r: Record, ids: set<string>, selected: bool, status: Status)
    requires id !in records && ids <= records.Keys
    ensures |WithStatus(records[id := r], ids + if selected then {id} else {}, status)|
            == |WithStatus(records, ids, status)| + if selected && r.status == status then 1 else 0
  {
    var more := records[id := r];
    assert WithStatus(more, ids, status) == WithStatus(records, ids, status);
    if selected {
      CountOneMore(more, ids, id, status);
    } else {
      assert ids + {} == ids;
    }
  }

  /** A pool without records has nothing to count. */
  lemma {:induction false} NothingToCount(filter: Option<string>)
    ensures SnapshotOf(map[], filter) == Snapshot(0, 0, 0, 0, 0, 0, {})
  {
    hide Matches;
    assert Selected(map[], filter) == {};
    assert forall status :: WithStatus(map[], {}, status) == {};
  }

  // ---------------------------------------------------------------- the pool in place

  datatype PoolError = UnknownSubAgent

  class SubAgentPool {
    var records: map<string, Record>

    constructor ()
      ensures records == map[]
    {
      records := map[];
    }

    method CreateRecord(id: string, parentSessionId: string)
      modifies this
      ensures records == Apply(old(records), Create(id, parentSessionId))
    {
      records := records[id := Record(parentSessionId, Queued, false, None, None)];
    }

    method Running(id: string)
      modifies this
      ensures records == Apply(old(records), MarkRunning(id))
    {
      if id in records {
        records := records[id := records[id].(status := Status.Running)];
      }
    }

    method Complete(id: string, result: string)
      modifies this
      ensures records == Apply(old(records), MarkCompleted(id, result))
    {
      if id in records {
        var r := records[id];
        if r.cancelled {
          r := r.(status := Cancelled);
        } else {
          r := r.(status := Completed);
        }
        records := records[id := r.(result := Some(result))];
      }
    }

    method Fail(id: string, error: string)
      modifies this
      ensures records == Apply(old(records), MarkFailed(id, error))
    {
      if id in records {
        var r := records[id];
        if r.cancelled {
          r := r.(status := Cancelled);
        } else {
          r := r.(status := Failed);
        }
        records := records[id := r.(error := Some(error))];
      }
    }

    method CancelAll() returns (s: Snapshot)
      modifies this
      ensures records == Apply(old(records), Cancel(None))
      ensures s == SnapshotOf(records, None)
    {
      var left := records.Keys;
      while left != {}
        invariant left <= records.Keys && records.Keys == old(records).Keys
        invariant forall id :: id in records ==>
                    records[id] == if id in left then old(records)[id] else CancelRecord(old(records)[id])
        decreases |left|
      {
        var id :| id in left;
        var r := records[id].(cancelled := true);
        if !IsTerminal(r.status) {
          r := r.(status := Cancelled);
        }
        records := records[id := r];
        left := left - {id};
      }
      s := TakeSnapshot(None);
    }

    method CancelOne(id: string) returns (r: Result<Snapshot, PoolError>)
      modifies this
      ensures records == Apply(old(records), Cancel(Some(id)))
      ensures r == if id in old(records) then Ok(SnapshotOf(records, None)) else Err(UnknownSubAgent)
    {
      if id !in records {
        return Err(UnknownSubAgent);
      }
      var record := records[id].(cancelled := true);
      if !IsTerminal(record.status) {
        record := record.(status := Cancelled);
      }
      records := records[id := record];
      var snapshot := TakeSnapshot(None);
      return Ok(snapshot);
    }

    method CountStatus(ids: set<string>, status: Status) returns (count: nat)
      requires ids <= records.Keys
      ensures count == |WithStatus(records, ids, status)|
    {
      count := 0;
      var left := ids;
      assert WithStatus(records, ids - left, status) == {};
      while left != {}
        invariant left <= ids && count == |WithStatus(records, ids - left, status)|
        decreases |left|
      {
        var id :| id in left;
        CountOneMore(records, ids - left, id, status);
        assert ids - (left - {id}) == ids - left + {id};
        if records[id].status == status {
          count := count + 1;
        }
        left := left - {id};
      }
      assert ids - left == ids;
    }

    method TakeSnapshot(filter: Option<string>) returns (s: Snapshot)
      ensures s == SnapshotOf(records, filter)
    {
      var ids := Selected(records, filter);
      var queued := CountStatus(ids, Queued);
      var running := CountStatus(ids, Status.Running);
      var completed := CountStatus(ids, Completed);
      var failed := CountStatus(ids, Failed);
      var cancelled := CountStatus(ids, Cancelled);
      s := Snapshot(|ids|, queued, running, completed, failed, cancelled, ids);
    }
  }

  lemma CountOneMore(records: map<string, Record>, ids: set<string>, id: string, status: Status)
    requires id in records && id !in ids
    ensures |WithStatus(records, ids + {id}, status)|
            == |WithStatus(records, ids, status)| + if records[id].status == status then 1 else 0
  {
    var more := WithStatus(records, ids + {id}, status);
    if records[id].status == status {
      assert more == WithStatus(records, ids, status) + {id};
    } else {
      assert more == WithStatus(records, ids, status);
    }
  }
}
