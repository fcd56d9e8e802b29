/** Permission requests: a tool that needs confirmation waits for one decision, which the user, a
    cancel or the end of the run sends. Taking a request out of the table and sending its decision
    are separate steps, and anything may happen in between. */
module Permissions {
  import opened Wrappers
  import opened Events

  datatype Decision = Approve | Deny

  datatype PermissionError = NotFound | OtherRun

  // ---------------------------------------------------------------- the table in place

  /** The sending half of a one-shot channel and what its receiver has got. */
  class OneShot {
    var value: Option<Decision>
    var receiverOpen: bool

    constructor ()
      ensures value == None && receiverOpen
    {
      value, receiverOpen := None, true;
    }

    method Send(decision: Decision)
      modifies this
      ensures receiverOpen == old(receiverOpen)
      ensures value == if old(receiverOpen) && old(value).None? then Some(decision) else old(value)
    {
      if receiverOpen && value.None? {
        value := Some(decision);
      }
    }
  }

  datatype Handle = Handle(runId: RunId, sender: OneShot)

  /** These requests have been moved from the table to the list. */
  ghost predicate IsTaken(was: map<string, Handle>, taken: set<string>, table: map<string, Handle>, pending: seq<Handle>) {
    && table == was - taken
    && (forall id :: id in taken ==> id in was && was[id] in pending)
    && (forall h :: h in pending ==> exists id :: id in taken && id in was && was[id] == h)
  }

  function IdsOf(table: map<string, Handle>, runId: RunId): set<string> {
    set id | id in table && table[id].runId == runId
  }

  lemma {:induction false} NothingTaken(was: map<string, Handle>)
    ensures IsTaken(was, {}, was, [])
  {
  }

  lemma {:induction false} TakeOne(was: map<string, Handle>, taken: set<string>, table: map<string, Handle>, pending: seq<Handle>, id: string)
    requires IsTaken(was, taken, table, pending) && id in was && id !in taken
    ensures id in table && table[id] == was[id]
    ensures IsTaken(was, taken + {id}, table - {id}, pending + [was[id]])
  {
    var more := pending + [was[id]];
    assert more[|pending|] == was[id];
    forall h | h in more
      ensures exists i :: i in taken + {id} && i in was && was[i] == h
    {
      if h in pending {
        var i :| i in taken && i in was && was[i] == h;
        assert i in taken + {id};
      } else {
        assert id in taken + {id};
      }
    }
  }

  lemma {:induction false} AllTaken(was: map<string, Handle>, runId: RunId, table: map<string, Handle>, pending: seq<Handle>)
    requires IsTaken(was, IdsOf(was, runId), table, pending)
    ensures table == map id | id in was && was[id].runId != runId :: was[id]
    ensures forall id :: id in was && was[id].runId == runId ==> was[id] in pending
    ensures forall h :: h in pending ==> exists id :: id in was && was[id] == h && h.runId == runId
    ensures HaveOwnSenders(was) ==> HaveOwnSenders(table)
  {
  }

  /** Every pending request has a channel of its own. */
  ghost predicate HaveOwnSenders(table: map<string, Handle>) {
    forall a, b :: a in table && b in table && table[a].sender == table[b].sender ==> a == b
  }

  class PermissionDesk {
    var table: map<string, Handle>
    var runs: map<RunId, bool>

    constructor ()
      ensures Valid() && table == map[] && runs == map[]
    {
      table, runs := map[], map[];
    }

    ghost predicate Valid()
      reads this`table
    {
      HaveOwnSenders(table)
    }

    /** The channels of a run's pending requests. */
    ghost function SendersOf(runId: RunId): set<OneShot>
      reads this`table
    {
      set id | id in table && table[id].runId == runId :: table[id].sender
    }

    method Request(id: string, runId: RunId) returns (receiver: OneShot)
      requires Valid() && id !in table
      modifies this`table
      ensures Valid() && fresh(receiver) && receiver.value == None && receiver.receiverOpen
      ensures table == old(table)[id := Handle(runId, receiver)]
    {
      receiver := new OneShot();
      table := table[id := Handle(runId, receiver)];
    }

    /** Takes a request out of the table if it belongs to the run. */
    method TakePermissionForRun(id: string, runId: RunId) returns (r: Result<Handle, PermissionError>)
      modifies this`table
      ensures r == if id !in old(table) then Err(NotFound)
                   else if old(table)[id].runId != runId then Err(OtherRun)
                   else Ok(old(table)[id])
      ensures table == if r.Ok? then old(table) - {id} else old(table)
    {
      if id !in table {
        return Err(NotFound);
      }
      if table[id].runId != runId {
        return Err(OtherRun);
      }
      var handle := table[id];
      table := table - {id};
      return Ok(handle);
    }

    method Resolve(id: string, runId: RunId, decision: Decision) returns (r: Result<bool, PermissionError>)
      requires Valid()
      modifies this`table, if id in table then {table[id].sender} else {}
      ensures Valid()
      ensures r.Ok? <==> id in old(table) && old(table)[id].runId == runId
      ensures r.Err? ==> table == old(table)
      ensures r.Err? && id in old(table) ==>
                old(table)[id].sender.value == old(table[id].sender.value)
      ensures r.Ok? ==> table == old(table) - {id}
      ensures r.Ok? && old(table[id].sender.receiverOpen && table[id].sender.value.None?) ==>
                old(table)[id].sender.value == Some(decision)
    {
      var taken := TakePermissionForRun(id, runId);
      if taken.Err? {
        return Err(taken.error);
      }
      taken.value.sender.Send(decision);
      return Ok(true);
    }

    /** Takes out exactly the run's requests. */
    method TakePendingForRun(runId: RunId) returns (pending: seq<Handle>)
      requires Valid()
      modifies this`table
      ensures Valid()
      ensures table == map id | id in old(table) && old(table)[id].runId != runId :: old(table)[id]
      ensures forall id :: id in old(table) && old(table)[id].runId == runId ==> old(table)[id] in pending
      ensures forall h :: h in pending ==> h.sender in old(SendersOf(runId))
    {
      hide IsTaken, HaveOwnSenders;
      ghost var was := table;
      var all := IdsOf(table, runId);
      var ids := all;
      pending := [];
      NothingTaken(was);
      assert all - ids == {};
      while ids != {}
        invariant ids <= all && all <= was.Keys
        invariant IsTaken(was, all - ids, table, pending)
        decreases |ids|
      {
        var id :| id in ids;
        TakeOne(was, all - ids, table, pending, id);
        assert all - (ids - {id}) == (all - ids) + {id};
        pending := pending + [table[id]];
        table := table - {id};
        ids := ids - {id};
      }
      assert all - ids == all;
      AllTaken(was, runId, table, pending);
    }

    /** Takes out exactly the run's requests, and denies each of them. */
    method DenyPendingForRun(runId: RunId)
      requires Valid()
      modifies this`table, SendersOf(runId)
      ensures Valid()
      ensures table == map id | id in old(table) && old(table)[id].runId != runId :: old(table)[id]
      ensures forall c :: c in old(SendersOf(runId)) && old(c.receiverOpen && c.value.None?) ==> c.value == Some(Deny)
    {
      ghost var senders := SendersOf(runId);
      var pending := TakePendingForRun(runId);
      assert forall h :: h in pending ==> h.sender in senders;
      DenyAll(pending);
    }

    method Cancel(runId: RunId) returns (found: bool)
      requires Valid()
      modifies this, SendersOf(runId)
      ensures Valid()
      ensures found <==> runId in old(runs)
      ensures !found ==> runs == old(runs) && table == old(table)
      ensures found ==> runs == old(runs)[runId := true]
                        && table == map id | id in old(table) && old(table)[id].runId != runId :: old(table)[id]
      ensures found ==> forall c :: c in old(SendersOf(runId)) && old(c.receiverOpen && c.value.None?) ==> c.value == Some(Deny)
    {
      if runId !in runs {
        return false;
      }
      runs := runs[runId := true];
      DenyPendingForRun(runId);
      return true;
    }

    method CleanupRun(runId: RunId)
      requires Valid()
      modifies this, SendersOf(runId)
      ensures Valid()
      ensures runs == old(runs) - {runId}
      ensures table == map id | id in old(table) && old(table)[id].runId != runId :: old(table)[id]
      ensures forall c :: c in old(SendersOf(runId)) && old(c.receiverOpen && c.value.None?) ==> c.value == Some(Deny)
    {
      runs := runs - {runId};
      DenyPendingForRun(runId);
    }
  }

  method DenyAll(pending: seq<Handle>)
    modifies set h | h in pending :: h.sender
    ensures forall h :: h in pending && old(h.sender.receiverOpen && h.sender.value.None?) ==> h.sender.value == Some(Deny)
  {
    for i := 0 to |pending|
      invariant forall h :: h in pending ==> h.sender.receiverOpen == old(h.sender.receiverOpen)
      invariant forall h :: h in pending && old(h.sender.receiverOpen && h.sender.value.None?) ==>
                  h.sender.value == None || h.sender.value == Some(Deny)
      invariant forall k :: 0 <= k < i && old(pending[k].sender.receiverOpen && pending[k].sender.value.None?) ==>
                  pending[k].sender.value == Some(Deny)
    {
      pending[i].sender.Send(Deny);
    }
  }
}
