/** Permission requests under every interleaving of asking, resolving, denying, delivering and
    giving up. */
module PermissionProtocol {
  import opened Wrappers
  import opened Events
  import opened Permissions

  datatype Waiter = Waiting | Answered(decision: Decision) | GaveUp

  datatype Asked = Asked(runId: RunId, waiter: Waiter)

  /** All requests ever made, those still in the table, and the decisions on their way to a waiter. */
  datatype State = State(requests: map<string, Asked>, table: map<string, RunId>, inFlight: map<string, Decision>)

  /** The atomic steps. `DenyRun` is what a cancel and a cleanup do to the table; a waiter gives up
      when its time is over or its run is dropped. */
  datatype Step =
    | Ask(id: string, runId: RunId)
    | ResolveRequest(id: string, runId: RunId, decision: Decision)
    | DenyRun(runId: RunId)
    | Deliver(id: string)
    | GiveUp(id: string)

  function Pending(s: State, runId: RunId): set<string> {
    set id | id in s.table && s.table[id] == runId
  }

  /** A step that cannot happen changes nothing; request ids are never used twice. */
  function Next(s: State, step: Step): State {
    match step
    case Ask(id, runId) =>
      if id in s.requests then s
      else s.(requests := s.requests[id := Asked(runId, Waiting)], table := s.table[id := runId])
    case ResolveRequest(id, runId, decision) =>
      if id in s.table && s.table[id] == runId
      then s.(table := s.table - {id}, inFlight := s.inFlight[id := decision])
      else s
    case DenyRun(runId) =>
      var ids := Pending(s, runId);
      s.(table := s.table - ids, inFlight := s.inFlight + map id | id in ids :: Deny)
    case Deliver(id) =>
      if id in s.inFlight && id in s.requests then
        var asked := s.requests[id];
        s.(inFlight := s.inFlight - {id},
           requests := if asked.waiter.Waiting? then s.requests[id := asked.(waiter := Answered(s.inFlight[id]))] else s.requests)
      else s
    case GiveUp(id) =>
      if id in s.requests && s.requests[id].waiter.Waiting?
      then s.(requests := s.requests[id := s.requests[id].(waiter := GaveUp)])
      else s
  }

  function After(steps: seq<Step>): State {
    if steps == [] then State(map[], map[], map[])
    else Next(After(steps[..|steps| - 1]), steps[|steps| - 1])
  }

  // ---------------------------------------------------------------- what every step keeps

  /** A request is in the table, on its way, or neither; while it waits it is in one of them, and
      once it is answered in none. */
  predicate Sound(s: State) {
    && (forall id :: id in s.table ==> id !in s.inFlight && id in s.requests && s.requests[id].runId == s.table[id])
    && (forall id :: id in s.inFlight ==> id in s.requests)
    && (forall id :: id in s.requests && s.requests[id].waiter.Waiting? ==> id in s.table || id in s.inFlight)
    && (forall id :: id in s.requests && s.requests[id].waiter.Answered? ==> id !in s.table && id !in s.inFlight)
  }

  lemma StepIsSound(s: State, step: Step)
    requires Sound(s)
    ensures Sound(Next(s, step))
  {
  }

  lemma {:induction false} AlwaysSound(steps: seq<Step>)
    ensures Sound(After(steps))
  {
    hide Next;
    if steps != [] {
      AlwaysSound(steps[..|steps| - 1]);
      StepIsSound(After(steps[..|steps| - 1]), steps[|steps| - 1]);
    }
  }

  /** A resolve that names the wrong run, or no pending request, changes nothing at all. */
  lemma {:induction false} WrongResolveChangesNothing(steps: seq<Step>, id: string, runId: RunId, decision: Decision)
    requires var s := After(steps); id in s.requests ==> s.requests[id].runId != runId || id !in s.table
    ensures After(steps + [ResolveRequest(id, runId, decision)]) == After(steps)
  {
    AlwaysSound(steps);
    assert (steps + [ResolveRequest(id, runId, decision)])[..|steps|] == steps;
  }

  /** A cancel or cleanup denies exactly the requests of its run that are pending. */
  lemma {:induction false} DenyRunTakesExactly(s: State, runId: RunId, id: string)
    requires Sound(s)
    ensures var t := Next(s, DenyRun(runId));
            && (id in t.table <==> id in s.table && s.table[id] != runId)
            && (id in t.table ==> t.table[id] == s.table[id])
            && (id in s.table && s.table[id] == runId ==> id in t.inFlight && t.inFlight[id] == Deny)
            && (id in s.inFlight ==> id in t.inFlight && t.inFlight[id] == s.inFlight[id])
            && t.requests == s.requests
  {
  }

  // ---------------------------------------------------------------- one decision for each request

  /** Step `k` takes the request out of the table. */
  predicate TakenAt(steps: seq<Step>, k: nat, id: string) {
    k < |steps| && id in After(steps[..k]).table && id !in After(steps[..k + 1]).table
  }

  /** Step `k` hands the request's decision over. */
  predicate DeliveredAt(steps: seq<Step>, k: nat, id: string) {
    k < |steps| && id in After(steps[..k]).inFlight && id !in After(steps[..k + 1]).inFlight
  }

  lemma OneMoreStep(steps: seq<Step>, k: nat)
    requires k < |steps|
    ensures After(steps[..k + 1]) == Next(After(steps[..k]), steps[k])
  {
    assert steps[..k + 1][..k] == steps[..k];
  }

  /** The decision that is on its way to a request, or has reached it. */
  function DecisionFor(s: State, id: string): Option<Decision> {
    if id in s.inFlight then Some(s.inFlight[id])
    else if id in s.requests && s.requests[id].waiter.Answered? then Some(s.requests[id].waiter.decision)
    else None
  }

  /** A step takes a pending request only by resolving it under its own run, or by denying its run. */
  predicate Decides(step: Step, id: string, runId: RunId, decision: Decision) {
    step == ResolveRequest(id, runId, decision) || (step == DenyRun(runId) && decision == Deny)
  }

  lemma StepOnRequest(s: State, step: Step, id: string)
    requires Sound(s) && id in s.requests
    ensures var t := Next(s, step);
            && id in t.requests && t.requests[id].runId == s.requests[id].runId
            && (id in t.table ==> id in s.table)
            && (id !in s.table && id !in s.inFlight ==> id !in t.inFlight)
            && (!s.requests[id].waiter.Waiting? ==> t.requests[id] == s.requests[id])
            && (DecisionFor(t, id).Some? ==>
                  || DecisionFor(t, id) == DecisionFor(s, id)
                  || (id in s.table && id !in t.table && Decides(step, id, s.requests[id].runId, DecisionFor(t, id).value)))
  {
  }

  lemma StepOnNewRequest(s: State, step: Step, id: string)
    requires Sound(s) && id !in s.requests
    ensures var t := Next(s, step);
            DecisionFor(t, id).None? && (id in t.requests ==> id in t.table)
  {
  }

  /** A request that has left the table, or has been delivered, never comes back; one that
      no longer waits stays as it is. */
  lemma {:induction false} GoneForGood(steps: seq<Step>, j: nat, k: nat, id: string)
    requires j <= k <= |steps| && id in After(steps[..j]).requests
    ensures var s, t := After(steps[..j]), After(steps[..k]);
            && id in t.requests && t.requests[id].runId == s.requests[id].runId
            && (id !in s.table ==> id !in t.table)
            && (id !in s.table && id !in s.inFlight ==> id !in t.inFlight)
            && (!s.requests[id].waiter.Waiting? ==> t.requests[id] == s.requests[id])
    decreases k
  {
    hide After, Next, Sound;
    if j < k {
      GoneForGood(steps, j, k - 1, id);
      OneMoreStep(steps, k - 1);
      AlwaysSound(steps[..k - 1]);
      StepOnRequest(After(steps[..k - 1]), steps[k - 1], id);
    }
  }

  lemma OneDecisionInOrder(steps: seq<Step>, j: nat, k: nat, id: string)
    requires j < k
    ensures !(TakenAt(steps, j, id) && TakenAt(steps, k, id))
    ensures !(DeliveredAt(steps, j, id) && DeliveredAt(steps, k, id))
  {
    hide After, Next;
    if k < |steps| && (TakenAt(steps, j, id) || DeliveredAt(steps, j, id)) {
      OneMoreStep(steps, j);
      AlwaysSound(steps[..j]);
      StepOnRequest(After(steps[..j]), steps[j], id);
      GoneForGood(steps, j + 1, k, id);
      if DeliveredAt(steps, j, id) {
        NotBackInTable(After(steps[..j]), steps[j], id);
      }
    }
  }

  lemma NotBackInTable(s: State, step: Step, id: string)
    requires Sound(s) && id in s.inFlight
    ensures id !in Next(s, step).table
  {
  }

  /** Each request is taken once and delivered once: it gets at most one decision. */
  lemma {:induction false} AtMostOneDecision(steps: seq<Step>, j: nat, k: nat, id: string)
    ensures TakenAt(steps, j, id) && TakenAt(steps, k, id) ==> j == k
    ensures DeliveredAt(steps, j, id) && DeliveredAt(steps, k, id) ==> j == k
  {
    hide TakenAt, DeliveredAt;
    if j < k {
      OneDecisionInOrder(steps, j, k, id);
    } else if k < j {
      OneDecisionInOrder(steps, k, j, id);
    }
  }

  /** Every decision is that of the one step that took the request: a resolve under the request's own
      id and run, or a deny of its run. */
  lemma {:induction false} EveryDecisionWasTaken(steps: seq<Step>, id: string) returns (k: nat)
    requires DecisionFor(After(steps), id).Some?
    ensures k < |steps| && TakenAt(steps, k, id) && id in After(steps).requests
    ensures || steps[k] == ResolveRequest(id, After(steps).requests[id].runId, DecisionFor(After(steps), id).value)
            || (steps[k] == DenyRun(After(steps).requests[id].runId) && DecisionFor(After(steps), id) == Some(Deny))
  {
    hide After, DecisionFor, Sound, Next;
    k := 0;
    if steps == [] {
      NoDecisionAtFirst(id);
    } else {
      var n := |steps| - 1;
      var before := steps[..n];
      k := n;
      OneMoreStep(steps, n);
      assert steps[..n + 1] == steps;
      AlwaysSound(before);
      if id !in After(before).requests {
        StepOnNewRequest(After(before), steps[n], id);
      } else {
        StepOnRequest(After(before), steps[n], id);
        if DecisionFor(After(before), id) == DecisionFor(After(steps), id) {
          k := EveryDecisionWasTaken(before, id);
          TakenInLonger(steps, n, k, id);
        }
      }
    }
  }

  lemma NoDecisionAtFirst(id: string)
    ensures DecisionFor(After([]), id).None?
  {
  }

  lemma TakenInLonger(steps: seq<Step>, n: nat, k: nat, id: string)
    requires n <= |steps| && TakenAt(steps[..n], k, id)
    ensures TakenAt(steps, k, id) && steps[..n][k] == steps[k]
  {
    assert steps[..n][..k] == steps[..k] && steps[..n][..k + 1] == steps[..k + 1];
  }

  /** A tool that needs confirmation goes ahead only when its own request was approved under its own
      run, while it was pending; whatever else happens, nothing turns that around. */
  lemma {:induction false} GoesAheadOnlyWhenApproved(steps: seq<Step>, id: string) returns (k: nat)
    requires id in After(steps).requests && After(steps).requests[id].waiter == Answered(Approve)
    ensures k < |steps| && steps[k] == ResolveRequest(id, After(steps).requests[id].runId, Approve)
    ensures TakenAt(steps, k, id) && forall j :: TakenAt(steps, j, id) ==> j == k
  {
    hide After, Next, TakenAt;
    AlwaysSound(steps);
    k := EveryDecisionWasTaken(steps, id);
    forall j | TakenAt(steps, j, id)
      ensures j == k
    {
      AtMostOneDecision(steps, j, k, id);
    }
  }

  /** A request that is pending when its run is cancelled or cleaned up never goes ahead. */
  lemma {:induction false} DeniedRunStaysDenied(steps: seq<Step>, n: nat, id: string)
    requires n < |steps| && id in After(steps[..n]).table && steps[n] == DenyRun(After(steps[..n]).table[id])
    requires id in After(steps).requests
    ensures After(steps).requests[id].waiter != Answered(Approve)
  {
    hide After, Sound;
    OneMoreStep(steps, n);
    assert TakenAt(steps, n, id);
    if After(steps).requests[id].waiter == Answered(Approve) {
      var k := GoesAheadOnlyWhenApproved(steps, id);
    }
  }

  lemma OneMoreAfter(steps: seq<Step>, step: Step)
    ensures After(steps + [step]) == Next(After(steps), step)
  {
    assert (steps + [step])[..|steps|] == steps;
  }

  /** The boundary of a cancel or cleanup: it denies what is pending, and reaches nothing that is
      asked after it. After any steps, a request of the run that was pending never goes ahead, while
      one asked next still does when it is approved. */
  lemma {:induction false} DenyReachesOnlyWhatIsPending(steps: seq<Step>, id: string, runId: RunId)
    ensures id in After(steps).table && After(steps).table[id] == runId ==>
              DecisionFor(After(steps + [DenyRun(runId)] + [ResolveRequest(id, runId, Approve)] + [Deliver(id)]), id) != Some(Approve)
    ensures id !in After(steps).requests ==>
              var s := After(steps + [DenyRun(runId)] + [Ask(id, runId)] + [ResolveRequest(id, runId, Approve)] + [Deliver(id)]);
              id in s.requests && s.requests[id].waiter == Answered(Approve)
  {
    hide After;
    AlwaysSound(steps);
    var denied := steps + [DenyRun(runId)];
    OneMoreAfter(steps, DenyRun(runId));
    OneMoreAfter(denied, ResolveRequest(id, runId, Approve));
    OneMoreAfter(denied + [ResolveRequest(id, runId, Approve)], Deliver(id));
    OneMoreAfter(denied, Ask(id, runId));
    OneMoreAfter(denied + [Ask(id, runId)], ResolveRequest(id, runId, Approve));
    OneMoreAfter(denied + [Ask(id, runId)] + [ResolveRequest(id, runId, Approve)], Deliver(id));
  }

  /** What a request waits for can still come, until its waiter gives up. */
  lemma {:induction false} WaitingCanBeAnswered(steps: seq<Step>, id: string)
    requires id in After(steps).requests && After(steps).requests[id].waiter.Waiting?
    ensures id in After(steps).table || id in After(steps).inFlight
    ensures id in After(steps).table ==>
              DecisionFor(After(steps + [DenyRun(After(steps).requests[id].runId)] + [Deliver(id)]), id) == Some(Deny)
  {
    hide After;
    AlwaysSound(steps);
    var run := After(steps).requests[id].runId;
    var denied := steps + [DenyRun(run)];
    assert denied[..|steps|] == steps && denied[..|denied|] == denied;
    OneMoreStep(denied, |steps|);
    var delivered := denied + [Deliver(id)];
    assert delivered[..|denied|] == denied && delivered[..|delivered|] == delivered;
    OneMoreStep(delivered, |denied|);
  }

  /** A waiter that gives up while it waits has given up for good: no decision that comes later counts. */
  lemma {:induction false} GivenUpForGood(steps: seq<Step>, more: seq<Step>, id: string)
    requires id in After(steps).requests && After(steps).requests[id].waiter.Waiting?
    ensures var end := After(steps + [GiveUp(id)] + more);
            id in end.requests && end.requests[id] == Asked(After(steps).requests[id].runId, GaveUp)
  {
    hide After;
    var given := steps + [GiveUp(id)];
    var all := given + more;
    assert given[..|steps|] == steps && given[..|given|] == given;
    assert all[..|given|] == given && all[..|all|] == all;
    OneMoreStep(given, |steps|);
    GoneForGood(all, |given|, |all|, id);
  }
}
