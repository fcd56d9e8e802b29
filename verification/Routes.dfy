/** The routing table that sends each agent-core event to the channel of the run it concerns, and
    the record of which sub-agents are running under which parent. */
module Routes {
  import opened Wrappers
  import opened Events
  import opened RunIds

  /** The table as a value: which runs have a sender, and the three child records. */
  datatype RouteTable = RouteTable(
    senders: set<RunId>,
    childToParent: map<RunId, RunId>,
    parentChildren: map<RunId, set<RunId>>,
    parentTerminal: set<RunId>)

  const EMPTY := RouteTable({}, map[], map[], {})

  function ChildrenOf(t: RouteTable, parent: RunId): set<RunId> {
    if parent in t.parentChildren then t.parentChildren[parent] else {}
  }

  /** The parent a session event names: in its payload, or else by its own run id. */
  function SessionParent(e: Event): Option<RunId> {
    match e.kind
    case SubAgentSession(Some(p)) => if p.parentRunId.Some? then p.parentRunId else e.runId
    case _ => None
  }

  function SessionChild(e: Event): Option<RunId> {
    match e.kind
    case SubAgentSession(Some(p)) => p.childRunId
    case _ => None
  }

  predicate SessionEnds(e: Event) {
    e.kind.SubAgentSession? && e.kind.payload.Some? && IsTerminalStatus(e.kind.payload.value.status)
  }

  function UnregisterChild(t: RouteTable, parent: RunId, child: RunId): RouteTable {
    var remaining := ChildrenOf(t, parent) - {child};
    t.(childToParent := t.childToParent - {child},
       parentChildren := if parent !in t.parentChildren then t.parentChildren
                         else if remaining == {} then t.parentChildren - {parent}
                         else t.parentChildren[parent := remaining])
  }

  function RegisterChild(t: RouteTable, parent: RunId, child: RunId): RouteTable {
    t.(childToParent := t.childToParent[child := parent],
       parentChildren := t.parentChildren[parent := ChildrenOf(t, parent) + {child}])
  }

  function UpdateSubagents(t: RouteTable, e: Event): RouteTable {
    var child, parent := SessionChild(e), SessionParent(e);
    if child.None? || parent.None? then t
    else if SessionEnds(e) then UnregisterChild(t, parent.value, child.value)
    else RegisterChild(t, parent.value, child.value)
  }

  /** A session event speaks of the parent that its payload names, or else of the run that sent it; without
      a child or without either it changes nothing. */
  lemma {:induction false} SessionSpeaksOf(t: RouteTable, e: Event, p: SessionPayload)
    requires e.kind == SubAgentSession(Some(p))
    ensures var parent := if p.parentRunId.Some? then p.parentRunId else e.runId;
            var ends := p.status in {Some(Completed), Some(Failed), Some(Cancelled)};
            UpdateSubagents(t, e)
            == if p.childRunId.None? || parent.None? then t
               else if ends then UnregisterChild(t, parent.value, p.childRunId.value)
               else RegisterChild(t, parent.value, p.childRunId.value)
    ensures UpdateSubagents(t, e.(kind := SubAgentSession(None))) == t
  {
    hide UnregisterChild, RegisterChild;
  }

  function ResolvedParent(t: RouteTable, runId: RunId): Option<RunId> {
    if runId in t.childToParent then Some(t.childToParent[runId]) else SubagentParentRunId(runId)
  }

  datatype Route = Route(runId: RunId, exact: bool)

  /** A run's own sender if it has one, else the sender of the parent it resolves to. */
  function RouteOf(t: RouteTable, runId: RunId): Option<Route> {
    if runId in t.senders then Some(Route(runId, true))
    else
      var parent := ResolvedParent(t, runId);
      if parent.Some? && parent.value in t.senders then Some(Route(parent.value, false)) else None
  }

  function MarkTerminal(t: RouteTable, runId: RunId, parent: Option<RunId>): RouteTable {
    if parent.Some? then UnregisterChild(t, parent.value, runId)
    else t.(parentTerminal := t.parentTerminal + {runId})
  }

  /** The part of routing an event that runs under the lock. */
  function Resolve(t: RouteTable, e: Event, runId: RunId): RouteTable {
    var updated := UpdateSubagents(t, e);
    if IsTerminal(e) then MarkTerminal(updated, runId, ResolvedParent(updated, runId)) else updated
  }

  function ResolveRoute(t: RouteTable, e: Event, runId: RunId): Option<Route> {
    RouteOf(UpdateSubagents(t, e), runId)
  }

  predicate HasNoActiveChildren(t: RouteTable, runId: RunId) {
    ChildrenOf(t, runId) == {}
  }

  /** Whether the channel an event was just sent to is to be closed. */
  predicate ClosesAfter(t: RouteTable, e: Event, route: Route) {
    if route.exact then IsTerminal(e) && HasNoActiveChildren(t, route.runId)
    else route.runId in t.parentTerminal && HasNoActiveChildren(t, route.runId)
  }

  function RemoveSender(t: RouteTable, runId: RunId): RouteTable {
    RouteTable(t.senders - {runId}, t.childToParent - ChildrenOf(t, runId),
               t.parentChildren - {runId}, t.parentTerminal - {runId})
  }

  // ---------------------------------------------------------------- the table in place

  /** The sending half of a run's event channel. */
  class RunChannel {
    var delivered: seq<Event>
    var receiverOpen: bool

    constructor ()
      ensures delivered == [] && receiverOpen
    {
      delivered, receiverOpen := [], true;
    }

    method BlockingSend(e: Event) returns (ok: bool)
      modifies this`delivered
      ensures ok == receiverOpen
      ensures delivered == old(delivered) + if ok then [e] else []
    {
      if receiverOpen {
        delivered := delivered + [e];
      }
      return receiverOpen;
    }
  }

  class EventRoutes {
    var senders: map<RunId, RunChannel>
    var childToParent: map<RunId, RunId>
    var parentChildren: map<RunId, set<RunId>>
    var parentTerminal: set<RunId>

    function Table(): RouteTable
      reads this
    {
      RouteTable(senders.Keys, childToParent, parentChildren, parentTerminal)
    }

    constructor ()
      ensures Table() == EMPTY
    {
      senders, childToParent, parentChildren, parentTerminal := map[], map[], map[], {};
    }

    method RegisterSender(runId: RunId) returns (channel: RunChannel)
      modifies this`senders
      ensures fresh(channel) && channel.delivered == [] && channel.receiverOpen
      ensures senders == old(senders)[runId := channel]
    {
      channel := new RunChannel();
      senders := senders[runId := channel];
    }

    method UnregisterChildRoute(parent: RunId, child: RunId)
      modifies this`childToParent, this`parentChildren
      ensures Table() == UnregisterChild(old(Table()), parent, child)
    {
      childToParent := childToParent - {child};
      if parent in parentChildren {
        var children := parentChildren[parent] - {child};
        parentChildren := parentChildren[parent := children];
        if children == {} {
          parentChildren := parentChildren - {parent};
        }
      }
      assert parentChildren == UnregisterChild(old(Table()), parent, child).parentChildren;
    }

    method UpdateSubagentRoutes(e: Event)
      modifies this`childToParent, this`parentChildren
      ensures Table() == UpdateSubagents(old(Table()), e)
    {
      match e.kind {
        case SubAgentSession(Some(payload)) =>
          if payload.childRunId.None? {
            return;
          }
          var child := payload.childRunId.value;
          var parent := if payload.parentRunId.Some? then payload.parentRunId else e.runId;
          if parent.None? {
            return;
          }
          if IsTerminalStatus(payload.status) {
            UnregisterChildRoute(parent.value, child);
          } else {
            childToParent := childToParent[child := parent.value];
            var children := if parent.value in parentChildren then parentChildren[parent.value] else {};
            parentChildren := parentChildren[parent.value := children + {child}];
          }
        case _ =>
      }
    }

    method MarkTerminalRoute(runId: RunId, parent: Option<RunId>)
      modifies this`childToParent, this`parentChildren, this`parentTerminal
      ensures Table() == MarkTerminal(old(Table()), runId, parent)
    {
      if parent.Some? {
        UnregisterChildRoute(parent.value, runId);
        return;
      }
      parentTerminal := parentTerminal + {runId};
    }

    method RemoveEventSender(runId: RunId) returns (removed: bool)
      modifies this
      ensures Table() == RemoveSender(old(Table()), runId)
      ensures senders == old(senders) - {runId}
      ensures removed <==> runId in old(senders)
    {
      parentTerminal := parentTerminal - {runId};
      if runId in parentChildren {
        var children := parentChildren[runId];
        parentChildren := parentChildren - {runId};
        while children != {}
          invariant children <= old(parentChildren)[runId]
          invariant childToParent == old(childToParent) - (old(parentChildren)[runId] - children)
          invariant senders == old(senders) && parentTerminal == old(parentTerminal) - {runId}
          invariant parentChildren == old(parentChildren) - {runId}
        {
          var child :| child in children;
          childToParent := childToParent - {child};
          children := children - {child};
        }
      }
      removed := runId in senders;
      senders := senders - {runId};
      assert parentChildren == RemoveSender(old(Table()), runId).parentChildren;
      assert childToParent == RemoveSender(old(Table()), runId).childToParent;
    }

    method ClearEventSenders() returns (count: nat)
      modifies this
      ensures Table() == EMPTY && count == |old(senders)|
    {
      count := |senders|;
      senders, childToParent, parentChildren, parentTerminal := map[], map[], map[], {};
    }

    /** The part of routing that runs under the lock: the table is brought up to date and the
        channel is picked, before anything is sent. */
    method ResolveUnderLock(e: Event, runId: RunId) returns (route: Option<Route>)
      modifies this`childToParent, this`parentChildren, this`parentTerminal
      ensures Table() == Resolve(old(Table()), e, runId)
      ensures route == ResolveRoute(old(Table()), e, runId)
      ensures route.Some? ==> route.value.runId in senders
    {
      UpdateSubagentRoutes(e);
      var parent := if runId in childToParent then Some(childToParent[runId]) else SubagentParentRunId(runId);
      route := if runId in senders then Some(Route(runId, true))
               else if parent.Some? && parent.value in senders then Some(Route(parent.value, false))
               else None;
      if IsTerminal(e) {
        MarkTerminalRoute(runId, parent);
      }
    }

    method RouteIsReadyToRemove(runId: RunId) returns (ready: bool)
      ensures ready <==> HasNoActiveChildren(Table(), runId)
    {
      ready := runId !in parentChildren || parentChildren[runId] == {};
    }

    /** Routes one event with nothing else happening in between: the table changes under the lock,
        the event goes to at most one channel, and that channel may then be closed. */
    method RouteAgentEvent(e: Event)
      modifies this, senders.Values
      ensures e.runId.None? ==> unchanged(this) && unchanged(senders.Values)
      ensures e.runId.Some? ==>
        var route := ResolveRoute(old(Table()), e, e.runId.value);
        var resolved := Resolve(old(Table()), e, e.runId.value);
        && (route.None? ==> Table() == resolved)
        && (route.Some? ==>
              var target := route.value.runId;
              var removes := !old(senders[target].receiverOpen) || ClosesAfter(resolved, e, route.value);
              && Table() == (if removes then RemoveSender(resolved, target) else resolved)
              && old(senders[target]).delivered
                 == old(senders[target].delivered) + if old(senders[target].receiverOpen) then [e] else [])
        && (forall c :: c in old(senders.Values) && (route.None? || c != old(senders[route.value.runId]))
              ==> c.delivered == old(c.delivered))
      ensures e.runId.Some? && e.runId.value in old(senders) && old(senders[e.runId.value].receiverOpen) ==>
        var runId := e.runId.value;
        var children := ChildrenOf(Resolve(old(Table()), e, runId), runId);
        && (runId !in senders <==> (e.kind.Finish? || e.kind.Error?) && children == {})
        && senders.Keys - {runId} == old(senders.Keys) - {runId}
    {
      if e.runId.None? {
        return;
      }
      var resolvedRoute := ResolveUnderLock(e, e.runId.value);
      if resolvedRoute.None? {
        return;
      }
      var route := resolvedRoute.value;
      var sender := senders[route.runId];
      var ok := sender.BlockingSend(e);
      if !ok {
        var _ := RemoveEventSender(route.runId);
        return;
      }
      var ready := RouteIsReadyToRemove(route.runId);
      if IsTerminal(e) && route.exact && ready {
        var _ := RemoveEventSender(route.runId);
      } else if !route.exact && route.runId in parentTerminal && ready {
        var _ := RemoveEventSender(route.runId);
      }
    }
  }

  // ---------------------------------------------------------------- the child records

  /** The two child maps are exact inverses, and no parent keeps an empty set. */
  ghost predicate ChildMapsAgree(t: RouteTable) {
    && (forall c :: c in t.childToParent ==> c in ChildrenOf(t, t.childToParent[c]))
    && (forall p, c :: p in t.parentChildren && c in t.parentChildren[p]
          ==> c in t.childToParent && t.childToParent[c] == p)
    && (forall p :: p in t.parentChildren ==> t.parentChildren[p] != {})
  }

  /** Every registered child sits under the parent its events name. */
  ghost predicate NamedBy(t: RouteTable, names: RunId -> RunId) {
    forall c :: c in t.childToParent ==> t.childToParent[c] == names(c)
  }

  /** A session event names the one parent its child always has. */
  ghost predicate NamesOneParent(e: Event, names: RunId -> RunId) {
    SessionChild(e).Some? && SessionParent(e).Some? ==> SessionParent(e).value == names(SessionChild(e).value)
  }

  lemma UnregisterKeepsMaps(t: RouteTable, parent: RunId, child: RunId)
    requires ChildMapsAgree(t) && (child in t.childToParent ==> t.childToParent[child] == parent)
    ensures ChildMapsAgree(UnregisterChild(t, parent, child))
    ensures forall p :: ChildrenOf(UnregisterChild(t, parent, child), p)
                        == if p == parent then ChildrenOf(t, p) - {child} else ChildrenOf(t, p)
  {
  }

  lemma RegisterKeepsMaps(t: RouteTable, parent: RunId, child: RunId)
    requires ChildMapsAgree(t) && (child in t.childToParent ==> t.childToParent[child] == parent)
    ensures ChildMapsAgree(RegisterChild(t, parent, child))
    ensures forall p :: ChildrenOf(RegisterChild(t, parent, child), p)
                        == if p == parent then ChildrenOf(t, p) + {child} else ChildrenOf(t, p)
  {
    var t' := RegisterChild(t, parent, child);
    assert child in t'.parentChildren[parent];
  }

  lemma {:induction false} ResolveKeepsMaps(t: RouteTable, e: Event, runId: RunId, names: RunId -> RunId)
    requires ChildMapsAgree(t) && NamedBy(t, names) && NamesOneParent(e, names)
    ensures ChildMapsAgree(Resolve(t, e, runId)) && NamedBy(Resolve(t, e, runId), names)
  {
    var updated := UpdateSubagents(t, e);
    var child, parent := SessionChild(e), SessionParent(e);
    if child.Some? && parent.Some? {
      UnregisterKeepsMaps(t, parent.value, child.value);
      RegisterKeepsMaps(t, parent.value, child.value);
    }
    var resolved := ResolvedParent(updated, runId);
    if IsTerminal(e) && resolved.Some? {
      UnregisterKeepsMaps(updated, resolved.value, runId);
    }
  }

  lemma RemoveKeepsMaps(t: RouteTable, runId: RunId, names: RunId -> RunId)
    requires ChildMapsAgree(t) && NamedBy(t, names)
    ensures ChildMapsAgree(RemoveSender(t, runId)) && NamedBy(RemoveSender(t, runId), names)
    ensures forall p :: ChildrenOf(RemoveSender(t, runId), p) == if p == runId then {} else ChildrenOf(t, p)
  {
  }

  /** The steps other parties can make the table take. */
  datatype TableStep =
    | RouteStep(e: Event, runId: RunId)
    | AddSender(runId: RunId)
    | DropSender(runId: RunId)
    | RemoveStep(runId: RunId)
    | ClearStep

  function TakeStep(t: RouteTable, step: TableStep): RouteTable {
    match step
    case RouteStep(e, runId) => Resolve(t, e, runId)
    case AddSender(runId) => t.(senders := t.senders + {runId})
    case DropSender(runId) => t.(senders := t.senders - {runId})
    case RemoveStep(runId) => RemoveSender(t, runId)
    case ClearStep => EMPTY
  }

  function TakeSteps(t: RouteTable, steps: seq<TableStep>): RouteTable
    decreases |steps|
  {
    if steps == [] then t else TakeSteps(TakeStep(t, steps[0]), steps[1..])
  }

  /** Through every sequence of route, register, remove and clear steps the child maps stay exact
      inverses with no empty set, as long as each child always names the same parent. */
  lemma {:induction false} ChildMapsAlwaysAgree(t: RouteTable, steps: seq<TableStep>, names: RunId -> RunId)
    requires ChildMapsAgree(t) && NamedBy(t, names)
    requires forall i :: 0 <= i < |steps| && steps[i].RouteStep? ==> NamesOneParent(steps[i].e, names)
    ensures ChildMapsAgree(TakeSteps(t, steps)) && NamedBy(TakeSteps(t, steps), names)
    decreases |steps|
  {
    if steps != [] {
      match steps[0] {
        case RouteStep(e, runId) => ResolveKeepsMaps(t, e, runId, names);
        case RemoveStep(runId) => RemoveKeepsMaps(t, runId, names);
        case _ =>
      }
      ChildMapsAlwaysAgree(TakeStep(t, steps[0]), steps[1..], names);
    }
  }

  /** A child may be registered or unregistered under a parent: it is not registered, or under that one. */
  predicate FitsUnder(t: RouteTable, parent: RunId, child: RunId) {
    child in t.childToParent ==> t.childToParent[child] == parent
  }

  /** From any table whose maps agree, registering or unregistering a child keeps them inverse
      exactly when it is not registered under another parent. */
  lemma {:induction false} ChildStepKeepsMapsExactlyWhen(t: RouteTable, parent: RunId, child: RunId)
    requires ChildMapsAgree(t)
    ensures ChildMapsAgree(RegisterChild(t, parent, child)) <==> FitsUnder(t, parent, child)
    ensures ChildMapsAgree(UnregisterChild(t, parent, child)) <==> FitsUnder(t, parent, child)
  {
    if FitsUnder(t, parent, child) {
      RegisterKeepsMaps(t, parent, child);
      UnregisterKeepsMaps(t, parent, child);
    } else {
      OtherParentBreaksMaps(t, parent, child);
    }
  }

  lemma OtherParentBreaksMaps(t: RouteTable, parent: RunId, child: RunId)
    requires ChildMapsAgree(t) && !FitsUnder(t, parent, child)
    ensures !ChildMapsAgree(RegisterChild(t, parent, child)) && !ChildMapsAgree(UnregisterChild(t, parent, child))
  {
    var other := t.childToParent[child];
    assert other != parent && other in t.parentChildren && child in t.parentChildren[other];
    StillListed(RegisterChild(t, parent, child), other, child);
    StillListed(UnregisterChild(t, parent, child), other, child);
  }

  lemma StillListed(t: RouteTable, parent: RunId, child: RunId)
    requires parent in t.parentChildren && child in t.parentChildren[parent]
    requires child in t.childToParent ==> t.childToParent[child] != parent
    ensures !ChildMapsAgree(t)
  {
  }

  /** Routing an event keeps the maps inverse exactly when the child it names, if it names one with a
      parent, is not registered under another parent; its terminal event never breaks them. */
  lemma {:induction false} ResolveKeepsMapsExactlyWhen(t: RouteTable, e: Event, runId: RunId)
    requires ChildMapsAgree(t)
    ensures ChildMapsAgree(Resolve(t, e, runId))
            <==> (SessionChild(e).Some? && SessionParent(e).Some?
                  ==> FitsUnder(t, SessionParent(e).value, SessionChild(e).value))
  {
    hide ChildMapsAgree, RegisterChild, UnregisterChild, SubagentParentRunId;
    var child, parent := SessionChild(e), SessionParent(e);
    if child.Some? && parent.Some? {
      ChildStepKeepsMapsExactlyWhen(t, parent.value, child.value);
    } else {
      var updated := UpdateSubagents(t, e);
      assert updated == t;
      var resolved := ResolvedParent(t, runId);
      if IsTerminal(e) {
        if resolved.Some? {
          ChildStepKeepsMapsExactlyWhen(t, resolved.value, runId);
        } else {
          MarkKeepsMaps(t, runId);
        }
      }
    }
  }

  lemma MarkKeepsMaps(t: RouteTable, runId: RunId)
    requires ChildMapsAgree(t)
    ensures ChildMapsAgree(t.(parentTerminal := t.parentTerminal + {runId}))
  {
  }

  /** A child that names two parents in turn stays listed under the first one for good. */
  lemma {:induction false} TwoParentsBreakTheMaps(a: Event, b: Event, child: RunId)
    requires SessionChild(a) == SessionChild(b) == Some(child) && !SessionEnds(a) && !SessionEnds(b)
    requires SessionParent(a).Some? && SessionParent(b).Some? && SessionParent(a) != SessionParent(b)
    ensures !ChildMapsAgree(UpdateSubagents(UpdateSubagents(EMPTY, a), b))
  {
    var t := UpdateSubagents(UpdateSubagents(EMPTY, a), b);
    var p := SessionParent(a).value;
    assert p in t.parentChildren && child in t.parentChildren[p] && t.childToParent[child] != p;
  }
}
