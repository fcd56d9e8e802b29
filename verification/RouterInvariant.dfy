/** What every reachable state of the stdout reader keeps, event by event. */
module RouterInvariant {
  import opened Wrappers
  import opened Events
  import opened RunIds
  import opened Routes
  import opened Trackers
  import opened Router

  ghost predicate TableInv(t: RouteTable, names: RunId -> RunId) {
    && ChildMapsAgree(t) && NamedBy(t, names)
    && (forall c :: c in t.childToParent ==> SubagentParentRunId(c) == Some(Root(names(c))))
    && (forall r :: r in t.senders ==> IsRoot(r))
  }

  ghost predicate PcInv(w: World) {
    match w.pc
    case Idle => true
    case Sending(e, route) =>
      && route.runId in w.registeredAt && w.registeredAt[route.runId] < |w.stdout| && w.stdout != [] && w.stdout[|w.stdout| - 1] == e
      && (route.exact ==> e.runId == Some(route.runId))
    case Checking(e, route) =>
      && route.runId in w.registeredAt && w.stdout != [] && w.stdout[|w.stdout| - 1] == e
      && (route.exact ==> e.runId == Some(route.runId))
    case Removing(runId) => runId in w.registeredAt
    case Abandoning(e, route) =>
      && route.runId in w.registeredAt && w.registeredAt[route.runId] < |w.stdout| && w.stdout[|w.stdout| - 1] == e
      && route.runId in w.dropped
  }

  ghost predicate WorldInv(w: World, names: RunId -> RunId) {
    && TableInv(w.table, names)
    && PcInv(w)
    && w.delivered.Keys == w.registeredAt.Keys
    && w.table.senders <= w.registeredAt.Keys && w.closedAt.Keys <= w.registeredAt.Keys
    && (forall r :: r in w.registeredAt ==> IsRoot(r) && w.registeredAt[r] <= |w.stdout|)
    && (forall r :: r in w.closedAt ==> w.registeredAt[r] <= w.closedAt[r] <= |w.stdout|)
    && (forall r :: r in w.table.parentTerminal ==> r in RunsSeen(w.stdout))
    && w.dropped <= w.registeredAt.Keys && w.abandoned <= w.closedAt.Keys
  }

  function RunsSeen(stdout: seq<Event>): set<RunId> {
    set i | 0 <= i < |stdout| && stdout[i].runId.Some? :: stdout[i].runId.value
  }

  /** Registered and tracked are the same thing for the family of an undisturbed run. */
  ghost predicate FamilyInv(w: World, runId: RunId) {
    forall c :: SubagentParentRunId(c) == Some(runId) ==> (c in w.table.childToParent <==> Tracked(w.stdout, c))
  }

  /** The reader holds an event for this run, which it is about to send or could not send. */
  predicate InHand(w: World, runId: RunId) {
    (w.pc.Sending? || w.pc.Abandoning?) && w.pc.route.runId == runId
  }

  /** What the channel of a run has been sent, counting an event in hand. */
  function Committed(w: World, runId: RunId): seq<Event>
    requires runId in w.delivered
  {
    w.delivered[runId] + if InHand(w, runId) then [w.pc.e] else []
  }

  ghost predicate OwnTerminalIn(runId: RunId, events: seq<Event>) {
    exists i :: 0 <= i < |events| && IsTerminal(events[i]) && events[i].runId == Some(runId)
  }

  ghost predicate NoChildTracked(names: RunId -> RunId, runId: RunId, stdout: seq<Event>) {
    forall c :: SubagentParentRunId(c) == Some(runId) && names(c) == runId ==> !Tracked(stdout, c)
  }

  /** The channel of an open run: it shows exactly the visible events, the forwarder's record over
      it is the table's, and it is only closed when it may be. */
  ghost predicate OpenInv(w: World, names: RunId -> RunId, runId: RunId)
    requires runId in w.delivered && runId in w.registeredAt
  {
    && runId in w.table.senders
    && Committed(w, runId) == VisibleSince(names, runId, w.stdout, w.registeredAt[runId])
    && ActiveChildren(runId, Committed(w, runId)) == ChildrenOf(w.table, runId)
    && (runId in w.table.parentTerminal ==> OwnTerminalIn(runId, Committed(w, runId)))
    && (w.pc.Checking? && w.pc.route.runId == runId ==> w.pc.e in w.delivered[runId])
    && (w.pc == Removing(runId) ==>
          OwnTerminalIn(runId, w.delivered[runId]) && HasNoActiveChildren(w.table, runId))
    && (runId in w.dropped ==> HasStopped(runId, w.delivered[runId]))
    && (InHand(w, runId) && w.stdout != [] ==>
          w.delivered[runId] == VisibleSince(names, runId, w.stdout[..|w.stdout| - 1], w.registeredAt[runId]))
  }

  ghost predicate ClosedInv(w: World, names: RunId -> RunId, runId: RunId)
    requires runId in w.delivered && runId in w.registeredAt && runId in w.closedAt
  {
    && runId !in w.table.senders && w.closedAt[runId] <= |w.stdout|
    && Committed(w, runId) == w.delivered[runId]
    && w.delivered[runId] == VisibleSince(names, runId, w.stdout[..w.closedAt[runId]], w.registeredAt[runId])
    && OwnTerminalIn(runId, w.delivered[runId]) && HasStopped(runId, w.delivered[runId])
    && (runId !in w.abandoned ==> NoChildTracked(names, runId, w.stdout[..w.closedAt[runId]]))
    && (w.pc.Checking? || w.pc.Removing? || w.pc.Abandoning? ==> PcRun(w.pc) != runId)
  }

  ghost predicate RunInv(w: World, names: RunId -> RunId, runId: RunId) {
    && (runId !in w.abandoned ==> FamilyInv(w, runId))
    && (runId in w.registeredAt && runId in w.delivered ==>
          if runId in w.closedAt then ClosedInv(w, names, runId) else OpenInv(w, names, runId))
  }

  ghost predicate Inv(w: World, names: RunId -> RunId) {
    && WorldInv(w, names)
    && forall r :: IsRoot(r) && r !in w.disturbed ==> RunInv(w, names, r)
  }

  // ---------------------------------------------------------------- one resolved event

  lemma ChildIsNotItsParent(parent: RunId, suffix: string)
    ensures ChildRunId(parent, suffix) != parent
  {
    assert |ChildRunId(parent, suffix)| > |parent|;
  }

  lemma WellNamedFamily(e: Event, names: RunId -> RunId)
    requires IsWellNamed(e, names) && e.kind.SubAgentSession?
    ensures SessionParent(e) == e.runId && SessionChild(e).Some?
    ensures var c := SessionChild(e).value;
            names(c) == e.runId.value && c != e.runId.value
            && SubagentParentRunId(c) == Some(Root(e.runId.value))
  {
    var c := SessionChild(e).value;
    var suffix :| c == ChildRunId(e.runId.value, suffix);
    ChildIsNotItsParent(e.runId.value, suffix);
    ChildHasRootOfParent(e.runId.value, suffix);
  }

  lemma RootIsItself(r: RunId)
    requires IsRoot(r)
    ensures Root(r) == r && SubagentParentRunId(r) == None
  {
  }

  lemma ResolveKeepsTable(t: RouteTable, e: Event, names: RunId -> RunId)
    requires TableInv(t, names) && IsWellNamed(e, names)
    ensures TableInv(Resolve(t, e, e.runId.value), names)
    ensures Resolve(t, e, e.runId.value).senders == t.senders
  {
    hide SubagentParentRunId, IsRoot, ChildMapsAgree;
    ResolveKeepsMaps(t, e, e.runId.value, names);
    if e.kind.SubAgentSession? {
      WellNamedFamily(e, names);
    }
  }

  /** Which registrations an event leaves: the last word on each child. */
  lemma {:induction false} ResolveTracks(t: RouteTable, e: Event, names: RunId -> RunId, c: RunId)
    requires TableInv(t, names) && IsWellNamed(e, names)
    ensures c in Resolve(t, e, e.runId.value).childToParent
            <==> if SessionChild(e) == Some(c) then !SessionEnds(e)
                 else if IsTerminal(e) && e.runId == Some(c) then false
                 else c in t.childToParent
  {
    hide SubagentParentRunId, IsRoot, ChildMapsAgree;
    if e.kind.SubAgentSession? {
      WellNamedFamily(e, names);
    }
  }

  /** An event reaches the channel of an open run exactly when it is visible there. */
  lemma {:induction false} RoutedExactlyWhenVisible(t: RouteTable, e: Event, names: RunId -> RunId, runId: RunId)
    requires TableInv(t, names) && IsWellNamed(e, names) && IsRoot(runId)
    ensures var r := e.runId.value;
            var route := ResolveRoute(t, e, r);
            route.Some? && route.value.runId == runId
            <==> && runId in t.senders
                 && (r == runId || (SubagentParentRunId(r) == Some(runId)
                                    && (names(r) == runId || r !in t.childToParent)))
    ensures var route := ResolveRoute(t, e, e.runId.value);
            route.Some? ==> route.value.runId in t.senders
                            && (route.value.exact ==> route.value.runId == e.runId.value)
  {
    hide SubagentParentRunId, ChildMapsAgree;
    var r := e.runId.value;
    var updated := UpdateSubagents(t, e);
    if e.kind.SubAgentSession? {
      WellNamedFamily(e, names);
    }
    assert r in updated.childToParent <==> r in t.childToParent;
    assert r in t.childToParent ==> updated.childToParent[r] == names(r);
    assert r in t.senders ==> SubagentParentRunId(r) == None;
    RootIsItself(runId);
  }

  lemma RegisteredIsNotRoot(t: RouteTable, names: RunId -> RunId, runId: RunId)
    requires TableInv(t, names) && IsRoot(runId)
    ensures runId !in t.childToParent && ResolvedParent(t, runId) == None
  {
    RootIsItself(runId);
  }

  /** The table's children of an open run and the forwarder's record take the same step on every
      event: the record sees all events that matter, and no other event changes the children. */
  lemma {:induction false} ChildrenFollowChannel(t: RouteTable, e: Event, names: RunId -> RunId, runId: RunId)
    requires TableInv(t, names) && IsWellNamed(e, names) && IsRoot(runId) && runId in t.senders
    ensures var route := ResolveRoute(t, e, e.runId.value);
            ChildrenOf(Resolve(t, e, e.runId.value), runId)
            == if route.Some? && route.value.runId == runId then UpdateActive(ChildrenOf(t, runId), runId, e)
               else ChildrenOf(t, runId)
  {
    RoutedExactlyWhenVisible(t, e, names, runId);
    RegisteredIsNotRoot(t, names, runId);
    var r := e.runId.value;
    if e.kind.SubAgentSession? {
      WellNamedFamily(e, names);
      hide SubagentParentRunId, IsRoot;
      var c := SessionChild(e).value;
      UnregisterKeepsMaps(t, r, c);
      RegisterKeepsMaps(t, r, c);
    } else if IsTerminal(e) {
      TerminalUnregisters(t, e, names, runId);
    }
  }

  lemma TerminalUnregisters(t: RouteTable, e: Event, names: RunId -> RunId, runId: RunId)
    requires TableInv(t, names) && IsTerminal(e) && e.runId.Some?
    ensures var r := e.runId.value;
            var t' := Resolve(t, e, r);
            ChildrenOf(t', runId) == if r in t.childToParent && names(r) == runId then ChildrenOf(t, runId) - {r}
                                     else ChildrenOf(t, runId)
  {
    hide SubagentParentRunId, IsRoot;
    var r := e.runId.value;
    var parent := ResolvedParent(t, r);
    if parent.Some? {
      UnregisterKeepsMaps(t, parent.value, r);
    }
  }

  lemma {:induction false} ParentTerminalFollows(t: RouteTable, e: Event, names: RunId -> RunId, runId: RunId)
    requires TableInv(t, names) && IsWellNamed(e, names) && IsRoot(runId)
    ensures runId in Resolve(t, e, e.runId.value).parentTerminal
            <==> runId in t.parentTerminal || (IsTerminal(e) && e.runId == Some(runId))
  {
    RegisteredIsNotRoot(t, names, runId);
    hide SubagentParentRunId, IsRoot;
  }
}
