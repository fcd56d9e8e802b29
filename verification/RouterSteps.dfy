/** Every step of the stdout reader, and of the threads around it, keeps the invariant. */
module RouterSteps {
  import opened Wrappers
  import opened Events
  import opened RunIds
  import opened Routes
  import opened Trackers
  import opened Router
  import opened RouterInvariant

  lemma {:induction false} TrackedIsSeen(stdout: seq<Event>, names: RunId -> RunId, c: RunId, runId: RunId)
    requires WellNamed(stdout, names) && Tracked(stdout, c) && SubagentParentRunId(c) == Some(runId)
    ensures runId in RootsSeen(stdout)
  {
    var n := |stdout| - 1;
    var e := stdout[n];
    if SessionChild(e) == Some(c) {
      WellNamedFamily(e, names);
      assert Root(stdout[n].runId.value) == runId;
    } else {
      TrackedIsSeen(stdout[..n], names, c, runId);
      assert forall i :: 0 <= i < n ==> stdout[i] == stdout[..n][i];
    }
  }

  lemma SeenStaysSeen(stdout: seq<Event>, e: Event)
    requires e.runId.Some?
    ensures RunsSeen(stdout + [e]) == RunsSeen(stdout) + {e.runId.value}
  {
    var more := stdout + [e];
    assert forall i :: 0 <= i < |stdout| ==> more[i] == stdout[i];
    assert more[|stdout|] == e;
  }

  lemma NextKeepsWorld(w: World, a: Action, names: RunId -> RunId)
    requires WorldInv(w, names) && Enabled(w, a) && WellNamed(Next(w, a).stdout, names)
    ensures WorldInv(Next(w, a), names)
  {
    hide SubagentParentRunId, IsRoot, TableInv, IsWellNamed, HasStopped, ResolveRoute, Resolve, RemoveSender, RootsSeen, ClosesAfter;
    match a
    case ResolveEvent(e) =>
      assert Next(w, a).stdout[|w.stdout|] == e;
      ResolveKeepsWorld(w, e, names);
    case Remove => RemoveKeepsWorld(w, names);
    case Register(runId) => SendersKeepTable(w.table, w.table.senders + {runId}, names);
    case FailStart(runId) => SendersKeepTable(w.table, w.table.senders - {runId}, names);
    case Clear => SendersKeepTable(EMPTY, {}, names);
    case _ =>
  }

  lemma SendersKeepTable(t: RouteTable, senders: set<RunId>, names: RunId -> RunId)
    requires TableInv(t, names) || t == EMPTY
    requires forall r :: r in senders ==> IsRoot(r)
    ensures TableInv(t.(senders := senders), names)
  {
  }

  lemma RemoveKeepsTable(t: RouteTable, runId: RunId, names: RunId -> RunId)
    requires TableInv(t, names)
    ensures TableInv(RemoveSender(t, runId), names)
  {
    hide SubagentParentRunId, IsRoot, ChildMapsAgree;
    RemoveKeepsMaps(t, runId, names);
  }

  lemma RemoveKeepsWorld(w: World, names: RunId -> RunId)
    requires WorldInv(w, names) && Enabled(w, Remove)
    ensures WorldInv(Next(w, Remove), names)
  {
    hide SubagentParentRunId, IsRoot, TableInv;
    RemoveKeepsTable(w.table, PcRun(w.pc), names);
  }

  lemma ResolveKeepsWorld(w: World, e: Event, names: RunId -> RunId)
    requires WorldInv(w, names) && w.pc.Idle? && IsWellNamed(e, names)
    ensures WorldInv(Next(w, ResolveEvent(e)), names)
  {
    var r := e.runId.value;
    ResolveKeepsTable(w.table, e, names);
    SeenStaysSeen(w.stdout, e);
    RoutedExactlyWhenVisible(w.table, e, names, Root(r));
    hide SubagentParentRunId, IsRoot, TableInv, IsWellNamed, Resolve, ResolveRoute;
    OnlyOwnTerminalMarks(w.table, e);
  }

  lemma OnlyOwnTerminalMarks(t: RouteTable, e: Event)
    requires e.runId.Some?
    ensures Resolve(t, e, e.runId.value).parentTerminal <= t.parentTerminal + {e.runId.value}
  {
    hide SubagentParentRunId;
  }

  // ---------------------------------------------------------------- resolving an event

  lemma ResolveKeepsFamily(w: World, e: Event, names: RunId -> RunId, runId: RunId)
    requires WorldInv(w, names) && w.pc.Idle? && IsWellNamed(e, names) && FamilyInv(w, runId)
    ensures FamilyInv(Next(w, ResolveEvent(e)), runId)
  {
    var w' := Next(w, ResolveEvent(e));
    assert w'.stdout[..|w'.stdout| - 1] == w.stdout;
    forall c | SubagentParentRunId(c) == Some(runId)
      ensures c in w'.table.childToParent <==> Tracked(w'.stdout, c)
    {
      ResolveTracks(w.table, e, names, c);
    }
  }

  lemma ResolveExtendsVisible(w: World, e: Event, names: RunId -> RunId, runId: RunId)
    requires TableInv(w.table, names) && IsWellNamed(e, names) && IsRoot(runId) && FamilyInv(w, runId)
    requires runId in w.registeredAt && w.registeredAt[runId] <= |w.stdout| && runId in w.table.senders
    ensures var route := ResolveRoute(w.table, e, e.runId.value);
            VisibleSince(names, runId, w.stdout + [e], w.registeredAt[runId])
            == VisibleSince(names, runId, w.stdout, w.registeredAt[runId])
               + if route.Some? && route.value.runId == runId then [e] else []
  {
    RoutedExactlyWhenVisible(w.table, e, names, runId);
    assert (w.stdout + [e])[..|w.stdout|] == w.stdout;
  }

  lemma ResolveKeepsRun(w: World, e: Event, names: RunId -> RunId, runId: RunId)
    requires WorldInv(w, names) && w.pc.Idle? && IsWellNamed(e, names) && IsRoot(runId)
    requires RunInv(w, names, runId)
    ensures RunInv(Next(w, ResolveEvent(e)), names, runId)
  {
    hide SubagentParentRunId, IsRoot;
    var w' := Next(w, ResolveEvent(e));
    hide OpenInv, ClosedInv, FamilyInv, VisibleSince, TableInv, PcInv, IsWellNamed;
    if runId !in w.abandoned {
      ResolveKeepsFamily(w, e, names, runId);
    }
    if runId in w.registeredAt {
      if runId in w.closedAt {
        ResolveKeepsClosed(w, e, names, runId);
      } else {
        ResolveKeepsOpen(w, e, names, runId);
      }
    }
  }

  lemma ResolveKeepsClosed(w: World, e: Event, names: RunId -> RunId, runId: RunId)
    requires WorldInv(w, names) && w.pc.Idle? && IsWellNamed(e, names) && IsRoot(runId)
    requires runId in w.closedAt && ClosedInv(w, names, runId)
    ensures ClosedInv(Next(w, ResolveEvent(e)), names, runId)
  {
    RoutedExactlyWhenVisible(w.table, e, names, runId);
    ResolveKeepsTable(w.table, e, names);
    ResolveCommits(w, e, names, runId);
    hide SubagentParentRunId, IsRoot, VisibleSince, OwnTerminalIn, HasStopped, NoChildTracked, TableInv, PcInv, IsWellNamed, Resolve,
      ResolveRoute;
    var n := w.closedAt[runId];
    assert Next(w, ResolveEvent(e)).stdout[..n] == w.stdout[..n];
  }

  /** Whether a resolved event goes to the channel of this run. */
  predicate GoesTo(w: World, e: Event, runId: RunId)
    requires e.runId.Some?
  {
    var route := ResolveRoute(w.table, e, e.runId.value);
    route.Some? && route.value.runId == runId
  }

  lemma ResolveCommits(w: World, e: Event, names: RunId -> RunId, runId: RunId)
    requires w.pc.Idle? && e.runId.Some? && runId in w.delivered
    ensures Committed(Next(w, ResolveEvent(e)), runId) == w.delivered[runId] + if GoesTo(w, e, runId) then [e] else []
    ensures Committed(w, runId) == w.delivered[runId]
  {
    hide ResolveRoute, Resolve;
  }

  lemma SentOneMore(runId: RunId, sent: seq<Event>, e: Event)
    ensures ActiveChildren(runId, sent + [e]) == UpdateActive(ActiveChildren(runId, sent), runId, e)
    ensures OwnTerminalIn(runId, sent) ==> OwnTerminalIn(runId, sent + [e])
    ensures IsTerminal(e) && e.runId == Some(runId) ==> OwnTerminalIn(runId, sent + [e])
  {
    hide UpdateActive;
    var more := sent + [e];
    assert more[..|sent|] == sent && more[|sent|] == e;
    assert forall i :: 0 <= i < |sent| ==> more[i] == sent[i];
  }

  lemma ResolveKeepsOpen(w: World, e: Event, names: RunId -> RunId, runId: RunId)
    requires WorldInv(w, names) && w.pc.Idle? && IsWellNamed(e, names) && IsRoot(runId)
    requires FamilyInv(w, runId) && runId in w.registeredAt && runId in w.delivered
    requires OpenInv(w, names, runId)
    ensures OpenInv(Next(w, ResolveEvent(e)), names, runId)
  {
    ResolveKeepsTable(w.table, e, names);
    ResolveExtendsVisible(w, e, names, runId);
    ChildrenFollowChannel(w.table, e, names, runId);
    ParentTerminalFollows(w.table, e, names, runId);
    OwnEventGoesToOwnChannel(w, e, names, runId);
    ResolveCommits(w, e, names, runId);
    SentOneMore(runId, w.delivered[runId], e);
    hide SubagentParentRunId, IsRoot, TableInv, VisibleSince, IsWellNamed, Resolve, ResolveRoute, ChildrenOf, UpdateActive,
      ActiveChildren, Committed, OwnTerminalIn, IsTerminal, FamilyInv, HasNoActiveChildren;
  }

  lemma OwnEventGoesToOwnChannel(w: World, e: Event, names: RunId -> RunId, runId: RunId)
    requires TableInv(w.table, names) && IsWellNamed(e, names) && IsRoot(runId) && runId in w.table.senders
    ensures e.runId == Some(runId) ==> GoesTo(w, e, runId)
  {
    RoutedExactlyWhenVisible(w.table, e, names, runId);
    hide ResolveRoute, TableInv;
  }

  // ---------------------------------------------------------------- the other steps

  lemma SendKeepsRun(w: World, names: RunId -> RunId, runId: RunId)
    requires WorldInv(w, names) && Enabled(w, Send) && runId !in w.disturbed && RunInv(w, names, runId)
    ensures RunInv(Next(w, Send), names, runId)
  {
    hide SubagentParentRunId, Tracked, OpenInv, ClosedInv, TableInv, PcInv;
    if runId in w.registeredAt {
      SendCommits(w, runId);
      if runId in w.closedAt {
        SendKeepsClosed(w, names, runId);
      } else {
        SendKeepsOpen(w, names, runId);
      }
    }
  }

  lemma SendCommits(w: World, runId: RunId)
    requires Enabled(w, Send) && runId in w.delivered
    ensures Committed(Next(w, Send), runId) == Committed(w, runId)
    ensures Next(w, Send).delivered.Keys == w.delivered.Keys
    ensures PcRun(w.pc) != runId || runId in w.dropped ==> Next(w, Send).delivered[runId] == w.delivered[runId]
  {
  }

  lemma SendKeepsClosed(w: World, names: RunId -> RunId, runId: RunId)
    requires Enabled(w, Send) && runId in w.delivered && runId in w.registeredAt && runId in w.closedAt && ClosedInv(w, names, runId)
    requires WorldInv(w, names)
    ensures runId in Next(w, Send).delivered && ClosedInv(Next(w, Send), names, runId)
  {
    hide VisibleSince, HasStopped, OwnTerminalIn, NoChildTracked, TableInv;
    SendCommits(w, runId);
    assert !InHand(w, runId) by {
      assert Committed(w, runId) == w.delivered[runId];
    }
  }

  lemma SendKeepsOpen(w: World, names: RunId -> RunId, runId: RunId)
    requires Enabled(w, Send) && runId in w.delivered && runId in w.registeredAt && runId !in w.closedAt && OpenInv(w, names, runId)
    ensures runId in Next(w, Send).delivered && OpenInv(Next(w, Send), names, runId)
  {
    hide VisibleSince, HasStopped, OwnTerminalIn, ActiveChildren, ChildrenOf, HasNoActiveChildren;
    SendCommits(w, runId);
  }

  lemma CheckKeepsRun(w: World, names: RunId -> RunId, runId: RunId)
    requires WorldInv(w, names) && Enabled(w, Check) && runId !in w.disturbed && RunInv(w, names, runId)
    ensures RunInv(Next(w, Check), names, runId)
  {
    hide SubagentParentRunId, TableInv, VisibleSince, ChildrenOf, ActiveChildren, Tracked;
    var w' := Next(w, Check);
    if runId in w.registeredAt {
      assert Committed(w', runId) == Committed(w, runId) == w.delivered[runId];
      if w'.pc == Removing(runId) && w.pc.route.exact {
        var i :| 0 <= i < |w.delivered[runId]| && w.delivered[runId][i] == w.pc.e;
        assert OwnTerminalIn(runId, w.delivered[runId]);
      }
    }
  }

  lemma RemoveKeepsFamily(w: World, names: RunId -> RunId, runId: RunId)
    requires WorldInv(w, names) && Enabled(w, Remove) && IsRoot(runId) && FamilyInv(w, runId)
    requires PcRun(w.pc) == runId ==> HasNoActiveChildren(w.table, runId)
    ensures FamilyInv(Next(w, Remove), runId)
  {
    var removed := PcRun(w.pc);
    RootIsItself(runId);
    RootIsItself(removed);
    hide SubagentParentRunId, IsRoot;
    forall c | SubagentParentRunId(c) == Some(runId) && c in w.table.childToParent
      ensures c !in ChildrenOf(w.table, removed)
    {
    }
  }

  lemma StopsNow(runId: RunId, delivered: seq<Event>)
    requires OwnTerminalIn(runId, delivered) && ActiveChildren(runId, delivered) == {}
    ensures HasStopped(runId, delivered)
  {
    hide ActiveChildren;
    assert delivered[..|delivered|] == delivered;
    assert ForwarderStops(runId, delivered[..|delivered|]);
  }

  lemma {:induction false} VisibleAreNamed(names: RunId -> RunId, runId: RunId, stdout: seq<Event>, from: nat)
    ensures forall e :: e in VisibleSince(names, runId, stdout, from) ==> e.runId.Some?
  {
    hide Tracked, SubagentParentRunId;
    if |stdout| > from {
      VisibleAreNamed(names, runId, stdout[..|stdout| - 1], from);
    }
  }

  lemma StoppedIsOver(runId: RunId, delivered: seq<Event>)
    requires HasStopped(runId, delivered) && forall e :: e in delivered ==> e.runId.Some?
    ensures OwnTerminalIn(runId, delivered)
  {
    hide ActiveChildren;
    var n :| 0 < n <= |delivered| && ForwarderStops(runId, delivered[..n]);
    var i :| 0 <= i < n && IsTerminal(delivered[..n][i]) && BelongsToRun(delivered[..n][i], runId);
    assert delivered[..n][i] == delivered[i] && delivered[i] in delivered;
  }

  /** The channel is closed after a check. */
  lemma RemoveCloses(w: World, names: RunId -> RunId, runId: RunId)
    requires WorldInv(w, names) && w.pc == Removing(runId) && IsRoot(runId) && FamilyInv(w, runId)
    requires runId in w.registeredAt && runId in w.delivered && runId !in w.closedAt && OpenInv(w, names, runId)
    ensures RunInv(Next(w, Remove), names, runId)
  {
    RemoveKeepsFamily(w, names, runId);
    NoChildLeft(w, names, runId);
    assert w.stdout[..|w.stdout|] == w.stdout;
    hide SubagentParentRunId, IsRoot, VisibleSince, ActiveChildren, Tracked, FamilyInv, TableInv, NoChildTracked, OwnTerminalIn,
      HasStopped, ChildrenOf;
    assert Committed(w, runId) == w.delivered[runId];
    StopsNow(runId, w.delivered[runId]);
  }

  /** It is closed because its receiver has gone. */
  lemma AbandonCloses(w: World, names: RunId -> RunId, runId: RunId)
    requires WorldInv(w, names) && w.pc.Abandoning? && w.pc.route.runId == runId && IsRoot(runId)
    requires runId in w.registeredAt && runId in w.delivered && runId !in w.closedAt && OpenInv(w, names, runId)
    ensures RunInv(Next(w, Remove), names, runId)
  {
    hide SubagentParentRunId, IsRoot, VisibleSince, ActiveChildren, Tracked, FamilyInv, TableInv, NoChildTracked, OwnTerminalIn,
      HasStopped, ChildrenOf;
    assert InHand(w, runId);
    VisibleAreNamed(names, runId, w.stdout[..|w.stdout| - 1], w.registeredAt[runId]);
    StoppedIsOver(runId, w.delivered[runId]);
    assert !InHand(Next(w, Remove), runId);
  }

  lemma RemoveKeepsOther(w: World, names: RunId -> RunId, runId: RunId)
    requires WorldInv(w, names) && Enabled(w, Remove) && IsRoot(runId) && PcRun(w.pc) != runId
    requires RunInv(w, names, runId)
    ensures RunInv(Next(w, Remove), names, runId)
  {
    if runId !in w.abandoned {
      RemoveKeepsFamily(w, names, runId);
    }
    hide SubagentParentRunId, IsRoot, VisibleSince, ActiveChildren, Tracked, FamilyInv, TableInv, NoChildTracked, OwnTerminalIn,
      HasStopped;
    if runId in w.registeredAt {
      assert Committed(Next(w, Remove), runId) == Committed(w, runId);
    }
  }

  lemma RemoveKeepsRun(w: World, names: RunId -> RunId, runId: RunId)
    requires WorldInv(w, names) && Enabled(w, Remove) && IsRoot(runId) && runId !in w.disturbed
    requires RunInv(w, names, runId)
    ensures RunInv(Next(w, Remove), names, runId)
  {
    hide SubagentParentRunId, IsRoot, OpenInv, FamilyInv, TableInv, Next;
    if PcRun(w.pc) != runId {
      RemoveKeepsOther(w, names, runId);
    } else if w.pc.Removing? {
      RemoveCloses(w, names, runId);
    } else {
      AbandonCloses(w, names, runId);
    }
  }

  lemma NoChildLeft(w: World, names: RunId -> RunId, runId: RunId)
    requires TableInv(w.table, names) && FamilyInv(w, runId) && HasNoActiveChildren(w.table, runId)
    ensures NoChildTracked(names, runId, w.stdout)
  {
    hide SubagentParentRunId;
    forall c | SubagentParentRunId(c) == Some(runId) && names(c) == runId
      ensures !Tracked(w.stdout, c)
    {
    }
  }

  lemma RegisterKeepsRun(w: World, newcomer: RunId, names: RunId -> RunId, runId: RunId)
    requires WorldInv(w, names) && WellNamed(w.stdout, names) && Enabled(w, Register(newcomer))
    requires IsRoot(runId) && RunInv(w, names, runId)
    ensures RunInv(Next(w, Register(newcomer)), names, runId)
  {
    hide SubagentParentRunId, IsRoot, IsWellNamed;
    var w' := Next(w, Register(newcomer));
    if runId == newcomer {
      assert RootsSeen(w.stdout) !! {newcomer};
      FreshHasNoChildren(w, names, runId);
      RootIsItself(runId);
      assert Committed(w', runId) == [];
    } else if runId in w.registeredAt {
      assert Committed(w', runId) == Committed(w, runId);
    }
  }

  lemma FreshHasNoChildren(w: World, names: RunId -> RunId, runId: RunId)
    requires WorldInv(w, names) && WellNamed(w.stdout, names) && IsRoot(runId) && FamilyInv(w, runId)
    requires IsFresh(w, runId)
    ensures ChildrenOf(w.table, runId) == {}
  {
    RootIsItself(runId);
    hide SubagentParentRunId, IsRoot, IsWellNamed;
    forall c | c in ChildrenOf(w.table, runId)
      ensures false
    {
      assert SubagentParentRunId(c) == Some(runId);
      TrackedIsSeen(w.stdout, names, c, runId);
    }
  }

  lemma ClearKeepsRun(w: World, names: RunId -> RunId, runId: RunId)
    requires WorldInv(w, names) && WellNamed(w.stdout, names)
    requires runId !in Next(w, Clear).disturbed
    ensures RunInv(Next(w, Clear), names, runId)
  {
    forall c | SubagentParentRunId(c) == Some(runId)
      ensures !Tracked(w.stdout, c)
    {
      if Tracked(w.stdout, c) {
        TrackedIsSeen(w.stdout, names, c, runId);
      }
    }
  }

  lemma FailStartKeepsRun(w: World, failed: RunId, names: RunId -> RunId, runId: RunId)
    requires failed != runId && RunInv(w, names, runId)
    ensures RunInv(Next(w, FailStart(failed)), names, runId)
  {
    hide SubagentParentRunId, VisibleSince, Tracked, ActiveChildren;
    if runId in w.registeredAt && runId in w.delivered {
      assert Committed(Next(w, FailStart(failed)), runId) == Committed(w, runId);
    }
  }

  lemma DropKeepsRun(w: World, dropped: RunId, names: RunId -> RunId, runId: RunId)
    requires Enabled(w, DropReceiver(dropped)) && runId !in Next(w, DropReceiver(dropped)).disturbed && RunInv(w, names, runId)
    ensures RunInv(Next(w, DropReceiver(dropped)), names, runId)
  {
    hide SubagentParentRunId, VisibleSince, Tracked, ActiveChildren, HasStopped;
    if runId in w.registeredAt && runId in w.delivered {
      assert Committed(Next(w, DropReceiver(dropped)), runId) == Committed(w, runId);
    }
  }

  lemma NextKeepsRun(w: World, a: Action, names: RunId -> RunId, runId: RunId)
    requires WorldInv(w, names) && Enabled(w, a) && WellNamed(Next(w, a).stdout, names)
    requires IsRoot(runId) && runId !in Next(w, a).disturbed && RunInv(w, names, runId)
    ensures RunInv(Next(w, a), names, runId)
  {
    hide WorldInv, SubagentParentRunId, IsRoot, IsWellNamed, VisibleSince, Tracked, ActiveChildren, ChildrenOf;
    match a
    case ResolveEvent(e) =>
      assert Next(w, a).stdout[|w.stdout|] == e;
      ResolveKeepsRun(w, e, names, runId);
    case Send => SendKeepsRun(w, names, runId);
    case Check => CheckKeepsRun(w, names, runId);
    case Remove => RemoveKeepsRun(w, names, runId);
    case Register(newcomer) => RegisterKeepsRun(w, newcomer, names, runId);
    case Clear => ClearKeepsRun(w, names, runId);
    case DropReceiver(dropped) => DropKeepsRun(w, dropped, names, runId);
    case FailStart(failed) => FailStartKeepsRun(w, failed, names, runId);
  }

  lemma {:induction false} NextKeepsInv(w: World, a: Action, names: RunId -> RunId)
    requires Inv(w, names) && Enabled(w, a) && WellNamed(Next(w, a).stdout, names)
    ensures Inv(Next(w, a), names)
  {
    hide WorldInv, RunInv, IsRoot, IsWellNamed;
    NextKeepsWorld(w, a, names);
    forall r | IsRoot(r) && r !in Next(w, a).disturbed
      ensures RunInv(Next(w, a), names, r)
    {
      NextKeepsRun(w, a, names, r);
    }
  }

  lemma StdoutGrows(w: World, a: Action)
    requires Enabled(w, a)
    ensures w.stdout <= Next(w, a).stdout
  {
  }

  lemma {:induction false} ReachableInv(actions: seq<Action>, w: World, names: RunId -> RunId)
    requires Execute(actions) == Some(w) && WellNamed(w.stdout, names)
    ensures Inv(w, names)
  {
    if actions != [] {
      hide IsWellNamed, WorldInv, RunInv;
      var w0 := Execute(actions[..|actions| - 1]).value;
      StdoutGrows(w0, actions[|actions| - 1]);
      assert forall i :: 0 <= i < |w0.stdout| ==> w.stdout[i] == w0.stdout[i];
      hide Enabled, Next;
      ReachableInv(actions[..|actions| - 1], w0, names);
      NextKeepsInv(w0, actions[|actions| - 1], names);
    }
  }
}
