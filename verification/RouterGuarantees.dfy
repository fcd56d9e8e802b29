/** What the stdout reader promises about every run whose receiver stays until its forwarder may stop,
    whose start succeeds and whose table is not cleared, whatever happens to other runs and in whatever
    order. */
module RouterGuarantees {
  import opened Wrappers
  import opened Events
  import opened RunIds
  import opened Routes
  import opened Trackers
  import opened Router
  import opened RouterInvariant
  import opened RouterSteps

  ghost predicate IsUndisturbed(w: World, runId: RunId) {
    runId in w.registeredAt && runId !in w.disturbed
  }

  lemma {:induction false} RunFacts(actions: seq<Action>, w: World, names: RunId -> RunId, runId: RunId)
    requires Execute(actions) == Some(w) && WellNamed(w.stdout, names) && IsUndisturbed(w, runId)
    ensures WorldInv(w, names) && RunInv(w, names, runId) && runId in w.delivered && IsRoot(runId)
  {
    hide IsWellNamed, RunInv, TableInv, PcInv, IsRoot;
    ReachableInv(actions, w, names);
  }

  /** How much of stdout a run's channel covers: all of it while open, and up to its closing. */
  function CoveredUntil(w: World, runId: RunId): nat {
    if runId in w.closedAt then w.closedAt[runId] else |w.stdout|
  }

  /** A run's channel has been sent exactly the visible events routed from its registration to its
      closing, in order and once each; one more may be in hand. */
  lemma {:induction false} ChannelTrace(actions: seq<Action>, w: World, names: RunId -> RunId, runId: RunId)
    requires Execute(actions) == Some(w) && WellNamed(w.stdout, names) && IsUndisturbed(w, runId)
    ensures runId in w.delivered && CoveredUntil(w, runId) <= |w.stdout|
    ensures Committed(w, runId)
            == VisibleSince(names, runId, w.stdout[..CoveredUntil(w, runId)], w.registeredAt[runId])
    ensures runId in w.table.senders <==> runId !in w.closedAt
  {
    hide VisibleSince, ActiveChildren, ChildrenOf, IsRoot, FamilyInv, WellNamed;
    RunFacts(actions, w, names, runId);
    assert w.stdout[..|w.stdout|] == w.stdout;
  }

  function OwnAndChildEvents(names: RunId -> RunId, runId: RunId, stdout: seq<Event>): seq<Event> {
    if stdout == [] then []
    else OwnAndChildEvents(names, runId, stdout[..|stdout| - 1])
         + if IsOwnOrChild(names, runId, stdout[|stdout| - 1]) then [stdout[|stdout| - 1]] else []
  }

  /** Between two moments no unregistered sub-agent speaks that sits deeper below the run. */
  ghost predicate DeeperOnlyWhileTracked(names: RunId -> RunId, runId: RunId, stdout: seq<Event>, from: nat, to: nat)
    requires to <= |stdout|
  {
    forall i :: from <= i < to ==> Visible(names, runId, stdout[..i], stdout[i]) ==> IsOwnOrChild(names, runId, stdout[i])
  }

  /** What breaks it is a deeper sub-agent's event that finds its sender not registered. */
  lemma {:induction false} DeeperMeansUnregistered(names: RunId -> RunId, runId: RunId, before: seq<Event>, e: Event)
    requires IsRoot(runId)
    ensures Visible(names, runId, before, e) && !IsOwnOrChild(names, runId, e)
            <==> && e.runId.Some? && e.runId.value != runId && SubagentParentRunId(e.runId.value) == Some(runId)
                 && names(e.runId.value) != runId && !Tracked(before, e.runId.value)
  {
    hide Tracked, SubagentParentRunId;
    RootIsItself(runId);
  }

  /** The channel carries the run's own events and those of its direct sub-agents, and nothing else,
      exactly when between its registration and its closing no deeper one speaks unregistered. */
  lemma {:induction false} ChannelCarriesOwnAndChildren(actions: seq<Action>, w: World, names: RunId -> RunId, runId: RunId)
    requires Execute(actions) == Some(w) && WellNamed(w.stdout, names) && IsUndisturbed(w, runId)
    ensures runId in w.delivered && w.registeredAt[runId] <= CoveredUntil(w, runId) <= |w.stdout|
    ensures Committed(w, runId)
            == OwnAndChildEvents(names, runId, w.stdout[w.registeredAt[runId]..CoveredUntil(w, runId)])
            <==> DeeperOnlyWhileTracked(names, runId, w.stdout, w.registeredAt[runId], CoveredUntil(w, runId))
  {
    ChannelTrace(actions, w, names, runId);
    RunFacts(actions, w, names, runId);
    hide Tracked, IsOwnOrChild, Visible, WellNamed, RunInv, TableInv, PcInv;
    var n := CoveredUntil(w, runId);
    VisibleIsOwnOrChild(names, runId, w.stdout, w.registeredAt[runId], n);
  }

  lemma {:induction false} VisibleIsOwnOrChild(names: RunId -> RunId, runId: RunId, stdout: seq<Event>, from: nat, n: nat)
    requires from <= n <= |stdout|
    ensures |OwnAndChildEvents(names, runId, stdout[from..n])| <= |VisibleSince(names, runId, stdout[..n], from)|
    ensures VisibleSince(names, runId, stdout[..n], from) == OwnAndChildEvents(names, runId, stdout[from..n])
            <==> DeeperOnlyWhileTracked(names, runId, stdout, from, n)
    decreases n
  {
    if from < n {
      VisibleIsOwnOrChild(names, runId, stdout, from, n - 1);
      OneMoreTracked(names, runId, stdout, from, n);
      OneMoreListed(names, runId, stdout, from, n);
      hide VisibleSince, OwnAndChildEvents, Visible, IsOwnOrChild, DeeperOnlyWhileTracked;
      var a, b := VisibleSince(names, runId, stdout[..n - 1], from), OwnAndChildEvents(names, runId, stdout[from..n - 1]);
      var e := stdout[n - 1];
      SameGrowth(a, b, e, Visible(names, runId, stdout[..n - 1], e), IsOwnOrChild(names, runId, e));
    } else {
      assert stdout[from..n] == [];
    }
  }

  lemma {:induction false} OneMoreListed(names: RunId -> RunId, runId: RunId, stdout: seq<Event>, from: nat, n: nat)
    requires from < n <= |stdout|
    ensures var before, e := stdout[..n - 1], stdout[n - 1];
            && VisibleSince(names, runId, stdout[..n], from)
               == VisibleSince(names, runId, before, from) + (if Visible(names, runId, before, e) then [e] else [])
            && OwnAndChildEvents(names, runId, stdout[from..n])
               == OwnAndChildEvents(names, runId, stdout[from..n - 1]) + (if IsOwnOrChild(names, runId, e) then [e] else [])
            && (IsOwnOrChild(names, runId, e) ==> Visible(names, runId, before, e))
  {
    hide Tracked, SubagentParentRunId;
    assert stdout[..n][..n - 1] == stdout[..n - 1];
    assert stdout[from..n][..n - from - 1] == stdout[from..n - 1];
    assert stdout[from..n][n - from - 1] == stdout[n - 1];
  }

  lemma {:induction false} SameGrowth(a: seq<Event>, b: seq<Event>, e: Event, growsA: bool, growsB: bool)
    requires |b| <= |a| && (growsB ==> growsA)
    ensures (a + if growsA then [e] else []) == (b + if growsB then [e] else []) <==> a == b && growsA == growsB
  {
    assert a + [] == a && b + [] == b;
    if growsB && a + [e] == b + [e] {
      assert a == (a + [e])[..|a|] && b == (b + [e])[..|b|];
    }
  }

  lemma {:induction false} OneMoreTracked(names: RunId -> RunId, runId: RunId, stdout: seq<Event>, from: nat, n: nat)
    requires from < n <= |stdout|
    ensures DeeperOnlyWhileTracked(names, runId, stdout, from, n)
            <==> && DeeperOnlyWhileTracked(names, runId, stdout, from, n - 1)
                 && (Visible(names, runId, stdout[..n - 1], stdout[n - 1]) ==> IsOwnOrChild(names, runId, stdout[n - 1]))
  {
    hide Visible, IsOwnOrChild;
  }

  /** A channel is closed only after the run's own terminal event was delivered on it, and at a moment
      when none of the run's children was running or after one at which its forwarder could stop. */
  lemma {:induction false} ClosedOnlyWhenDone(actions: seq<Action>, w: World, names: RunId -> RunId, runId: RunId)
    requires Execute(actions) == Some(w) && WellNamed(w.stdout, names) && IsUndisturbed(w, runId)
    requires runId in w.closedAt
    ensures runId in w.delivered && OwnTerminalIn(runId, w.delivered[runId])
    ensures HasStopped(runId, w.delivered[runId])
    ensures w.closedAt[runId] <= |w.stdout|
            && (runId !in w.abandoned ==> NoChildTracked(names, runId, w.stdout[..w.closedAt[runId]]))
  {
    hide VisibleSince, ActiveChildren, ChildrenOf, IsRoot, FamilyInv, WellNamed, NoChildTracked, OwnTerminalIn;
    RunFacts(actions, w, names, runId);
  }

  /** While a channel is open, the forwarder's record over what it delivered and the table agree;
      and the pump holds a binding for each of those children, whatever it managed to store. */
  lemma {:induction false} TrackersAgree(actions: seq<Action>, w: World, names: RunId -> RunId, runId: RunId, saved: seq<bool>)
    requires Execute(actions) == Some(w) && WellNamed(w.stdout, names) && IsUndisturbed(w, runId)
    requires runId !in w.closedAt && !InHand(w, runId)
    requires runId in w.delivered && |saved| == |w.delivered[runId]|
    ensures ActiveChildren(runId, w.delivered[runId]) == ChildrenOf(w.table, runId)
    ensures ChildrenOf(w.table, runId) <= Bindings(runId, w.delivered[runId], saved)
    ensures PumpStops(runId, w.delivered[runId], saved) ==> HasNoActiveChildren(w.table, runId)
    ensures ForwarderStops(runId, w.delivered[runId])
            <==> HasOwnTerminal(runId, w.delivered[runId]) && HasNoActiveChildren(w.table, runId)
  {
    RunFacts(actions, w, names, runId);
    assert Committed(w, runId) == w.delivered[runId];
    assert w.stdout[..|w.stdout|] == w.stdout;
    VisibleIsWellNamed(names, runId, w.stdout, w.registeredAt[runId], |w.stdout|);
    ChannelIsCovered(runId, w.delivered[runId], saved);
  }

  lemma {:induction false} ChannelIsCovered(runId: RunId, delivered: seq<Event>, saved: seq<bool>)
    requires |saved| == |delivered| && forall e :: e in delivered ==> IsOfOther(e, runId)
    ensures ActiveChildren(runId, delivered) <= Bindings(runId, delivered, saved)
  {
    hide ActiveChildren, Bindings;
    assert forall i :: 0 <= i < |delivered| ==> delivered[i] in delivered;
    BindingsCoverActive(runId, delivered, saved);
  }

  /** A session event with all its ids, and not about the run itself. */
  predicate IsOfOther(e: Event, runId: RunId) {
    IsCompleteSession(e) && (e.kind.SubAgentSession? ==> e.kind.payload.value.childRunId != Some(runId))
  }

  lemma {:induction false} WellNamedIsOfOther(e: Event, names: RunId -> RunId, runId: RunId)
    requires IsWellNamed(e, names) && IsRoot(runId)
    ensures IsOfOther(e, runId)
  {
    RootIsItself(runId);
    if e.kind.SubAgentSession? {
      WellNamedFamily(e, names);
    }
    hide SubagentParentRunId;
  }

  lemma {:induction false} VisibleIsWellNamed(names: RunId -> RunId, runId: RunId, stdout: seq<Event>, from: nat, n: nat)
    requires WellNamed(stdout, names) && n <= |stdout| && IsRoot(runId)
    ensures forall e :: e in VisibleSince(names, runId, stdout[..n], from) ==> IsOfOther(e, runId)
    decreases n
  {
    hide Visible, IsWellNamed, IsOfOther, IsRoot;
    if from < n {
      VisibleIsWellNamed(names, runId, stdout, from, n - 1);
      assert stdout[..n][..n - 1] == stdout[..n - 1];
      WellNamedIsOfOther(stdout[n - 1], names, runId);
    }
  }

  /** After a run's terminal event, the event that ends its last child closes the channel exactly
      when it is the child's own terminal event. When a session event says so first, the channel
      is left open although nothing is running. */
  lemma {:induction false} LastChildClosesOnlyByItsOwnTerminal(t: RouteTable, e: Event, names: RunId -> RunId, runId: RunId, c: RunId)
    requires TableInv(t, names) && IsWellNamed(e, names) && IsRoot(runId)
    requires runId in t.senders && runId in t.parentTerminal && ChildrenOf(t, runId) == {c}
    requires (IsTerminal(e) && e.runId == Some(c)) || (SessionChild(e) == Some(c) && SessionEnds(e))
    ensures var route := ResolveRoute(t, e, e.runId.value);
            var t' := Resolve(t, e, e.runId.value);
            && route.Some? && route.value.runId == runId
            && HasNoActiveChildren(t', runId)
            && (ClosesAfter(t', e, route.value) <==> IsTerminal(e))
  {
    assert c in t.childToParent && t.childToParent[c] == runId;
    RootIsItself(runId);
    if e.kind.SubAgentSession? {
      WellNamedFamily(e, names);
    }
    RoutedExactlyWhenVisible(t, e, names, runId);
    ChildrenFollowChannel(t, e, names, runId);
    ParentTerminalFollows(t, e, names, runId);
    hide SubagentParentRunId, ChildMapsAgree;
  }

  // ---------------------------------------------------------------- when a channel is closed

  /** What checking an event that was just sent leads to, with the removal if there is one. */
  function Settled(w: World): World
    requires w.pc.Checking?
  {
    var checked := Next(w, Check);
    if checked.pc.Removing? then Next(checked, Remove) else checked
  }

  /** After one of a run's events has been sent to the run's own channel, the run leaves the table
      exactly when the event ends it and none of its children is registered. */
  lemma {:induction false} OwnEventClosesExactlyWhen(w: World)
    requires w.pc.Checking? && w.pc.route.exact && w.pc.route.runId in w.table.senders
    ensures var runId := w.pc.route.runId;
            && Settled(w).pc.Idle?
            && (runId !in Settled(w).table.senders <==> (w.pc.e.kind.Finish? || w.pc.e.kind.Error?) && ChildrenOf(w.table, runId) == {})
            && Settled(w).table.senders - {runId} == w.table.senders - {runId}
  {
    hide ChildrenOf;
  }

  /** After one of its sub-agents' events has been sent to it, exactly when the run was over before and
      none of its children is registered. */
  lemma {:induction false} ChildEventClosesExactlyWhen(w: World)
    requires w.pc.Checking? && !w.pc.route.exact && w.pc.route.runId in w.table.senders
    ensures var runId := w.pc.route.runId;
            && Settled(w).pc.Idle?
            && (runId !in Settled(w).table.senders <==> runId in w.table.parentTerminal && ChildrenOf(w.table, runId) == {})
            && Settled(w).table.senders - {runId} == w.table.senders - {runId}
  {
    hide ChildrenOf;
  }

  /** The reader checked the run's own terminal event while a child was registered. */
  ghost predicate HadChildAtCheck(actions: seq<Action>, k: nat, runId: RunId) {
    && k < |actions| && actions[k].Check? && Execute(actions[..k]).Some?
    && var w := Execute(actions[..k]).value;
       && w.pc.Checking? && w.pc.route == Route(runId, true)
       && (w.pc.e.kind.Finish? || w.pc.e.kind.Error?) && ChildrenOf(w.table, runId) != {}
  }

  /** A run's own events are sent to it by its own name. */
  ghost predicate RoutedByName(w: World) {
    w.pc.Sending? || w.pc.Checking? ==> (w.pc.route.exact <==> w.pc.e.runId == Some(w.pc.route.runId))
  }

  lemma {:induction false} AlwaysRoutedByName(actions: seq<Action>, w: World)
    requires Execute(actions) == Some(w)
    ensures RoutedByName(w)
  {
    if actions != [] {
      var n := |actions| - 1;
      var before := Execute(actions[..n]).value;
      hide Execute;
      AlwaysRoutedByName(actions[..n], before);
      StepRoutesByName(before, actions[n]);
    }
  }

  lemma {:induction false} StepRoutesByName(w: World, a: Action)
    requires Enabled(w, a) && RoutedByName(w)
    ensures RoutedByName(Next(w, a))
  {
    hide UpdateSubagents, Resolve, RemoveSender, ResolvedParent, MayDrop, RootsSeen;
  }

  /** The reader is about to decide on the run's own terminal, or has decided to close the channel. */
  ghost predicate IsDeciding(w: World, runId: RunId) {
    || (w.pc.Checking? && w.pc.route == Route(runId, true) && (w.pc.e.kind.Finish? || w.pc.e.kind.Error?))
    || w.pc == Removing(runId) || (w.pc.Abandoning? && w.pc.route.runId == runId)
  }

  /** A run whose own terminal event was delivered is still open only if one of its children was
      registered when that was checked, or while the reader is still at it. */
  lemma {:induction false} OpenAfterTerminalOnlyWithChild(actions: seq<Action>, w: World, runId: RunId)
    requires Execute(actions) == Some(w) && runId in w.delivered && OwnTerminalIn(runId, w.delivered[runId])
    requires runId !in w.closedAt && !IsDeciding(w, runId)
    ensures exists k :: 0 <= k < |actions| && HadChildAtCheck(actions, k, runId)
  {
    StillOpen(actions, w, runId);
  }

  lemma {:induction false} StillOpen(actions: seq<Action>, w: World, runId: RunId)
    requires Execute(actions) == Some(w) && runId in w.delivered && OwnTerminalIn(runId, w.delivered[runId])
    ensures runId in w.closedAt || IsDeciding(w, runId) || exists k :: 0 <= k < |actions| && HadChildAtCheck(actions, k, runId)
  {
    if actions != [] {
      var n := |actions| - 1;
      var before := Execute(actions[..n]).value;
      hide Execute;
      AlwaysRoutedByName(actions[..n], before);
      if runId in before.delivered && OwnTerminalIn(runId, before.delivered[runId]) {
        StillOpen(actions[..n], before, runId);
        if exists k :: 0 <= k < n && HadChildAtCheck(actions[..n], k, runId) {
          var k :| 0 <= k < n && HadChildAtCheck(actions[..n], k, runId);
          assert actions[..n][..k] == actions[..k];
          assert HadChildAtCheck(actions, k, runId);
        } else {
          DecidingStays(before, actions[n], runId);
          assert actions[n].Check? && !(runId in w.closedAt || IsDeciding(w, runId)) ==> HadChildAtCheck(actions, n, runId);
        }
      } else {
        TerminalIsDelivered(before, actions[n], runId);
      }
    }
  }

  lemma {:induction false} DecidingStays(w: World, a: Action, runId: RunId)
    requires Enabled(w, a) && (runId in w.closedAt || IsDeciding(w, runId))
    ensures var w' := Next(w, a);
            || runId in w'.closedAt || IsDeciding(w', runId)
            || (a.Check? && w.pc.route == Route(runId, true) && (w.pc.e.kind.Finish? || w.pc.e.kind.Error?) && ChildrenOf(w.table, runId) != {})
  {
    hide Resolve, ResolveRoute, RemoveSender, MayDrop, RootsSeen, ChildrenOf;
  }

  lemma {:induction false} TerminalIsDelivered(w: World, a: Action, runId: RunId)
    requires Enabled(w, a) && RoutedByName(w) && runId in Next(w, a).delivered && OwnTerminalIn(runId, Next(w, a).delivered[runId])
    requires !(runId in w.delivered && OwnTerminalIn(runId, w.delivered[runId]))
    ensures IsDeciding(Next(w, a), runId)
  {
    hide Resolve, ResolveRoute, RemoveSender, MayDrop, RootsSeen, ClosesAfter, OwnTerminalIn;
    NothingIsNoTerminal(runId);
    if a.Send? {
      SentIsOwnTerminal(runId, if runId in w.delivered then w.delivered[runId] else [], w.pc.e);
    }
  }

  lemma {:induction false} NothingIsNoTerminal(runId: RunId)
    ensures !OwnTerminalIn(runId, [])
  {
  }

  lemma {:induction false} SentIsOwnTerminal(runId: RunId, sent: seq<Event>, e: Event)
    ensures OwnTerminalIn(runId, sent + [e]) ==>
              OwnTerminalIn(runId, sent) || (e.runId == Some(runId) && (e.kind.Finish? || e.kind.Error?))
  {
    if OwnTerminalIn(runId, sent + [e]) {
      var i :| 0 <= i < |sent + [e]| && IsTerminal((sent + [e])[i]) && (sent + [e])[i].runId == Some(runId);
      assert i < |sent| ==> sent[i] == (sent + [e])[i];
    }
  }

  // ---------------------------------------------------------------- what a status does

  /** A session event that says its child completed, failed or was cancelled takes the child out of all
      three records; with any other status, or none, the child is in all of them. */
  lemma {:induction false} SessionStatusDecides(t: RouteTable, names: RunId -> RunId, events: seq<Event>, saved: seq<bool>, e: Event, ok: bool)
    requires TableInv(t, names) && IsWellNamed(e, names) && e.kind.SubAgentSession? && |saved| == |events|
    ensures var parent, p := e.runId.value, e.kind.payload.value;
            var child := p.childRunId.value;
            var inTable := child in ChildrenOf(Resolve(t, e, parent), parent);
            var counted := child in ActiveChildren(parent, events + [e]);
            var bound := child in Bindings(parent, events + [e], saved + [ok]);
            && (p.status in {None, Some(Running), Some(OtherStatus)} ==> inTable && counted && bound)
            && (p.status in {Some(Completed), Some(Failed), Some(Cancelled)} ==> !inTable && !counted && !bound)
  {
    WellNamedFamily(e, names);
    hide SubagentParentRunId, IsRoot;
    var parent, child := e.runId.value, e.kind.payload.value.childRunId.value;
    UnregisterKeepsMaps(t, parent, child);
    RegisterKeepsMaps(t, parent, child);
    OneMoreForwarded(parent, events, e);
    assert (events + [e])[..|events|] == events && (saved + [ok])[..|saved|] == saved;
  }
}
