/** The two other records of running sub-agents: the one the forwarder folds from the events of a
    run's channel, and the session bindings of the reply pump. */
module Trackers {
  import opened Wrappers
  import opened Events

  // ---------------------------------------------------------------- the forwarder

  function UpdateActive(active: set<RunId>, parentRunId: RunId, e: Event): set<RunId> {
    match e.kind
    case SubAgentSession(payload) =>
      if payload.None? || payload.value.childRunId.None? then active
      else if payload.value.parentRunId.Some? && payload.value.parentRunId.value != parentRunId then active
      else if IsTerminalStatus(payload.value.status) then active - {payload.value.childRunId.value}
      else active + {payload.value.childRunId.value}
    case _ =>
      if e.runId.None? || e.runId.value == parentRunId || !IsTerminal(e) then active
      else active - {e.runId.value}
  }

  /** The children a forwarder believes to be running after these events. */
  function ActiveChildren(parentRunId: RunId, events: seq<Event>): set<RunId> {
    if events == [] then {}
    else UpdateActive(ActiveChildren(parentRunId, events[..|events| - 1]), parentRunId, events[|events| - 1])
  }

  predicate HasOwnTerminal(runId: RunId, events: seq<Event>) {
    exists i :: 0 <= i < |events| && IsTerminal(events[i]) && BelongsToRun(events[i], runId)
  }

  /** Whether the forwarder stops once it has passed these events on. */
  predicate ForwarderStops(runId: RunId, events: seq<Event>) {
    HasOwnTerminal(runId, events) && ActiveChildren(runId, events) == {}
  }

  lemma NothingForwarded(runId: RunId)
    ensures !HasOwnTerminal(runId, [])
  {
  }

  lemma OneMoreForwarded(runId: RunId, events: seq<Event>, e: Event)
    ensures ActiveChildren(runId, events + [e]) == UpdateActive(ActiveChildren(runId, events), runId, e)
    ensures HasOwnTerminal(runId, events + [e]) <==> HasOwnTerminal(runId, events) || (IsTerminal(e) && BelongsToRun(e, runId))
  {
    hide UpdateActive;
    var more := events + [e];
    assert more[..|events|] == events && more[|events|] == e;
    assert forall i :: 0 <= i < |events| ==> more[i] == events[i];
  }

  /** Forwards a run's events until its own test stops it or its channel ends; `consumed` says how
      many it took. */
  method ForwardRunEvents(runId: RunId, incoming: seq<Event>) returns (forwarded: seq<Event>, consumed: nat)
    ensures consumed <= |incoming| && forwarded == incoming[..consumed]
    ensures consumed < |incoming| ==> ForwarderStops(runId, incoming[..consumed])
    ensures forall n :: 0 < n < consumed ==> !ForwarderStops(runId, incoming[..n])
  {
    hide UpdateActive, HasOwnTerminal;
    NothingForwarded(runId);
    var active := {};
    var terminalSeen := false;
    forwarded, consumed := [], 0;
    while consumed < |incoming|
      invariant consumed <= |incoming| && forwarded == incoming[..consumed]
      invariant active == ActiveChildren(runId, incoming[..consumed])
      invariant terminalSeen <==> HasOwnTerminal(runId, incoming[..consumed])
      invariant forall n :: 0 < n <= consumed ==> !ForwarderStops(runId, incoming[..n])
    {
      var e := incoming[consumed];
      assert incoming[..consumed + 1] == incoming[..consumed] + [e];
      OneMoreForwarded(runId, incoming[..consumed], e);
      active := UpdateActive(active, runId, e);
      if IsTerminal(e) && BelongsToRun(e, runId) {
        terminalSeen := true;
      }
      forwarded := forwarded + [e];
      consumed := consumed + 1;
      if terminalSeen && active == {} {
        return;
      }
    }
  }

  // ---------------------------------------------------------------- the pump

  /** The child runs the pump holds a session binding for. `saved` tells whether the child session
      could be stored: a binding is only dropped by a `finish` that was. */
  function UpdateBindings(bindings: set<RunId>, runId: RunId, e: Event, saved: bool): set<RunId> {
    match e.kind
    case SubAgentSession(payload) =>
      if !BelongsToRun(e, runId) || payload.None? || payload.value.subagentId.None? || payload.value.childRunId.None?
      then bindings
      else if IsTerminalStatus(payload.value.status) then bindings - {payload.value.childRunId.value}
      else bindings + {payload.value.childRunId.value}
    case Finish(_) => if e.runId.Some? && saved then bindings - {e.runId.value} else bindings
    case _ => bindings
  }

  function Bindings(runId: RunId, events: seq<Event>, saved: seq<bool>): set<RunId>
    requires |saved| == |events|
  {
    if events == [] then {}
    else
      var n := |events| - 1;
      UpdateBindings(Bindings(runId, events[..n], saved[..n]), runId, events[n], saved[n])
  }

  /** Whether the pump's own test would end it after these events. */
  predicate PumpStops(runId: RunId, events: seq<Event>, saved: seq<bool>)
    requires |saved| == |events|
  {
    HasOwnTerminal(runId, events) && Bindings(runId, events, saved) == {}
  }

  /** A session event as agent-core emits it: sent by the parent it names, with all its ids. */
  predicate IsCompleteSession(e: Event) {
    e.kind.SubAgentSession? ==>
      && e.kind.payload.Some? && e.runId.Some?
      && e.kind.payload.value.subagentId.Some? && e.kind.payload.value.childRunId.Some?
      && e.kind.payload.value.parentRunId == e.runId
  }

  /** Whatever can be stored or not, the pump keeps a binding for every child the forwarder still
      counts, except that it forgets a finished run's own id. */
  lemma {:induction false} BindingsCoverActive(runId: RunId, events: seq<Event>, saved: seq<bool>)
    requires |saved| == |events|
    requires forall i :: 0 <= i < |events| ==> IsCompleteSession(events[i])
    requires forall i :: 0 <= i < |events| && events[i].kind.SubAgentSession? && events[i].kind.payload.Some?
               ==> events[i].kind.payload.value.childRunId != Some(runId)
    ensures ActiveChildren(runId, events) <= Bindings(runId, events, saved)
  {
    if events != [] {
      var n := |events| - 1;
      BindingsCoverActive(runId, events[..n], saved[..n]);
      OwnIdIsNotActive(runId, events[..n]);
    }
  }

  lemma {:induction false} OwnIdIsNotActive(runId: RunId, events: seq<Event>)
    requires forall i :: 0 <= i < |events| && events[i].kind.SubAgentSession? && events[i].kind.payload.Some?
               ==> events[i].kind.payload.value.childRunId != Some(runId)
    ensures runId !in ActiveChildren(runId, events)
  {
    if events != [] {
      OwnIdIsNotActive(runId, events[..|events| - 1]);
    }
  }

  /** A child that ends with `error` leaves the forwarder's record but keeps its binding: the pump does
      not end by its own test, and goes on until a session event closes the binding or its channel ends. */
  lemma {:induction false} ErrorKeepsBinding(runId: RunId, events: seq<Event>, saved: seq<bool>, e: Event, ok: bool)
    requires |saved| == |events| && e.kind.Error? && e.runId.Some? && e.runId.value != runId
    requires e.runId.value in Bindings(runId, events, saved)
    ensures ActiveChildren(runId, events + [e]) == ActiveChildren(runId, events) - {e.runId.value}
    ensures Bindings(runId, events + [e], saved + [ok]) == Bindings(runId, events, saved)
    ensures !PumpStops(runId, events + [e], saved + [ok])
  {
    assert (events + [e])[..|events|] == events && (saved + [ok])[..|saved|] == saved;
  }
}
