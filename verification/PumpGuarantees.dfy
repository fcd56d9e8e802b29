/** What the pump guarantees over all its events: the order of each run's log, the diff before the
    terminal, the fold of the session, and when it ends. */
module PumpGuarantees {
  import opened Wrappers
  import opened Events
  import opened RunEvents
  import opened Logs
  import opened Delivery
  import opened DeliveryGuarantees
  import opened Conversations
  import opened ProviderTurns
  import opened Codec
  import opened Text
  import T = Trackers
  import opened Pump

  // ---------------------------------------------------------------- views of a run of events

  function EventsIn(arrivals: seq<Arrival>): (events: seq<Event>)
    ensures |events| == |arrivals|
  {
    if arrivals == [] then [] else EventsIn(arrivals[..|arrivals| - 1]) + [arrivals[|arrivals| - 1].event]
  }

  function SavedIn(arrivals: seq<Arrival>): (saved: seq<bool>)
    ensures |saved| == |arrivals|
  {
    if arrivals == [] then []
    else
      var a := arrivals[|arrivals| - 1];
      SavedIn(arrivals[..|arrivals| - 1]) + [a.canLoad && a.canSave]
  }

  predicate GoesTo(log: RunId, runId: RunId, e: Event) {
    if e.runId.Some? then e.runId.value == log else log == runId
  }

  /** The arriving events that belong to one log of the pump of run `runId`. */
  function ArrivingFor(log: RunId, runId: RunId, arrivals: seq<Arrival>): seq<Event> {
    if arrivals == [] then []
    else
      var e := arrivals[|arrivals| - 1].event;
      ArrivingFor(log, runId, arrivals[..|arrivals| - 1]) + if GoesTo(log, runId, e) then [e] else []
  }

  /** The entries written to one log. */
  function EntriesOf(log: RunId, dispatched: seq<Dispatched>): seq<Event> {
    if dispatched == [] then []
    else
      var d := dispatched[|dispatched| - 1];
      EntriesOf(log, dispatched[..|dispatched| - 1]) + if d.runId == log then [d.event] else []
  }

  function OwnKinds(runId: RunId, arrivals: seq<Arrival>): seq<Kind> {
    if arrivals == [] then []
    else
      var e := arrivals[|arrivals| - 1].event;
      OwnKinds(runId, arrivals[..|arrivals| - 1]) + if BelongsToRun(e, runId) then [e.kind] else []
  }

  function DispatchesOf(runId: RunId, arrivals: seq<Arrival>): seq<Dispatched> {
    if arrivals == [] then []
    else
      var a := arrivals[|arrivals| - 1];
      DispatchesOf(runId, arrivals[..|arrivals| - 1]) + Dispatches(runId, a.event, a.hasDiff)
  }

  /** The session is the fold of the run's own events, whatever its sub-agents send in between, and
      what goes out depends on the arriving events and the diff alone. */
  lemma {:induction false} SessionIsFoldOfOwnEvents(s: State, runId: RunId, arrivals: seq<Arrival>)
    ensures StateAfter(s, runId, arrivals).conversation == PersistAll(s.conversation, OwnKinds(runId, arrivals))
    ensures StateAfter(s, runId, arrivals).dispatched == s.dispatched + DispatchesOf(runId, arrivals)
  {
    hide Persist, Dispatches, Step, PersistAll;
    if arrivals == [] {
      PersistOneOrTwo(s.conversation, Error, Error);
    } else {
      var n := |arrivals| - 1;
      SessionIsFoldOfOwnEvents(s, runId, arrivals[..n]);
      var before, a := StateAfter(s, runId, arrivals[..n]), arrivals[n];
      StepParts(before, runId, a);
      PersistConcat(s.conversation, OwnKinds(runId, arrivals[..n]), [a.event.kind]);
      PersistOneOrTwo(before.conversation, a.event.kind, Error);
      assert StateAfter(s, runId, arrivals) == Step(before, runId, a);
      if !BelongsToRun(a.event, runId) {
        assert OwnKinds(runId, arrivals) == OwnKinds(runId, arrivals[..n]);
      }
    }
  }

  lemma StepParts(s: State, runId: RunId, a: Arrival)
    ensures var t := Step(s, runId, a);
            && t.conversation == (if BelongsToRun(a.event, runId) then Persist(s.conversation, a.event.kind) else s.conversation)
            && t.dispatched == s.dispatched + Dispatches(runId, a.event, a.hasDiff)
            && t.bindings.Keys == T.UpdateBindings(s.bindings.Keys, runId, a.event, a.canLoad && a.canSave)
  {
    hide Persist, Dispatches, Dedupe;
  }

  // ---------------------------------------------------------------- the sessions of sub-agents

  /** A session event of the run, stored: the messages it brings replace the child's conversation,
      one without any never empties it, a named task starts it, no other session changes, and the
      binding is there exactly when the status does not end it. */
  lemma {:induction false} SessionEventIsStored(s: State, runId: RunId, a: Arrival, p: SessionPayload)
    requires a.event.kind == SubAgentSession(Some(p)) && BelongsToRun(a.event, runId)
    requires p.subagentId.Some? && p.childRunId.Some? && a.canLoad && a.canSave
    ensures var id, child, t := p.subagentId.value, p.childRunId.value, AfterSessionEvent(s, runId, a);
            && id in t.children
            && (p.messages != [] ==> t.children[id] == p.messages)
            && (t.children[id] == [] <==> p.messages == [] && Trim(p.task) == "" && (id in s.children ==> s.children[id] == []))
            && (p.messages == [] && Trim(p.task) == "" && id in s.children ==> t.children[id] == s.children[id])
            && (p.messages == [] && Trim(p.task) != "" ==> t.children[id] == [Message(a.freshId, User, [Text(p.task)])]
                                                           && SaidOnce(t.children[id], Normalize(p.task))
                                                           && Said(t.children[id], Normalize(p.task)))
            && t.children - {id} == s.children - {id}
            && (child in t.bindings <==> !(p.status == Some(Completed) || p.status == Some(Failed) || p.status == Some(Cancelled)))
            && (child in t.bindings ==> t.bindings[child] == Binding(id, p.task))
            && t.bindings - {child} == s.bindings - {child}
            && t.conversation == s.conversation && t.dispatched == s.dispatched
  {
    hide Trim, Normalize, SaidOnce, Said, SaysText;
    TaskIsSaid(a.freshId, p.task);
  }

  lemma TaskIsSaid(id: string, task: string)
    ensures SaidOnce([UserMessage(id, task)], Normalize(task)) && Said([UserMessage(id, task)], Normalize(task))
  {
    hide Normalize;
    var m := UserMessage(id, task);
    assert m.content[1..] == [];
    assert TextsOf(m.content) == [task];
    assert SaysText([m][0], Normalize(task));
  }

  /** A child's event, stored: its session says its task once and in the first place it was said,
      everything else in it is the fold of the event, no other session changes, and only its finish
      closes the binding. */
  lemma {:induction false} ChildEventIsStored(s: State, a: Arrival)
    requires a.event.runId.Some? && a.event.runId.value in s.bindings && a.canLoad && a.canSave
    requires a.event.kind.MessageSent? || a.event.kind.MessageDelta? || a.event.kind.Finish?
    ensures var child := a.event.runId.value;
            var b := s.bindings[child];
            var before := if b.subagentId in s.children then s.children[b.subagentId] else [];
            var start := if before == [] && Trim(b.task) != "" then [Message(a.freshId, User, [Text(b.task)])] else before;
            var t := AfterChildEvent(s, a);
            && b.subagentId in t.children
            && var stored, folded := t.children[b.subagentId], Persist(start, a.event.kind);
            && Others(stored, Normalize(b.task)) == Others(folded, Normalize(b.task))
            && (Trim(b.task) != "" ==> SaidOnce(stored, Normalize(b.task)))
            && (Said(stored, Normalize(b.task)) <==> Said(folded, Normalize(b.task)))
            && (SaidOnce(folded, Normalize(b.task)) ==> stored == folded)
            && t.children == s.children[b.subagentId := stored]
            && t.bindings == (if a.event.kind.Finish? then s.bindings - {child} else s.bindings)
            && t.conversation == s.conversation && t.dispatched == s.dispatched
  {
    hide SaysText, Persist, Said, SaidOnce, Others, Normalize, Trim;
    var b := s.bindings[a.event.runId.value];
    var before := ChildConversation(s.children, b.subagentId);
    var start := if before == [] && Trim(b.task) != "" then [UserMessage(a.freshId, b.task)] else before;
    NormalizedOrBlank(b.task);
    KeepFirstKeepsOne(Persist(start, a.event.kind), Normalize(b.task));
  }

  /** An event of another kind, or of a run that is no bound child, changes no child and no binding. */
  lemma {:induction false} OtherEventChangesNoChild(s: State, a: Arrival)
    requires || a.event.runId.None? || a.event.runId.value !in s.bindings
             || !(a.event.kind.MessageSent? || a.event.kind.MessageDelta? || a.event.kind.Finish?)
    ensures AfterChildEvent(s, a) == s
  {
    hide Persist, Dedupe;
  }

  /** When a child's session cannot be read or written, nothing of it changes and its binding stays,
      even on its finish. */
  lemma {:induction false} UnstoredChildEventKeepsBinding(s: State, runId: RunId, a: Arrival)
    requires !a.canLoad || !a.canSave
    ensures AfterChildEvent(s, a) == s
    ensures AfterSessionEvent(s, runId, a).children == s.children
  {
    hide Persist, Dedupe;
  }

  // ---------------------------------------------------------------- when it ends

  /** The pump stops at the first moment its test allows. */
  lemma {:induction false} TakenIsFirstEnd(s: State, runId: RunId, arrivals: seq<Arrival>, m: nat)
    requires 0 < m < Taken(s, runId, arrivals)
    ensures !Ends(s, runId, arrivals[..m])
  {
    hide Ends;
    if arrivals != [] {
      var n := |arrivals| - 1;
      assert arrivals[..n][..m] == arrivals[..m] || m == n;
      if m < Taken(s, runId, arrivals[..n]) {
        TakenIsFirstEnd(s, runId, arrivals[..n], m);
      } else {
        assert m == n;
      }
    }
  }

  lemma {:induction false} BindingsAreTracked(s: State, runId: RunId, arrivals: seq<Arrival>)
    requires s.bindings == map[]
    ensures StateAfter(s, runId, arrivals).bindings.Keys == T.Bindings(runId, EventsIn(arrivals), SavedIn(arrivals))
    ensures SawOwnTerminal(runId, arrivals) <==> T.HasOwnTerminal(runId, EventsIn(arrivals))
  {
    hide Step, T.UpdateBindings;
    if arrivals != [] {
      var n := |arrivals| - 1;
      BindingsAreTracked(s, runId, arrivals[..n]);
      var events := EventsIn(arrivals[..n]);
      assert EventsIn(arrivals) == events + [arrivals[n].event];
      assert (events + [arrivals[n].event])[..n] == events;
      assert SavedIn(arrivals)[..n] == SavedIn(arrivals[..n]);
      StepParts(StateAfter(s, runId, arrivals[..n]), runId, arrivals[n]);
      OneMoreTerminal(runId, events, arrivals[n].event);
      OneMoreArrival(s, runId, arrivals, n);
      assert arrivals[..n + 1] == arrivals;
    }
  }

  /** The pump may end as soon as the run has finished or failed and no child is bound, and not before. */
  lemma {:induction false} EndsExactlyWhen(s: State, runId: RunId, arrivals: seq<Arrival>)
    requires s.bindings == map[]
    ensures Ends(s, runId, arrivals)
            <==> && (exists i :: 0 <= i < |arrivals| && (arrivals[i].event.kind.Finish? || arrivals[i].event.kind.Error?)
                                 && (arrivals[i].event.runId == Some(runId) || arrivals[i].event.runId.None?))
                 && T.Bindings(runId, EventsIn(arrivals), SavedIn(arrivals)) == {}
  {
    hide StateAfter, T.Bindings;
    BindingsAreTracked(s, runId, arrivals);
    assert StateAfter(s, runId, arrivals).bindings.Keys == {} <==> StateAfter(s, runId, arrivals).bindings == map[];
  }

  lemma OneMoreTerminal(runId: RunId, events: seq<Event>, e: Event)
    ensures T.HasOwnTerminal(runId, events + [e]) <==> T.HasOwnTerminal(runId, events) || IsOwnTerminal(runId, e)
  {
    var more := events + [e];
    assert more[|events|] == e;
    assert forall i :: 0 <= i < |events| ==> more[i] == events[i];
  }

  /** The pump never ends by its own test while the forwarder of the same events still counts a
      running child. */
  lemma {:induction false} PumpOutlivesForwarder(s: State, runId: RunId, arrivals: seq<Arrival>)
    requires s.bindings == map[] && Ends(s, runId, arrivals)
    requires forall i :: 0 <= i < |arrivals| ==>
               var e := EventsIn(arrivals)[i];
               && T.IsCompleteSession(e)
               && (e.kind.SubAgentSession? && e.kind.payload.Some? ==> e.kind.payload.value.childRunId != Some(runId))
    ensures T.ForwarderStops(runId, EventsIn(arrivals))
  {
    hide T.IsCompleteSession, T.HasOwnTerminal, T.ActiveChildren, T.Bindings, StateAfter, SawOwnTerminal;
    var events := EventsIn(arrivals);
    BindingsAreTracked(s, runId, arrivals);
    forall i | 0 <= i < |events|
      ensures T.IsCompleteSession(events[i])
      ensures events[i].kind.SubAgentSession? && events[i].kind.payload.Some?
              ==> events[i].kind.payload.value.childRunId != Some(runId)
    {
    }
    T.BindingsCoverActive(runId, events, SavedIn(arrivals));
    assert StateAfter(s, runId, arrivals).bindings.Keys == {};
  }

  // ---------------------------------------------------------------- the logs

  lemma {:induction false} EntriesConcat(log: RunId, a: seq<Dispatched>, b: seq<Dispatched>)
    ensures EntriesOf(log, a + b) == EntriesOf(log, a) + EntriesOf(log, b)
  {
    if b == [] {
      assert a + b == a;
    } else {
      assert (a + b)[..|a + b| - 1] == a + b[..|b| - 1];
      EntriesConcat(log, a, b[..|b| - 1]);
    }
  }

  lemma EntryOf(log: RunId, d: Dispatched)
    ensures EntriesOf(log, [d]) == if d.runId == log then [d.event] else []
  {
    assert [d][..0] == [];
  }

  lemma EntriesOfOne(log: RunId, runId: RunId, e: Event, hasDiff: bool)
    ensures EntriesOf(log, Dispatches(runId, e, hasDiff))
            == if log == runId && IsOwnTerminal(runId, e) && hasDiff
               then [DiffEvent(runId, SeqOf(e)), e.(seqNo := Some(NextSeq(e)))]
               else if GoesTo(log, runId, e) then [e] else []
  {
    var out := Dispatches(runId, e, hasDiff);
    if |out| == 2 {
      EntryOf(log, out[0]);
      EntryOf(log, out[1]);
      EntriesConcat(log, [out[0]], [out[1]]);
      assert out == [out[0]] + [out[1]];
    } else {
      EntryOf(log, out[0]);
      assert out == [out[0]];
    }
  }

  /** A child's events reach its own log as they came, in their order. */
  lemma {:induction false} ChildLogIsUntouched(log: RunId, runId: RunId, arrivals: seq<Arrival>)
    requires log != runId
    ensures EntriesOf(log, DispatchesOf(runId, arrivals)) == ArrivingFor(log, runId, arrivals)
  {
    hide Dispatches;
    if arrivals != [] {
      var n := |arrivals| - 1;
      ChildLogIsUntouched(log, runId, arrivals[..n]);
      EntriesConcat(log, DispatchesOf(runId, arrivals[..n]), Dispatches(runId, arrivals[n].event, arrivals[n].hasDiff));
      EntriesOfOne(log, runId, arrivals[n].event, arrivals[n].hasDiff);
    }
  }

  /** The run's own log: what arrived, with every terminal that found a changed workspace pushed
      one number up behind the diff that takes its place. */
  function Shifted(runId: RunId, arrivals: seq<Arrival>): seq<Event> {
    if arrivals == [] then []
    else
      var a := arrivals[|arrivals| - 1];
      Shifted(runId, arrivals[..|arrivals| - 1])
      + if !BelongsToRun(a.event, runId) then []
        else if IsTerminal(a.event) && a.hasDiff
             then [DiffEvent(runId, SeqOf(a.event)), a.event.(seqNo := Some(NextSeq(a.event)))]
        else [a.event]
  }

  lemma {:induction false} OwnLogIsShifted(runId: RunId, arrivals: seq<Arrival>)
    ensures EntriesOf(runId, DispatchesOf(runId, arrivals)) == Shifted(runId, arrivals)
  {
    hide Dispatches;
    if arrivals != [] {
      var n := |arrivals| - 1;
      OwnLogIsShifted(runId, arrivals[..n]);
      EntriesConcat(runId, DispatchesOf(runId, arrivals[..n]), Dispatches(runId, arrivals[n].event, arrivals[n].hasDiff));
      EntriesOfOne(runId, runId, arrivals[n].event, arrivals[n].hasDiff);
    }
  }

  lemma {:induction false} ShiftedConcat(runId: RunId, a: seq<Arrival>, b: seq<Arrival>)
    ensures Shifted(runId, a + b) == Shifted(runId, a) + Shifted(runId, b)
    ensures ArrivingFor(runId, runId, a + b) == ArrivingFor(runId, runId, a) + ArrivingFor(runId, runId, b)
  {
    if b == [] {
      assert a + b == a;
    } else {
      assert (a + b)[..|a + b| - 1] == a + b[..|b| - 1];
      ShiftedConcat(runId, a, b[..|b| - 1]);
    }
  }

  lemma {:induction false} NothingToShift(runId: RunId, arrivals: seq<Arrival>)
    requires !SawOwnTerminal(runId, arrivals)
    ensures Shifted(runId, arrivals) == ArrivingFor(runId, runId, arrivals)
    ensures !HasTerminal(Shifted(runId, arrivals))
  {
    if arrivals != [] {
      var n := |arrivals| - 1;
      assert forall i :: 0 <= i < n ==> arrivals[..n][i] == arrivals[i];
      NothingToShift(runId, arrivals[..n]);
      assert !IsOwnTerminal(runId, arrivals[n].event);
    }
  }

  predicate IsFirstOwnTerminal(runId: RunId, arrivals: seq<Arrival>, k: nat) {
    k < |arrivals| && IsOwnTerminal(runId, arrivals[k].event) && !SawOwnTerminal(runId, arrivals[..k])
  }

  /** The one or two entries a terminal makes. */
  function TerminalEntries(runId: RunId, a: Arrival): seq<Event> {
    if a.hasDiff then [DiffEvent(runId, SeqOf(a.event)), a.event.(seqNo := Some(NextSeq(a.event)))] else [a.event]
  }

  lemma OwnLogAroundTerminal(runId: RunId, arrivals: seq<Arrival>, k: nat)
    requires IsFirstOwnTerminal(runId, arrivals, k)
    ensures var own := ArrivingFor(runId, runId, arrivals[..k]);
            && Shifted(runId, arrivals)
               == own + TerminalEntries(runId, arrivals[k]) + Shifted(runId, arrivals[k + 1..])
            && ArrivingFor(runId, runId, arrivals)
               == own + [arrivals[k].event] + ArrivingFor(runId, runId, arrivals[k + 1..])
            && !HasTerminal(own)
  {
    hide ArrivingFor, HasTerminal, IsOwnTerminal, SawOwnTerminal;
    var a := [arrivals[k]];
    NothingToShift(runId, arrivals[..k]);
    ShiftedConcat(runId, arrivals[..k], a);
    ShiftedConcat(runId, arrivals[..k] + a, arrivals[k + 1..]);
    assert arrivals == arrivals[..k] + a + arrivals[k + 1..];
    OneShifted(runId, arrivals[k]);
  }

  lemma OneShifted(runId: RunId, a: Arrival)
    requires IsOwnTerminal(runId, a.event)
    ensures Shifted(runId, [a]) == TerminalEntries(runId, a) && ArrivingFor(runId, runId, [a]) == [a.event]
  {
    assert [a][..0] == [];
  }

  predicate AllNumbered(events: seq<Event>) {
    forall i :: 0 <= i < |events| ==> events[i].seqNo.Some?
  }

  lemma FirstTerminalIsAt(own: seq<Event>, pair: seq<Event>, rest: seq<Event>)
    requires !HasTerminal(own) && 1 <= |pair| <= 2 && IsTerminal(pair[|pair| - 1]) && (|pair| == 2 ==> !IsTerminal(pair[0]))
    ensures FirstTerminal(own + pair + rest) == |own| + |pair| - 1
    ensures (own + pair + rest)[..End(own + pair + rest)] == own + pair
  {
    hide FirstTerminal;
    var log := own + pair + rest;
    var t := |own| + |pair| - 1;
    assert IsTerminal(log[t]);
    assert forall i :: 0 <= i < t ==> !IsTerminal(log[i]);
    assert FirstTerminal(log) == t;
  }

  /** A run's log rises strictly to its terminal, diff included, exactly when its events arrived so and
      there is a number left to shift the terminal to. */
  lemma {:induction false} OwnLogIsOrdered(runId: RunId, arrivals: seq<Arrival>, k: nat)
    requires IsFirstOwnTerminal(runId, arrivals, k)
    requires AllNumbered(ArrivingFor(runId, runId, arrivals[..k]) + [arrivals[k].event])
    ensures Ordered(EntriesOf(runId, DispatchesOf(runId, arrivals)))
            <==> && Ascending(ArrivingFor(runId, runId, arrivals[..k]) + [arrivals[k].event])
                 && !(arrivals[k].hasDiff && arrivals[k].event.seqNo == Some(U64_MAX))
  {
    hide ArrivingFor, Shifted, EntriesOf, DispatchesOf, FirstTerminal, SawOwnTerminal, HasTerminal;
    OwnLogIsShifted(runId, arrivals);
    OwnLogAroundTerminal(runId, arrivals, k);
    var own, pair := ArrivingFor(runId, runId, arrivals[..k]), TerminalEntries(runId, arrivals[k]);
    FirstTerminalIsAt(own, pair, Shifted(runId, arrivals[k + 1..]));
    ShiftKeepsOrder(runId, own, arrivals[k]);
  }

  /** From the counter of agent-core to the log of the server: a run whose events go out numbered from 1,
      as they do without workers beside it, is logged in the order that readers of its log rely on. */
  lemma {:induction false} NumberedRunIsLoggedInOrder(runId: RunId, arrivals: seq<Arrival>, k: nat, kinds: seq<Kind>)
    requires IsFirstOwnTerminal(runId, arrivals, k) && |kinds| < U64_MAX
    requires ArrivingFor(runId, runId, arrivals[..k]) + [arrivals[k].event] == Numbered(runId, 1, kinds)
    ensures Ordered(EntriesOf(runId, DispatchesOf(runId, arrivals)))
  {
    hide ArrivingFor, EntriesOf, DispatchesOf, Numbered, SawOwnTerminal, Ordered;
    NumberedFromOne(runId, kinds);
    var upTo := ArrivingFor(runId, runId, arrivals[..k]) + [arrivals[k].event];
    assert upTo[|upTo| - 1] == arrivals[k].event;
    OwnLogIsOrdered(runId, arrivals, k);
  }

  lemma {:induction false} ShiftKeepsOrder(runId: RunId, own: seq<Event>, a: Arrival)
    requires AllNumbered(own + [a.event])
    ensures Ascending(own + TerminalEntries(runId, a))
            <==> Ascending(own + [a.event]) && !(a.hasDiff && a.event.seqNo == Some(U64_MAX))
    ensures AllNumbered(own + TerminalEntries(runId, a))
  {
    var upTo, shifted := own + [a.event], own + TerminalEntries(runId, a);
    assert upTo[|own|] == a.event;
    assert forall i :: 0 <= i < |own| ==> upTo[i] == own[i] == shifted[i];
    if a.hasDiff {
      assert shifted[|own|] == DiffEvent(runId, SeqOf(a.event));
      assert shifted[|own| + 1] == a.event.(seqNo := Some(NextSeq(a.event)));
      assert forall i :: 0 <= i <= |own| ==> upTo[i].seqNo == shifted[i].seqNo;
    }
  }

  /** Events of the run that follow its terminal may collide with its shifted number: the whole log
      rises strictly exactly when no diff was put in or every later number leaves room for it. */
  lemma {:induction false} LateEventsKeepOrderExactlyWhen(runId: RunId, arrivals: seq<Arrival>, k: nat)
    requires IsFirstOwnTerminal(runId, arrivals, k) && !SawOwnTerminal(runId, arrivals[k + 1..])
    requires AllNumbered(ArrivingFor(runId, runId, arrivals)) && Ascending(ArrivingFor(runId, runId, arrivals))
    ensures Ascending(EntriesOf(runId, DispatchesOf(runId, arrivals)))
            <==> !arrivals[k].hasDiff
                 || (SeqOf(arrivals[k].event) < U64_MAX
                     && forall e :: e in ArrivingFor(runId, runId, arrivals[k + 1..]) ==> SeqOf(e) > SeqOf(arrivals[k].event) + 1)
  {
    hide ArrivingFor, Shifted, EntriesOf, DispatchesOf, SawOwnTerminal, HasTerminal, Ascending;
    OwnLogIsShifted(runId, arrivals);
    OwnLogAroundTerminal(runId, arrivals, k);
    NothingToShift(runId, arrivals[k + 1..]);
    LateShift(runId, ArrivingFor(runId, runId, arrivals[..k]), arrivals[k], ArrivingFor(runId, runId, arrivals[k + 1..]));
  }

  predicate AllBelow(a: seq<Event>, b: seq<Event>) {
    forall i, j :: 0 <= i < |a| && 0 <= j < |b| ==> SeqOf(a[i]) < SeqOf(b[j])
  }

  lemma AscendingConcat(a: seq<Event>, b: seq<Event>)
    requires AllNumbered(a + b)
    ensures Ascending(a + b) <==> Ascending(a) && Ascending(b) && AllBelow(a, b)
    ensures AllNumbered(a) && AllNumbered(b)
  {
    var all := a + b;
    assert forall i :: 0 <= i < |a| ==> all[i] == a[i];
    assert forall j :: 0 <= j < |b| ==> all[|a| + j] == b[j];
    if Ascending(all) {
      forall i, j | 0 <= i < |a| && 0 <= j < |b|
        ensures SeqOf(a[i]) < SeqOf(b[j])
      {
        assert all[i] == a[i] && all[|a| + j] == b[j];
      }
    }
  }

  lemma LateShift(runId: RunId, own: seq<Event>, a: Arrival, rest: seq<Event>)
    requires AllNumbered(own + [a.event] + rest) && Ascending(own + [a.event] + rest)
    ensures Ascending(own + TerminalEntries(runId, a) + rest)
            <==> !a.hasDiff || (SeqOf(a.event) < U64_MAX && forall e :: e in rest ==> SeqOf(e) > SeqOf(a.event) + 1)
  {
    hide Ascending;
    var upTo, shifted := own + [a.event], own + TerminalEntries(runId, a);
    AscendingConcat(upTo, rest);
    ShiftKeepsOrder(runId, own, a);
    AllNumberedConcat(shifted, rest);
    AscendingConcat(shifted, rest);
    BelowRest(own, a, runId, rest);
  }

  lemma AllNumberedConcat(a: seq<Event>, b: seq<Event>)
    requires AllNumbered(a) && AllNumbered(b)
    ensures AllNumbered(a + b)
  {
  }

  lemma BelowRest(own: seq<Event>, a: Arrival, runId: RunId, rest: seq<Event>)
    requires AllBelow(own + [a.event], rest)
    ensures AllBelow(own + TerminalEntries(runId, a), rest)
            <==> !a.hasDiff || forall e :: e in rest ==> SeqOf(e) > NextSeq(a.event)
    ensures rest != [] ==> SeqOf(a.event) < U64_MAX
  {
    var upTo, shifted := own + [a.event], own + TerminalEntries(runId, a);
    assert upTo[|own|] == a.event && forall i :: 0 <= i < |own| ==> upTo[i] == own[i] == shifted[i];
    if a.hasDiff {
      assert shifted[|own| + 1] == a.event.(seqNo := Some(NextSeq(a.event)));
      assert shifted[|own|] == DiffEvent(runId, SeqOf(a.event));
    }
    if rest != [] {
      assert SeqOf(upTo[|own|]) < SeqOf(rest[0]);
    }
  }

  /** A diff is written only right before a terminal of the run, and takes the number it had. */
  lemma {:induction false} DiffPrecedesTerminal(runId: RunId, arrivals: seq<Arrival>, i: nat)
    requires forall j :: 0 <= j < |arrivals| ==> !arrivals[j].event.kind.DiffReady?
    requires i < |Shifted(runId, arrivals)| && Shifted(runId, arrivals)[i].kind.DiffReady?
    ensures i + 1 < |Shifted(runId, arrivals)|
    ensures var diff, next := Shifted(runId, arrivals)[i], Shifted(runId, arrivals)[i + 1];
            IsTerminal(next) && exists a :: a in arrivals && a.hasDiff && IsOwnTerminal(runId, a.event)
                                          && diff == DiffEvent(runId, SeqOf(a.event))
                                          && next == a.event.(seqNo := Some(NextSeq(a.event)))
  {
    var n := |arrivals| - 1;
    if i < |Shifted(runId, arrivals[..n])| {
      DiffPrecedesTerminal(runId, arrivals[..n], i);
    } else {
      assert arrivals[n] in arrivals;
    }
  }

  /** What the reply's own stream shows of a run is a prefix of the run's log, so it can be the first
      link of a chain of reconnects. */
  lemma {:induction false} ReplyStreamIsLogPrefix(log: RunId, dispatched: seq<Dispatched>, k: nat)
    requires k <= |dispatched|
    ensures EntriesOf(log, dispatched[..k]) <= EntriesOf(log, dispatched)
  {
    EntriesConcat(log, dispatched[..k], dispatched[k..]);
    assert dispatched[..k] + dispatched[k..] == dispatched;
  }

  /** A client that follows the reply, loses it after `k` events and then reconnects gets the run's
      log without gap or repetition. */
  lemma {:induction false} ReplyClientGetsTheLog(actions: seq<Action>, s: Pipeline, runId: RunId, dispatched: seq<Dispatched>, k: nat,
                                                 links: seq<Link>)
    requires Execute(actions) == Some(s) && s.log == EntriesOf(runId, dispatched) && Ordered(s.log) && k <= |dispatched|
    requires var first := EntriesOf(runId, dispatched[..k]);
             && AllNumbered(first) && !HasTerminal(first)
             && IsChain(s, links) && s.readers[links[0].reader].after == Some(LastSeq(0, first))
    ensures EntriesOf(runId, dispatched[..k]) + Received(links) <= Target(s.log, None)
    ensures var last := links[|links| - 1];
            && last.reader < |s.readers|
            && (LoadedAfterTerminal(s.log, s.readers[last.reader]) && last.received == s.readers[last.reader].sent
                ==> EntriesOf(runId, dispatched[..k]) + Received(links) == Target(s.log, None))
  {
    hide EntriesOf, Execute, Ordered, IsChain, LastSeq, Received, Target;
    ReplyStreamIsLogPrefix(runId, dispatched, k);
    ReplyThenReconnectsIsExactlyOnce(actions, s, EntriesOf(runId, dispatched[..k]), links);
  }

  // ---------------------------------------------------------------- the placeholder

  /** Message `i` stands behind the user's, or anywhere if the user's is not there. */
  predicate StandsBehind(conversation: seq<Message>, userId: string, i: nat) {
    (exists k :: 0 <= k < i && k < |conversation| && conversation[k].id == userId)
    || (forall k :: 0 <= k < |conversation| ==> conversation[k].id != userId)
  }

  predicate HasAnswer(conversation: seq<Message>, userId: string) {
    exists i :: 0 <= i < |conversation| && conversation[i].role == Assistant && StandsBehind(conversation, userId, i)
  }

  lemma {:induction false} AnsweredIsAnAnswer(conversation: seq<Message>, userId: string)
    ensures Answered(conversation, userId) <==> HasAnswer(conversation, userId)
  {
    hide IndexOf;
    var at := IndexOf(conversation, userId);
    if at.Some? {
      var rest := conversation[at.value + 1..];
      assert conversation[at.value].id == userId;
      if Answered(conversation, userId) {
        var i :| 0 <= i < |rest| && rest[i].role.Assistant?;
        assert conversation[at.value + 1 + i] == rest[i];
        assert StandsBehind(conversation, userId, at.value + 1 + i);
      }
      if HasAnswer(conversation, userId) {
        var i :| 0 <= i < |conversation| && conversation[i].role == Assistant && StandsBehind(conversation, userId, i);
        assert rest[i - at.value - 1] == conversation[i];
      }
    }
  }

  /** Closing a session adds the placeholder exactly when the run's last terminal was its finish and no
      assistant message stands behind the user's; otherwise it leaves the conversation alone. */
  lemma {:induction false} PlaceholderExactlyWhen(conversation: seq<Message>, runId: RunId, userId: string, wasFinish: bool, freshId: string)
    ensures var after := Finalize(conversation, runId, userId, wasFinish, freshId);
            var placeholder := Message(freshId, Assistant, [Text("Run " + runId + " completed without assistant message.")]);
            && after in {conversation, conversation + [placeholder]}
            && (after == conversation + [placeholder] <==> wasFinish && !HasAnswer(conversation, userId))
  {
    hide Answered, HasAnswer;
    AnsweredIsAnAnswer(conversation, userId);
    var placeholder := Message(freshId, Assistant, [Text("Run " + runId + " completed without assistant message.")]);
    assert |conversation + [placeholder]| != |conversation|;
  }

  /** Event `k` is a finish of the run, and no finish or error of it follows. */
  predicate IsLastFinish(runId: RunId, arrivals: seq<Arrival>, k: nat) {
    k < |arrivals| && arrivals[k].event.kind.Finish? && BelongsToRun(arrivals[k].event, runId)
    && forall j :: k < j < |arrivals| && BelongsToRun(arrivals[j].event, runId)
         ==> !arrivals[j].event.kind.Finish? && !arrivals[j].event.kind.Error?
  }

  /** The run's last terminal among these events is its finish. */
  predicate EndedWithFinish(runId: RunId, arrivals: seq<Arrival>) {
    exists k :: 0 <= k < |arrivals| && IsLastFinish(runId, arrivals, k)
  }

  lemma {:induction false} LastWasFinishMeans(runId: RunId, arrivals: seq<Arrival>)
    ensures LastWasFinish(runId, arrivals) <==> EndedWithFinish(runId, arrivals)
  {
    hide BelongsToRun, IsLastFinish;
    if arrivals != [] {
      var n := |arrivals| - 1;
      LastWasFinishMeans(runId, arrivals[..n]);
      LastFinishStays(runId, arrivals, n);
      if EndedWithFinish(runId, arrivals) {
        var k :| 0 <= k < |arrivals| && IsLastFinish(runId, arrivals, k);
        LastFinishStays(runId, arrivals, k);
      }
      if EndedWithFinish(runId, arrivals[..n]) {
        var k :| 0 <= k < n && IsLastFinish(runId, arrivals[..n], k);
        LastFinishStays(runId, arrivals, k);
      }
    }
  }

  lemma LastFinishStays(runId: RunId, arrivals: seq<Arrival>, k: nat)
    requires k < |arrivals|
    ensures var n := |arrivals| - 1;
            IsLastFinish(runId, arrivals, k)
            <==> if k == n then arrivals[n].event.kind.Finish? && BelongsToRun(arrivals[n].event, runId)
                 else IsLastFinish(runId, arrivals[..n], k) && !IsOwnTerminal(runId, arrivals[n].event)
  {
    hide BelongsToRun;
    var before := arrivals[..|arrivals| - 1];
    assert forall i :: 0 <= i < |before| ==> before[i] == arrivals[i];
  }

  /** What `ReplyPump.Run` leaves is the fold of the run, and behind it the placeholder exactly when the
      run ended with its finish and stored no assistant message behind the user's. */
  lemma {:induction false} AnsweredRunGetsNoPlaceholder(start: State, runId: RunId, userId: string, arrivals: seq<Arrival>, freshId: string)
    ensures var stored := StateAfter(start, runId, arrivals).conversation;
            var left := Finalize(stored, runId, userId, LastWasFinish(runId, arrivals), freshId);
            && (left != stored <==> EndedWithFinish(runId, arrivals) && !HasAnswer(stored, userId))
            && (left != stored ==> |left| == |stored| + 1 && left[..|stored|] == stored && left[|stored|].role == Assistant)
  {
    hide HasAnswer, EndedWithFinish, StateAfter, LastWasFinish, Finalize;
    var stored := StateAfter(start, runId, arrivals).conversation;
    LastWasFinishMeans(runId, arrivals);
    PlaceholderExactlyWhen(stored, runId, userId, LastWasFinish(runId, arrivals), freshId);
  }

  /** Closing a run and opening the next reply: the placeholder is gone again, exactly because run
      ids begin with "run-". */
  lemma {:induction false} PlaceholderComesAndGoes(conversation: seq<Message>, runId: RunId, userId: string, wasFinish: bool, freshId: string)
    ensures IsPlaceholder(Placeholder(freshId, runId)) <==> "run-" <= runId
    ensures "run-" <= runId ==>
              WithoutPlaceholders(Finalize(conversation, runId, userId, wasFinish, freshId)) == WithoutPlaceholders(conversation)
  {
    var m := Placeholder(freshId, runId);
    var text := m.content[0].text;
    assert text[..|text|] == PLACEHOLDER_START + runId + PLACEHOLDER_END;
    assert text[|text| - |PLACEHOLDER_END|..] == PLACEHOLDER_END;
    PlaceholderStart(runId);
    assert (conversation + [m])[..|conversation|] == conversation;
  }

  lemma PlaceholderStart(runId: RunId)
    ensures "Run run-" <= PLACEHOLDER_START + runId + PLACEHOLDER_END <==> "run-" <= runId
  {
    var text := PLACEHOLDER_START + runId + PLACEHOLDER_END;
    if |runId| >= 4 {
      assert text[4..8] == runId[..4];
      assert "Run run-"[4..] == "run-";
      assert text[..8] == "Run " + runId[..4];
    } else {
      assert text[4 + |runId|] == ' ';
      assert "Run run-"[4 + |runId|] != ' ';
    }
  }
}
