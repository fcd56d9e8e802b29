/** The stdout reader as a protocol: it resolves an event under the lock, sends it, checks whether
    the channel is to be closed and removes it, while other threads register runs, drop receivers,
    clear the table or take back a run whose start failed. */
module Router {
  import opened Wrappers
  import opened Events
  import opened RunIds
  import opened Routes
  import opened Trackers

  datatype Pc =
    | Idle
    | Sending(e: Event, route: Route)
    | Checking(e: Event, route: Route)
    | Removing(runId: RunId)
    | Abandoning(e: Event, route: Route)

  /** `stdout` is every event routed so far. For each run ever registered, `delivered` is what its
      channel was sent, `registeredAt` the stdout length at that moment, and `closedAt` how much of stdout
      had been routed when its channel was closed, without an event whose send failed. A run is `abandoned`
      when it was such a send that closed it. It is `disturbed` when its receiver went away before its
      forwarder could stop, its start failed, or the table was cleared after something of its family had
      been seen. */
  datatype World = World(
    table: RouteTable,
    pc: Pc,
    stdout: seq<Event>,
    delivered: map<RunId, seq<Event>>,
    registeredAt: map<RunId, nat>,
    closedAt: map<RunId, nat>,
    dropped: set<RunId>,
    abandoned: set<RunId>,
    disturbed: set<RunId>)

  const START := World(EMPTY, Idle, [], map[], map[], map[], {}, {}, {})

  datatype Action =
    | Register(runId: RunId)
    | ResolveEvent(e: Event)
    | Send
    | Check
    | Remove
    | DropReceiver(runId: RunId)
    | FailStart(runId: RunId)
    | Clear

  /** Nothing of this run or of its sub-agents has been seen yet. */
  predicate IsFresh(w: World, runId: RunId) {
    && runId !in w.registeredAt
    && forall i :: 0 <= i < |w.stdout| && w.stdout[i].runId.Some? ==> Root(w.stdout[i].runId.value) != runId
  }

  /** A forwarder that has taken some of these events may have stopped by its own test. */
  predicate HasStopped(runId: RunId, delivered: seq<Event>) {
    exists n :: 0 < n <= |delivered| && ForwarderStops(runId, delivered[..n])
  }

  /** The receiver of a run has no more use: its forwarder may have stopped, or its channel is closed. */
  predicate MayDrop(w: World, runId: RunId) {
    runId in w.closedAt || (runId in w.delivered && HasStopped(runId, w.delivered[runId]))
  }

  predicate Enabled(w: World, a: Action) {
    match a
    case Register(runId) => IsRoot(runId) && IsFresh(w, runId)
    case ResolveEvent(e) => w.pc.Idle? && e.runId.Some?
    case Send => w.pc.Sending? && w.pc.route.runId in w.delivered
    case Check => w.pc.Checking?
    case Remove => w.pc.Removing? || w.pc.Abandoning?
    case DropReceiver(runId) => runId in w.registeredAt
    case FailStart(_) => true
    case Clear => true
  }

  /** The run the reader is busy with. */
  function PcRun(pc: Pc): RunId
    requires !pc.Idle?
  {
    match pc
    case Sending(_, route) => route.runId
    case Checking(_, route) => route.runId
    case Removing(runId) => runId
    case Abandoning(_, route) => route.runId
  }

  function RootsSeen(stdout: seq<Event>): set<RunId> {
    set i | 0 <= i < |stdout| && stdout[i].runId.Some? :: Root(stdout[i].runId.value)
  }

  function Next(w: World, a: Action): World
    requires Enabled(w, a)
  {
    match a
    case Register(runId) =>
      w.(table := w.table.(senders := w.table.senders + {runId}),
         delivered := w.delivered[runId := []],
         registeredAt := w.registeredAt[runId := |w.stdout|])
    case ResolveEvent(e) =>
      var route := ResolveRoute(w.table, e, e.runId.value);
      w.(table := Resolve(w.table, e, e.runId.value),
         stdout := w.stdout + [e],
         pc := if route.Some? then Sending(e, route.value) else Idle)
    case Send =>
      var runId := w.pc.route.runId;
      if runId in w.dropped then w.(pc := Abandoning(w.pc.e, w.pc.route))
      else w.(delivered := w.delivered[runId := w.delivered[runId] + [w.pc.e]], pc := Checking(w.pc.e, w.pc.route))
    case Check =>
      w.(pc := if ClosesAfter(w.table, w.pc.e, w.pc.route) then Removing(w.pc.route.runId) else Idle)
    case Remove =>
      var runId := PcRun(w.pc);
      var routed: nat := if w.pc.Abandoning? && w.stdout != [] then |w.stdout| - 1 else |w.stdout|;
      w.(table := RemoveSender(w.table, runId), pc := Idle,
         closedAt := if runId in w.closedAt then w.closedAt else w.closedAt[runId := routed],
         abandoned := if w.pc.Abandoning? && runId !in w.closedAt then w.abandoned + {runId} else w.abandoned)
    case DropReceiver(runId) =>
      w.(dropped := w.dropped + {runId},
         disturbed := if MayDrop(w, runId) then w.disturbed else w.disturbed + {runId})
    case FailStart(runId) =>
      w.(table := w.table.(senders := w.table.senders - {runId}), disturbed := w.disturbed + {runId})
    case Clear =>
      w.(table := EMPTY, disturbed := w.disturbed + w.registeredAt.Keys + RootsSeen(w.stdout))
  }

  function Execute(actions: seq<Action>): Option<World> {
    if actions == [] then Some(START)
    else
      match Execute(actions[..|actions| - 1])
      case None => None
      case Some(w) =>
        var a := actions[|actions| - 1];
        if Enabled(w, a) then Some(Next(w, a)) else None
  }

  // ---------------------------------------------------------------- what the stream itself says

  /** How agent-core names things: a session event comes from the parent it names, and the child's
      id extends the parent's. `names` gives each child's one parent. */
  ghost predicate IsWellNamed(e: Event, names: RunId -> RunId) {
    && e.runId.Some? && IsRoot(Root(e.runId.value))
    && IsCompleteSession(e)
    && (e.kind.SubAgentSession? ==>
          var child := e.kind.payload.value.childRunId.value;
          && names(child) == e.runId.value
          && exists suffix :: child == ChildRunId(e.runId.value, suffix))
  }

  ghost predicate WellNamed(stdout: seq<Event>, names: RunId -> RunId) {
    forall i :: 0 <= i < |stdout| ==> IsWellNamed(stdout[i], names)
  }

  /** Whether the last word of the stream on a child is that it is running. */
  function Tracked(stdout: seq<Event>, child: RunId): bool {
    if stdout == [] then false
    else
      var e := stdout[|stdout| - 1];
      if SessionChild(e) == Some(child) then !SessionEnds(e)
      else if IsTerminal(e) && e.runId == Some(child) then false
      else Tracked(stdout[..|stdout| - 1], child)
  }

  /** A run and its direct sub-agents. */
  predicate IsOwnOrChild(names: RunId -> RunId, runId: RunId, e: Event) {
    e.runId.Some? && (e.runId.value == runId
                      || (SubagentParentRunId(e.runId.value) == Some(runId) && names(e.runId.value) == runId))
  }

  /** What a run's channel shows: the run, its direct sub-agents, and a deeper sub-agent only while
      it is not registered, because a registered one resolves to a parent without a channel. */
  predicate Visible(names: RunId -> RunId, runId: RunId, before: seq<Event>, e: Event) {
    || IsOwnOrChild(names, runId, e)
    || (e.runId.Some? && SubagentParentRunId(e.runId.value) == Some(runId) && !Tracked(before, e.runId.value))
  }

  /** The visible events of a run among those routed since it was registered. */
  function VisibleSince(names: RunId -> RunId, runId: RunId, stdout: seq<Event>, from: nat): seq<Event> {
    if |stdout| <= from then []
    else
      var before, e := stdout[..|stdout| - 1], stdout[|stdout| - 1];
      VisibleSince(names, runId, before, from) + if Visible(names, runId, before, e) then [e] else []
  }
}
