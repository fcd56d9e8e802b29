/** The reply pump: it takes a run's events from its channel, folds them into the session and the
    sessions of sub-agents, writes them to the logs, and passes them to a client as long as the
    client keeps up. */
module Pump {
  import opened Wrappers
  import opened Events
  import opened Text
  import opened Conversations
  import opened Trackers

  // ---------------------------------------------------------------- numbering the terminal

  function SeqOf(e: Event): U64 {
    if e.seqNo.Some? then e.seqNo.value else 0
  }

  /** The next sequence number; the last one is its own successor. */
  function NextSeq(e: Event): U64 {
    if SeqOf(e) == U64_MAX then U64_MAX else SeqOf(e) + 1
  }

  /** An event and the run whose log it goes to. */
  datatype Dispatched = Dispatched(runId: RunId, event: Event)

  predicate IsOwnTerminal(runId: RunId, e: Event) {
    BelongsToRun(e, runId) && IsTerminal(e)
  }

  function DiffEvent(runId: RunId, s: U64): Event {
    Event(Some(runId), Some(s), DiffReady)
  }

  /** What goes out for one event: a terminal of the run makes room for the workspace diff. */
  function Dispatches(runId: RunId, e: Event, hasDiff: bool): seq<Dispatched> {
    var target := if e.runId.Some? then e.runId.value else runId;
    if IsOwnTerminal(runId, e) && hasDiff
    then [Dispatched(runId, DiffEvent(runId, SeqOf(e))), Dispatched(target, e.(seqNo := Some(NextSeq(e))))]
    else [Dispatched(target, e)]
  }

  // ---------------------------------------------------------------- duplicate user messages

  function TextOfBlock(block: ContentBlock): seq<string> {
    match block
    case Text(text) => [text]
    case Thinking(text) => [text]
    case ToolResponse(_, content, _) => [content]
    case ToolRequest(_, _, _) => []
  }

  function TextsOf(content: seq<ContentBlock>): seq<string> {
    if content == [] then [] else TextOfBlock(content[0]) + TextsOf(content[1..])
  }

  predicate SaysText(m: Message, normalized: string) {
    m.role.User? && Normalize(Join(TextsOf(m.content), "\n")) == normalized
  }

  /** Keeps the first user message that says `text`, in other spacing perhaps, and drops the rest. */
  function KeepFirst(conversation: seq<Message>, normalized: string): seq<Message> {
    if conversation == [] then []
    else
      var kept := KeepFirst(conversation[..|conversation| - 1], normalized);
      var m := conversation[|conversation| - 1];
      if SaysText(m, normalized) && Said(conversation[..|conversation| - 1], normalized) then kept else kept + [m]
  }

  predicate Said(conversation: seq<Message>, normalized: string) {
    exists i :: 0 <= i < |conversation| && SaysText(conversation[i], normalized)
  }

  function Dedupe(conversation: seq<Message>, text: string): seq<Message> {
    if Normalize(text) == "" then conversation else KeepFirst(conversation, Normalize(text))
  }

  /** A conversation in which at most one user message says the text. */
  predicate SaidOnce(conversation: seq<Message>, normalized: string) {
    forall i, j :: 0 <= i < j < |conversation| ==>
      !(SaysText(conversation[i], normalized) && SaysText(conversation[j], normalized))
  }

  /** The messages that do not say the text. */
  function Others(conversation: seq<Message>, normalized: string): seq<Message> {
    if conversation == [] then []
    else
      var m := conversation[|conversation| - 1];
      Others(conversation[..|conversation| - 1], normalized) + if SaysText(m, normalized) then [] else [m]
  }

  lemma OneMoreMessage(before: seq<Message>, m: Message, normalized: string)
    ensures Said(before + [m], normalized) <==> Said(before, normalized) || SaysText(m, normalized)
    ensures SaidOnce(before + [m], normalized)
            <==> SaidOnce(before, normalized) && !(Said(before, normalized) && SaysText(m, normalized))
    ensures Others(before + [m], normalized)
            == Others(before, normalized) + if SaysText(m, normalized) then [] else [m]
  {
    hide SaysText;
    var more := before + [m];
    assert more[..|more| - 1] == before && more[|before|] == m;
    assert forall i :: 0 <= i < |before| ==> more[i] == before[i];
  }

  /** Dropping the repetitions leaves the text said once, if it was said at all, keeps every other
      message in its order, and changes nothing exactly when there is no repetition. */
  lemma {:induction false} KeepFirstKeepsOne(conversation: seq<Message>, normalized: string)
    ensures var kept := KeepFirst(conversation, normalized);
            && SaidOnce(kept, normalized)
            && (Said(kept, normalized) <==> Said(conversation, normalized))
            && Others(kept, normalized) == Others(conversation, normalized)
            && |kept| <= |conversation|
            && (SaidOnce(conversation, normalized) <==> kept == conversation)
  {
    hide SaysText, Said, SaidOnce, Others;
    if conversation == [] {
      NothingSaid(normalized);
    } else {
      var n := |conversation| - 1;
      var before, m := conversation[..n], conversation[n];
      var kept := KeepFirst(before, normalized);
      KeepFirstKeepsOne(before, normalized);
      OneMoreMessage(before, m, normalized);
      OneMoreMessage(kept, m, normalized);
      assert before + [m] == conversation;
      if !(SaysText(m, normalized) && Said(before, normalized)) && kept + [m] == conversation {
        assert kept == (kept + [m])[..n];
      }
    }
  }

  lemma NothingSaid(normalized: string)
    ensures SaidOnce([], normalized) && !Said([], normalized)
  {
  }

  lemma {:induction false} TextsAre(block: ContentBlock, rest: seq<ContentBlock>)
    ensures TextsOf([]) == []
    ensures TextsOf([block] + rest)
            == (match block
                case Text(text) => [text]
                case Thinking(text) => [text]
                case ToolResponse(_, content, _) => [content]
                case ToolRequest(_, _, _) => []) + TextsOf(rest)
  {
    assert ([block] + rest)[1..] == rest;
  }

  /** A further message is dropped exactly when it is the user's, says the text in other spacing perhaps,
      and an earlier message of the user said it too. */
  lemma {:induction false} DroppedExactlyWhen(conversation: seq<Message>, m: Message, text: string)
    requires Words(text) != []
    ensures var repeats := m.role == User && Join(Words(Join(TextsOf(m.content), "\n")), " ") == Join(Words(text), " ")
                           && exists i :: 0 <= i < |conversation| && conversation[i].role == User
                                          && Join(Words(Join(TextsOf(conversation[i].content), "\n")), " ") == Join(Words(text), " ");
            Dedupe(conversation + [m], text) == Dedupe(conversation, text) + if repeats then [] else [m]
  {
    hide Words, Join, TextsOf;
    WordsAreNotBlank(text);
    assert (conversation + [m])[..|conversation|] == conversation;
  }

  lemma {:induction false} WordsAreNotBlank(text: string)
    requires Words(text) != []
    ensures Normalize(text) != ""
  {
    hide Words;
    WordsOrBlank(text);
    assert Words(text)[0] != "";
  }

  /** What others than the user have said. */
  function NotTheUsers(conversation: seq<Message>): seq<Message> {
    if conversation == [] then []
    else
      var m := conversation[|conversation| - 1];
      NotTheUsers(conversation[..|conversation| - 1]) + if m.role == User then [] else [m]
  }

  lemma {:induction false} OneMoreOfOthers(conversation: seq<Message>, m: Message)
    ensures NotTheUsers([]) == []
    ensures NotTheUsers(conversation + [m]) == NotTheUsers(conversation) + match m.role case User => [] case _ => [m]
  {
    assert (conversation + [m])[..|conversation|] == conversation;
  }

  /** Only messages of the user are ever dropped; all others stay, in their order. */
  lemma {:induction false} OnlyUserMessagesAreDropped(conversation: seq<Message>, text: string)
    ensures NotTheUsers(Dedupe(conversation, text)) == NotTheUsers(conversation)
  {
    hide Normalize;
    if Normalize(text) != "" {
      KeepsOthers(conversation, Normalize(text));
    }
  }

  lemma {:induction false} KeepsOthers(conversation: seq<Message>, normalized: string)
    ensures NotTheUsers(KeepFirst(conversation, normalized)) == NotTheUsers(conversation)
  {
    hide Said, Normalize, TextsOf;
    if conversation != [] {
      var n := |conversation| - 1;
      var kept := KeepFirst(conversation[..n], normalized);
      KeepsOthers(conversation[..n], normalized);
      assert (kept + [conversation[n]])[..|kept|] == kept;
    }
  }

  /** The retain pass over a stored conversation. */
  method DedupeUserMessageText(session: Conversation, text: string)
    modifies session
    ensures session.messages == Dedupe(old(session.messages), text)
  {
    hide SaysText;
    var normalized := Normalize(text);
    if normalized == "" {
      return;
    }
    var conversation := session.messages;
    var kept: seq<Message> := [];
    var seen := false;
    for i := 0 to |conversation|
      invariant kept == KeepFirst(conversation[..i], normalized)
      invariant seen <==> Said(conversation[..i], normalized)
      invariant session.messages == conversation
    {
      assert conversation[..i + 1] == conversation[..i] + [conversation[i]];
      OneMoreMessage(conversation[..i], conversation[i], normalized);
      if !SaysText(conversation[i], normalized) {
        kept := kept + [conversation[i]];
      } else if !seen {
        seen := true;
        kept := kept + [conversation[i]];
      }
    }
    assert conversation[..|conversation|] == conversation;
    session.messages := kept;
  }

  // ---------------------------------------------------------------- what one event does

  datatype Binding = Binding(subagentId: string, task: string)

  /** An event as it comes in, with everything outside that bears on it: whether the workspace has
      changed, whether a child session can be read and written, and an unused message id. */
  datatype Arrival = Arrival(event: Event, hasDiff: bool, canLoad: bool, canSave: bool, freshId: string)

  datatype State = State(
    conversation: seq<Message>,
    children: map<string, seq<Message>>,
    bindings: map<RunId, Binding>,
    dispatched: seq<Dispatched>)

  function UserMessage(id: string, text: string): Message {
    Message(id, User, [Text(text)])
  }

  function ChildConversation(children: map<string, seq<Message>>, subagentId: string): seq<Message> {
    if subagentId in children then children[subagentId] else []
  }

  /** A session event opens or closes a binding, and sets the child's conversation if it brings one
      or names a task. */
  function AfterSessionEvent(s: State, runId: RunId, a: Arrival): State {
    match a.event.kind
    case SubAgentSession(Some(p)) =>
      if !BelongsToRun(a.event, runId) || p.subagentId.None? || p.childRunId.None? then s
      else
        var child := p.childRunId.value;
        var messages := if p.messages == [] && Trim(p.task) != "" then [UserMessage(a.freshId, p.task)] else p.messages;
        var stored := ChildConversation(s.children, p.subagentId.value);
        s.(bindings := if IsTerminalStatus(p.status) then s.bindings - {child}
                       else s.bindings[child := Binding(p.subagentId.value, p.task)],
           children := if a.canLoad && a.canSave
                       then s.children[p.subagentId.value := if messages != [] then messages else stored]
                       else s.children)
    case _ => s
  }

  predicate ChangesChild(kind: Kind) {
    kind.MessageSent? || kind.MessageDelta? || kind.Finish?
  }

  /** A child's own event goes into its conversation, which begins with its task; its finish closes
      the binding, unless the conversation could not be stored. */
  function AfterChildEvent(s: State, a: Arrival): State {
    var e := a.event;
    if e.runId.None? || e.runId.value !in s.bindings || !ChangesChild(e.kind) || !a.canLoad then s
    else
      var binding := s.bindings[e.runId.value];
      var stored := ChildConversation(s.children, binding.subagentId);
      var start := if stored == [] && Trim(binding.task) != "" then [UserMessage(a.freshId, binding.task)] else stored;
      if !a.canSave then s
      else s.(children := s.children[binding.subagentId := Dedupe(Persist(start, e.kind), binding.task)],
              bindings := if e.kind.Finish? then s.bindings - {e.runId.value} else s.bindings)
  }

  function AfterDispatch(s: State, runId: RunId, a: Arrival): State {
    s.(conversation := if BelongsToRun(a.event, runId) then Persist(s.conversation, a.event.kind) else s.conversation,
       dispatched := s.dispatched + Dispatches(runId, a.event, a.hasDiff))
  }

  function Step(s: State, runId: RunId, a: Arrival): State {
    AfterDispatch(AfterChildEvent(AfterSessionEvent(s, runId, a), a), runId, a)
  }

  function StateAfter(s: State, runId: RunId, arrivals: seq<Arrival>): State {
    if arrivals == [] then s
    else Step(StateAfter(s, runId, arrivals[..|arrivals| - 1]), runId, arrivals[|arrivals| - 1])
  }

  // ---------------------------------------------------------------- when the pump ends

  predicate SawOwnTerminal(runId: RunId, arrivals: seq<Arrival>) {
    exists i :: 0 <= i < |arrivals| && IsOwnTerminal(runId, arrivals[i].event)
  }

  predicate Ends(s: State, runId: RunId, arrivals: seq<Arrival>) {
    SawOwnTerminal(runId, arrivals) && StateAfter(s, runId, arrivals).bindings == map[]
  }

  /** Whether the last terminal of the run was its finish. */
  predicate LastWasFinish(runId: RunId, arrivals: seq<Arrival>) {
    if arrivals == [] then false
    else
      var e := arrivals[|arrivals| - 1].event;
      if IsOwnTerminal(runId, e) then e.kind.Finish? else LastWasFinish(runId, arrivals[..|arrivals| - 1])
  }

  /** How many events the pump takes: up to the first after which it may end. */
  function Taken(s: State, runId: RunId, arrivals: seq<Arrival>): (n: nat)
    ensures n <= |arrivals|
    ensures n < |arrivals| ==> Ends(s, runId, arrivals[..n])
  {
    if arrivals == [] then 0
    else
      var n := |arrivals| - 1;
      var before := Taken(s, runId, arrivals[..n]);
      assert arrivals[..n][..before] == arrivals[..before];
      if before < n || Ends(s, runId, arrivals[..n]) then before else n + 1
  }

  // ---------------------------------------------------------------- the placeholder

  predicate AnyAssistant(messages: seq<Message>) {
    exists i :: 0 <= i < |messages| && messages[i].role.Assistant?
  }

  predicate Answered(conversation: seq<Message>, userId: string) {
    var at := IndexOf(conversation, userId);
    AnyAssistant(if at.Some? then conversation[at.value + 1..] else conversation)
  }

  const PLACEHOLDER_START := "Run "
  const PLACEHOLDER_END := " completed without assistant message."

  function Placeholder(id: string, runId: RunId): Message {
    Message(id, Assistant, [Text(PLACEHOLDER_START + runId + PLACEHOLDER_END)])
  }

  function Finalize(conversation: seq<Message>, runId: RunId, userId: string, wasFinish: bool, freshId: string): seq<Message> {
    if wasFinish && !Answered(conversation, userId) then conversation + [Placeholder(freshId, runId)] else conversation
  }

  predicate IsPlaceholder(m: Message) {
    m.role.Assistant? && |m.content| == 1 && m.content[0].Text?
    && "Run run-" <= m.content[0].text
    && |PLACEHOLDER_END| <= |m.content[0].text|
    && m.content[0].text[|m.content[0].text| - |PLACEHOLDER_END|..] == PLACEHOLDER_END
  }

  /** What is taken for a placeholder is exactly an assistant message that says so of some run whose id
      begins with "run-". */
  lemma {:induction false} PlaceholderIsKnownBy(m: Message)
    ensures IsPlaceholder(m) <==>
            m.role == Assistant && |m.content| == 1
            && exists rest :: m.content[0] == Text("Run run-" + rest + " completed without assistant message.")
  {
    if IsPlaceholder(m) {
      var rest := PlaceholderRest(m.content[0].text);
    }
    if |m.content| == 1 && m.content[0].Text? {
      forall rest | m.content[0] == Text("Run run-" + rest + " completed without assistant message.")
        ensures "Run run-" <= m.content[0].text && PLACEHOLDER_END <= m.content[0].text[|m.content[0].text| - |PLACEHOLDER_END|..]
      {
        assert m.content[0].text[8 + |rest|..] == PLACEHOLDER_END;
        assert m.content[0].text[..8] == "Run run-";
      }
    }
  }

  lemma {:induction false} PlaceholderRest(text: string) returns (rest: string)
    requires "Run run-" <= text && |PLACEHOLDER_END| <= |text| && text[|text| - |PLACEHOLDER_END|..] == PLACEHOLDER_END
    ensures text == "Run run-" + rest + " completed without assistant message."
  {
    var n := |text| - |PLACEHOLDER_END|;
    var end := text[n..];
    assert end[0] == text[n] && end[1] == text[n + 1];
    assert end[0] == ' ' && end[1] == 'c';
    assert text[..8] == "Run run-";
    assert text[0] == 'R' && text[1] == 'u' && text[2] == 'n' && text[4] == 'r' && text[5] == 'u' && text[6] == 'n' && text[7] == '-';
    rest := text[8..n];
    assert text == text[..8] + rest + text[n..];
  }

  function WithoutPlaceholders(conversation: seq<Message>): seq<Message> {
    if conversation == [] then []
    else
      var m := conversation[|conversation| - 1];
      WithoutPlaceholders(conversation[..|conversation| - 1]) + if IsPlaceholder(m) then [] else [m]
  }

  /** A message leaves if it is the placeholder, and stays in its place otherwise. */
  lemma {:induction false} OneMoreKept(conversation: seq<Message>, m: Message)
    ensures WithoutPlaceholders([]) == []
    ensures var isPlaceholder := exists rest ::
                  m.role == Assistant && m.content == [Text("Run run-" + rest + " completed without assistant message.")];
            WithoutPlaceholders(conversation + [m]) == WithoutPlaceholders(conversation) + if isPlaceholder then [] else [m]
  {
    PlaceholderIsKnownBy(m);
    assert (conversation + [m])[..|conversation|] == conversation;
  }

  // ---------------------------------------------------------------- the pump in place

  datatype SseOutcome = Sent | Gone | Stalled

  /** How many of the first `n` events the client got: all up to the first failed send. */
  function Reached(sse: nat -> SseOutcome, n: nat): (k: nat)
    ensures k <= n
    ensures forall i :: 0 <= i < k ==> sse(i).Sent?
    ensures k < n ==> !sse(k).Sent?
  {
    if n == 0 then 0
    else
      var k := Reached(sse, n - 1);
      if k == n - 1 && sse(n - 1).Sent? then n else k
  }

  class ReplyPump {
    const runId: RunId
    const session: Conversation
    var children: map<string, seq<Message>>
    var bindings: map<RunId, Binding>
    var dispatched: seq<Dispatched>
    var sseOpen: bool
    var sent: seq<Event>

    constructor (runId: RunId, session: Conversation, children: map<string, seq<Message>>)
      ensures this.runId == runId && this.session == session
      ensures View() == State(session.messages, children, map[], [])
      ensures sseOpen && sent == []
    {
      this.runId, this.session, this.children := runId, session, children;
      bindings, dispatched, sseOpen, sent := map[], [], true, [];
    }

    ghost function View(): State
      reads this, session
    {
      State(session.messages, children, bindings, dispatched)
    }

    /** The client has had the events up to its first failed send. */
    ghost predicate Streamed(sse: nat -> SseOutcome)
      reads this`dispatched, this`sseOpen, this`sent
    {
      var k := Reached(sse, |dispatched|);
      && (sseOpen <==> k == |dispatched|)
      && |sent| == k
      && forall i :: 0 <= i < k ==> sent[i] == dispatched[i].event
    }

    method PersistSubAgentSession(a: Arrival)
      modifies this`children, this`bindings
      ensures View() == AfterSessionEvent(old(View()), runId, a)
    {
      hide Trim, IsTerminalStatus, ChildConversation;
      match a.event.kind {
        case SubAgentSession(Some(p)) =>
          if !BelongsToRun(a.event, runId) || p.subagentId.None? || p.childRunId.None? {
            return;
          }
          var messages := p.messages;
          if messages == [] && Trim(p.task) != "" {
            messages := [UserMessage(a.freshId, p.task)];
          }
          if IsTerminalStatus(p.status) {
            bindings := bindings - {p.childRunId.value};
          } else {
            bindings := bindings[p.childRunId.value := Binding(p.subagentId.value, p.task)];
          }
          if !a.canLoad {
            return;
          }
          var conversation := ChildConversation(children, p.subagentId.value);
          if messages != [] {
            conversation := messages;
          }
          if a.canSave {
            children := children[p.subagentId.value := conversation];
          }
        case _ =>
      }
    }

    method PersistChildRunEvent(a: Arrival)
      modifies this`children, this`bindings
      ensures View() == AfterChildEvent(old(View()), a)
    {
      hide Dedupe, Persist, Trim;
      var e := a.event;
      if e.runId.None? || e.runId.value !in bindings || !ChangesChild(e.kind) || !a.canLoad {
        return;
      }
      var binding := bindings[e.runId.value];
      var child := new Conversation(ChildConversation(children, binding.subagentId));
      if child.messages == [] && Trim(binding.task) != "" {
        child.messages := [UserMessage(a.freshId, binding.task)];
      }
      child.PersistCoreEvent(e.kind);
      DedupeUserMessageText(child, binding.task);
      if !a.canSave {
        return;
      }
      children := children[binding.subagentId := child.messages];
      if e.kind.Finish? {
        bindings := bindings - {e.runId.value};
      }
    }

    /** Folds the event into the session and says what goes out for it. */
    method PrepareDispatch(a: Arrival) returns (events: seq<Dispatched>)
      modifies session
      ensures session.messages == if BelongsToRun(a.event, runId) then Persist(old(session.messages), a.event.kind)
                                  else old(session.messages)
      ensures events == Dispatches(runId, a.event, a.hasDiff)
    {
      var target := if a.event.runId.Some? then a.event.runId.value else runId;
      var own := BelongsToRun(a.event, runId);
      if own {
        session.PersistCoreEvent(a.event.kind);
      }
      var e := a.event;
      events := [];
      if own && IsTerminal(e) && a.hasDiff {
        events := [Dispatched(runId, DiffEvent(runId, SeqOf(e)))];
        e := e.(seqNo := Some(NextSeq(e)));
      }
      events := events + [Dispatched(target, e)];
    }

    /** One event goes to its log, and to the client if it is still there. */
    method Dispatch(d: Dispatched, sse: nat -> SseOutcome)
      requires Streamed(sse)
      modifies this`dispatched, this`sseOpen, this`sent
      ensures Streamed(sse) && dispatched == old(dispatched) + [d]
    {
      var n := |dispatched|;
      dispatched := dispatched + [d];
      if sseOpen {
        if sse(n).Sent? {
          sent := sent + [d.event];
        } else {
          sseOpen := false;
        }
      }
    }

    method Take(a: Arrival, sse: nat -> SseOutcome)
      requires Streamed(sse)
      modifies this, session
      ensures Streamed(sse) && View() == Step(old(View()), runId, a)
    {
      hide AfterSessionEvent, AfterChildEvent, Persist, Streamed, Dispatches;
      PersistSubAgentSession(a);
      PersistChildRunEvent(a);
      ghost var before := dispatched;
      var events := PrepareDispatch(a);
      for i := 0 to |events|
        invariant Streamed(sse) && dispatched == before + events[..i]
        modifies this`dispatched, this`sseOpen, this`sent
      {
        Dispatch(events[i], sse);
      }
      assert events[..|events|] == events;
    }

    /** Takes events until its own test ends it or the channel closes, then closes the session. The
        client's fate shows in `sent` and nowhere else. */
    method Run(user: Message, arrivals: seq<Arrival>, sse: nat -> SseOutcome, freshId: string) returns (taken: nat)
      requires sseOpen && sent == [] && dispatched == [] && bindings == map[]
      modifies this, session
      ensures var start := State(old(session.messages) + [user], old(children), map[], []);
              taken == Taken(start, runId, arrivals)
              && var end := StateAfter(start, runId, arrivals[..taken]);
              && session.messages
                 == Finalize(end.conversation, runId, user.id, LastWasFinish(runId, arrivals[..taken]), freshId)
              && children == end.children && bindings == end.bindings && dispatched == end.dispatched
      ensures Streamed(sse)
    {
      hide Step, Streamed, IsOwnTerminal;
      session.messages := session.messages + [user];
      var wasFinish, terminalSeen := false, false;
      ghost var start := View();
      assert Streamed(sse) by { NothingStreamed(sse); }
      taken := 0;
      while taken < |arrivals|
        invariant taken <= |arrivals| && taken == Taken(start, runId, arrivals[..taken])
        invariant View() == StateAfter(start, runId, arrivals[..taken])
        invariant terminalSeen <==> SawOwnTerminal(runId, arrivals[..taken])
        invariant wasFinish <==> LastWasFinish(runId, arrivals[..taken])
        invariant taken > 0 ==> !Ends(start, runId, arrivals[..taken])
        invariant Streamed(sse)
      {
        var a := arrivals[taken];
        OneMoreArrival(start, runId, arrivals, taken);
        Take(a, sse);
        if IsOwnTerminal(runId, a.event) {
          wasFinish := a.event.kind.Finish?;
          terminalSeen := true;
        }
        taken := taken + 1;
        if terminalSeen && bindings == map[] {
          break;
        }
      }
      TakenStops(start, runId, arrivals, taken);
      FinalizeSession(user.id, wasFinish, freshId);
    }

    lemma NothingStreamed(sse: nat -> SseOutcome)
      requires sseOpen && sent == [] && dispatched == []
      ensures Streamed(sse)
    {
    }

    /** Adds the placeholder when a finished run left the user without an answer. */
    method FinalizeSession(userId: string, wasFinish: bool, freshId: string)
      modifies session
      ensures session.messages == Finalize(old(session.messages), runId, userId, wasFinish, freshId)
    {
      if wasFinish {
        var at := session.Find(userId);
        var from := if at.Some? then at.value + 1 else 0;
        for i := from to |session.messages|
          invariant session.messages == old(session.messages)
          invariant forall k :: from <= k < i ==> !session.messages[k].role.Assistant?
        {
          if session.messages[i].role.Assistant? {
            assert AnyAssistant(session.messages[from..]) by {
              assert session.messages[from..][i - from].role.Assistant?;
            }
            assert at.None? ==> session.messages[0..] == session.messages;
            return;
          }
        }
        session.messages := session.messages + [Placeholder(freshId, runId)];
      }
    }
  }

  lemma OneMoreArrival(s: State, runId: RunId, arrivals: seq<Arrival>, k: nat)
    requires k < |arrivals|
    ensures StateAfter(s, runId, arrivals[..k + 1]) == Step(StateAfter(s, runId, arrivals[..k]), runId, arrivals[k])
    ensures SawOwnTerminal(runId, arrivals[..k + 1])
            <==> SawOwnTerminal(runId, arrivals[..k]) || IsOwnTerminal(runId, arrivals[k].event)
    ensures LastWasFinish(runId, arrivals[..k + 1])
            <==> if IsOwnTerminal(runId, arrivals[k].event) then arrivals[k].event.kind.Finish?
                 else LastWasFinish(runId, arrivals[..k])
    ensures Taken(s, runId, arrivals[..k + 1])
            == if Taken(s, runId, arrivals[..k]) < k || (k > 0 && Ends(s, runId, arrivals[..k]))
               then Taken(s, runId, arrivals[..k]) else k + 1
  {
    hide IsOwnTerminal, Step;
    assert arrivals[..k + 1][..k] == arrivals[..k] && arrivals[..k + 1][k] == arrivals[k];
    assert forall i :: 0 <= i < k ==> arrivals[..k + 1][i] == arrivals[..k][i];
    NeverEndsAtOnce(s, runId);
  }

  lemma NeverEndsAtOnce(s: State, runId: RunId)
    ensures !Ends(s, runId, [])
  {
  }

  /** Once the pump has ended, what still waits in its channel makes no difference. */
  lemma {:induction false} TakenStops(s: State, runId: RunId, arrivals: seq<Arrival>, k: nat)
    requires k <= |arrivals| && Taken(s, runId, arrivals[..k]) == k
    requires k == |arrivals| || (k > 0 && Ends(s, runId, arrivals[..k]))
    ensures Taken(s, runId, arrivals) == k
    decreases |arrivals|
  {
    hide Ends;
    if k == |arrivals| {
      assert arrivals[..k] == arrivals;
    } else {
      var n := |arrivals| - 1;
      assert arrivals[..n][..k] == arrivals[..k];
      TakenStops(s, runId, arrivals[..n], k) by {
        if k == n {
          assert arrivals[..n] == arrivals[..k];
        }
      }
      if k == n {
        assert arrivals[..n] == arrivals[..k];
      }
    }
  }

  /** The retain pass over a session before its next reply. */
  method RemoveNoReplyPlaceholders(session: Conversation)
    modifies session
    ensures session.messages == WithoutPlaceholders(old(session.messages))
  {
    hide IsPlaceholder;
    var conversation := session.messages;
    var kept: seq<Message> := [];
    for i := 0 to |conversation|
      invariant kept == WithoutPlaceholders(conversation[..i]) && session.messages == conversation
    {
      assert conversation[..i + 1][..i] == conversation[..i];
      if !IsPlaceholder(conversation[i]) {
        kept := kept + [conversation[i]];
      }
    }
    assert conversation[..|conversation|] == conversation;
    session.messages := kept;
  }
}
