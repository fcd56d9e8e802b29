/** An agent run inside agent-core: provider turns with retries, the tools each turn asks for, the
    task list they work on, what of the history becomes the run's result, and every event that is
    sent on the way. */
module AgentLoop {
  import opened Wrappers
  import opened Events
  import opened Text
  import opened ProviderTurns
  import opened RunPieces
  import L = TaskLists
  import opened TaskParsers

  const MAX_REQUEST_RETRIES := 5

  // ---------------------------------------------------------------- what the run depends on

  /** One attempt at a provider turn: a stream, or a failure to get one. An attempt that is not done in
      time is a stream that breaks off with a failure worth a retry. */
  datatype Attempt = Stream(items: seq<StreamItem>) | NoStream(retryable: bool)

  /** An event that no stored conversation depends on: output of a hook, the start and the end of a
      tool, a permission request, a sub-agent's session. */
  datatype Notice = Named(name: string) | Session(payload: SessionPayload)

  /** A tool's result, with the notices sent before it is there and after. */
  datatype ToolResult = ToolResult(before: seq<Notice>, content: string, isError: bool, after: seq<Notice>)

  datatype TaskCall = ShowList | Change(op: L.Operation)

  /** A run's parameters and everything outside: the provider's attempts in the order they are made
      with the notices before each, the cancel flag when a turn begins and after an attempt, the tools'
      results in the order they are run, how a call of a task-list tool reads, and the notices before
      the first turn and after the last. */
  datatype Env = Env(
    runId: RunId,
    initial: seq<Message>,
    inputText: string,
    continueText: string,
    maxTurns: nat,
    requestRetries: Option<nat>,
    deltas: bool,
    provider: nat -> Attempt,
    attemptNotices: nat -> seq<Notice>,
    cancelledAfter: nat -> bool,
    cancelledBefore: nat -> bool,
    tool: (nat, string, string) -> ToolResult,
    taskCall: (string, string) -> Option<TaskCall>,
    describe: L.TaskError -> string,
    opening: seq<Notice>,
    closing: seq<Notice>,
    cancelledAtEnd: bool)

  datatype RunError = RunCancelled | TurnFailed(error: TurnError) | NoReplyToTools

  function ClampRequestRetries(value: Option<nat>): (n: nat)
    ensures n <= MAX_REQUEST_RETRIES
    ensures value.None? ==> n == 0
    ensures value.Some? ==> n <= value.value && (n == value.value || n == MAX_REQUEST_RETRIES)
  {
    if value.None? then 0 else if value.value < MAX_REQUEST_RETRIES then value.value else MAX_REQUEST_RETRIES
  }

  function TurnLimit(env: Env): (n: nat)
    ensures n >= 1
  {
    if env.maxTurns > 1 then env.maxTurns else 1
  }

  // ---------------------------------------------------------------- what a run leaves behind

  /** The run so far: how many tools were run, the task list, the kinds sent, and the same as pieces. */
  datatype Work = Work(ran: nat, list: L.TaskList, sent: seq<Kind>, pieces: seq<Piece>)

  function NoticeKind(n: Notice): Kind {
    match n
    case Named(name) => OtherKind(name)
    case Session(payload) => SubAgentSession(Some(payload))
  }

  function NoticeKinds(notices: seq<Notice>): (kinds: seq<Kind>)
    ensures |kinds| == |notices|
    ensures forall i :: 0 <= i < |kinds| ==> !IsStored(kinds[i])
  {
    if notices == [] then [] else NoticeKinds(notices[..|notices| - 1]) + [NoticeKind(notices[|notices| - 1])]
  }

  const RETRY_NOTICE := OtherKind("run_output")

  method SendKind(context: RunContext, kind: Kind, ghost before: seq<Event>, ghost from: U64, ghost sent: seq<Kind>)
    requires context.HasSent(before, from, sent)
    modifies context
    ensures context.HasSent(before, from, sent + [kind])
  {
    hide Numbered, Wrap;
    NumberedNoneOrOne(context.runId, context.nextSeq, kind);
    NumberedMore(context.runId, from, sent, [kind]);
    context.Send(kind);
  }

  method SendNotices(context: RunContext, notices: seq<Notice>, ghost before: seq<Event>, ghost from: U64, ghost sent: seq<Kind>)
    requires context.HasSent(before, from, sent)
    modifies context
    ensures context.HasSent(before, from, sent + NoticeKinds(notices))
  {
    hide Numbered, Wrap, NoticeKind;
    assert sent + [] == sent;
    for i := 0 to |notices|
      invariant context.HasSent(before, from, sent + NoticeKinds(notices[..i]))
    {
      assert notices[..i + 1][..i] == notices[..i];
      assert sent + NoticeKinds(notices[..i]) + [NoticeKind(notices[i])] == sent + NoticeKinds(notices[..i + 1]);
      SendKind(context, NoticeKind(notices[i]), before, from, sent + NoticeKinds(notices[..i]));
    }
    assert notices[..|notices|] == notices;
  }

  // ---------------------------------------------------------------- attempts and retries

  function AttemptResult(attempt: Attempt): Result<ProviderTurn, TurnError> {
    match attempt
    case Stream(items) =>
      (match StreamError(items)
       case Some(error) => Err(error)
       case None => Ok(ProviderTurn(LastSnapshots(SeenSnapshots(items)), AnyToolRequest(SeenSnapshots(items)))))
    case NoStream(retryable) => Err(ProviderFailure(retryable))
  }

  predicate IsRetryable(error: TurnError) {
    error.ProviderFailure? && error.retryable
  }

  /** Attempt `i` failed in a way that is tried again. */
  predicate IsRetried(env: Env, i: nat) {
    var result := AttemptResult(env.provider(i));
    result.Err? && !env.cancelledAfter(i) && IsRetryable(result.error)
  }

  /** The number of attempts made from attempt `from` on, when `left` retries are allowed. */
  function AttemptsMade(env: Env, from: nat, left: nat): (n: nat)
    ensures 1 <= n <= left + 1
    ensures forall i :: from <= i < from + n - 1 ==> IsRetried(env, i)
    ensures n <= left ==> !IsRetried(env, from + n - 1)
    decreases left
  {
    if left > 0 && IsRetried(env, from) then 1 + AttemptsMade(env, from + 1, left - 1) else 1
  }

  /** An attempt sends the events of the snapshots it has seen, whether it fails or not. */
  function Attempted(env: Env, w: Work, i: nat): Work {
    var noted := w.sent + NoticeKinds(env.attemptNotices(i));
    match env.provider(i)
    case Stream(items) =>
      var seen := SeenSnapshots(items);
      w.(sent := noted + TurnEvents(seen, env.deltas), pieces := w.pieces + [Streamed(seen)])
    case NoStream(_) => w.(sent := noted)
  }

  /** The attempts from `from` on, with a notice before every retry. */
  function AfterAttempts(env: Env, w: Work, from: nat, made: nat): Work {
    if made == 0 then w
    else
      var before := AfterAttempts(env, w, from, made - 1);
      Attempted(env, if made == 1 then before else before.(sent := before.sent + [RETRY_NOTICE]), from + made - 1)
  }

  function BeforeRetry(env: Env, w: Work, from: nat, made: nat): Work {
    if made == 0 then w
    else
      var done := AfterAttempts(env, w, from, made);
      done.(sent := done.sent + [RETRY_NOTICE])
  }

  lemma {:induction false} OneMoreAttempt(env: Env, w: Work, from: nat, made: nat, left: nat)
    ensures AfterAttempts(env, w, from, made + 1) == Attempted(env, BeforeRetry(env, w, from, made), from + made)
    ensures AttemptsMade(env, from + made, left)
            == if left > 0 && IsRetried(env, from + made) then 1 + AttemptsMade(env, from + made + 1, left - 1) else 1
  {
    hide Attempted, IsRetried;
  }

  method AttemptTurn(env: Env, context: RunContext, i: nat, ghost before: seq<Event>, ghost from: U64, ghost w: Work)
      returns (r: Result<ProviderTurn, TurnError>)
    requires context.HasSent(before, from, w.sent)
    modifies context
    ensures r == AttemptResult(env.provider(i))
    ensures context.HasSent(before, from, Attempted(env, w, i).sent)
  {
    hide Numbered, Wrap, StreamError, SeenSnapshots, LastSnapshots, AnyToolRequest, TurnEvents, NoticeKinds;
    SendNotices(context, env.attemptNotices(i), before, from, w.sent);
    match env.provider(i) {
      case Stream(items) =>
        NumberedMore(context.runId, from, w.sent + NoticeKinds(env.attemptNotices(i)), TurnEvents(SeenSnapshots(items), env.deltas));
        r := RunProviderTurn(context, items, env.deltas);
      case NoStream(retryable) =>
        r := Err(ProviderFailure(retryable));
    }
  }

  /** Makes attempts until one succeeds, fails for good, or the retries are used up; the last one
      decides. What every attempt has shown has been sent. */
  method RunProviderTurnWithRetries(env: Env, context: RunContext, first: nat, ghost before: seq<Event>, ghost from: U64, ghost w: Work)
      returns (r: Result<ProviderTurn, TurnError>, made: nat)
    requires context.HasSent(before, from, w.sent)
    modifies context
    ensures made == AttemptsMade(env, first, ClampRequestRetries(env.requestRetries))
    ensures r == AttemptResult(env.provider(first + made - 1))
    ensures context.HasSent(before, from, AfterAttempts(env, w, first, made).sent)
  {
    hide AttemptResult, Attempted, AfterAttempts, AttemptsMade, IsRetryable, RunContext.HasSent;
    var maxRetries := ClampRequestRetries(env.requestRetries);
    var retriesDone := 0;
    ghost var noted := w;
    while true
      invariant retriesDone <= maxRetries
      invariant AttemptsMade(env, first, maxRetries)
                == retriesDone + AttemptsMade(env, first + retriesDone, maxRetries - retriesDone)
      invariant noted == BeforeRetry(env, w, first, retriesDone)
      invariant context.HasSent(before, from, noted.sent)
      decreases maxRetries - retriesDone
    {
      var attempt := first + retriesDone;
      r := AttemptTurn(env, context, attempt, before, from, noted);
      made := retriesDone + 1;
      OneMoreAttempt(env, w, first, retriesDone, maxRetries - retriesDone);
      if r.Ok? || env.cancelledAfter(attempt) || retriesDone >= maxRetries || !IsRetryable(r.error) {
        return;
      }
      retriesDone := retriesDone + 1;
      noted := Attempted(env, noted, attempt);
      SendKind(context, RETRY_NOTICE, before, from, noted.sent);
      noted := noted.(sent := noted.sent + [RETRY_NOTICE]);
    }
  }

  // ---------------------------------------------------------------- tools

  function RequestIds(content: seq<ContentBlock>): seq<string> {
    if content == [] then []
    else
      var block := content[|content| - 1];
      RequestIds(content[..|content| - 1]) + if block.ToolRequest? then [block.id] else []
  }

  function TaskListMessage(runId: RunId, callId: string, markdown: string): Message {
    Message(runId + "-" + callId + "-task-list", Assistant, [Text(markdown)])
  }

  function CallOutcome(list: L.TaskList, call: TaskCall): Result<L.TaskList, L.TaskError> {
    match call
    case ShowList => Ok(list)
    case Change(op) => L.Outcome(list, op)
  }

  /** One tool run: a task-list tool works on the run's own list and shows it; any other has its result
      from outside. */
  function ToolRun(env: Env, w: Work, id: string, name: string, arguments: string): (Work, ContentBlock) {
    var call, given := env.taskCall(name, arguments), env.tool(w.ran, name, arguments);
    var before, after := NoticeKinds(given.before), NoticeKinds(given.after);
    if call.None? then
      (w.(ran := w.ran + 1, sent := w.sent + before + after), ToolResponse(id, given.content, given.isError))
    else
      var outcome := CallOutcome(w.list, call.value);
      if outcome.Err? then
        (w.(ran := w.ran + 1, sent := w.sent + before + after), ToolResponse(id, env.describe(outcome.error), true))
      else
        var markdown := L.Markdown(outcome.value);
        var shown := TaskListMessage(env.runId, id, markdown);
        (Work(w.ran + 1, outcome.value, w.sent + before + [MessageSent(Some(shown))] + after, w.pieces + [Listed(shown)]),
         ToolResponse(id, markdown, false))
  }

  /** The responses to a message's requests. */
  function Answers(env: Env, w: Work, content: seq<ContentBlock>): (Work, seq<ContentBlock>) {
    if content == [] then (w, [])
    else
      var (soFar, before) := Answers(env, w, content[..|content| - 1]);
      match content[|content| - 1]
      case ToolRequest(id, name, arguments) =>
        var (done, response) := ToolRun(env, soFar, id, name, arguments);
        (done, before + [response])
      case _ => (soFar, before)
  }

  function ResponseMessage(m: Message, number: nat, answers: seq<ContentBlock>): Message {
    Message(m.id + "-tool-response-" + Decimal(number), Tool, answers)
  }

  /** The tool messages of a turn. */
  function Executed(env: Env, w: Work, turn: seq<Message>): (Work, seq<Message>) {
    if turn == [] then (w, [])
    else
      var (soFar, before) := Executed(env, w, turn[..|turn| - 1]);
      var m := turn[|turn| - 1];
      var (done, answers) := Answers(env, soFar, m.content);
      (done, if answers == [] then before else before + [ResponseMessage(m, |before|, answers)])
  }

  method DoTaskCall(tasks: L.TaskListState, call: TaskCall) returns (r: Result<string, L.TaskError>)
    modifies tasks
    ensures var outcome := CallOutcome(old(tasks.View()), call);
            && r == (if outcome.Ok? then Ok(L.Markdown(outcome.value)) else Err(outcome.error))
            && tasks.View() == (if outcome.Ok? then outcome.value else old(tasks.View()))
  {
    hide L.Markdown, L.Outcome;
    match call {
      case ShowList =>
        var text := tasks.RenderMarkdown();
        return Ok(text);
      case Change(Create(given)) => r := tasks.CreateTasks(given);
      case Change(Update(a)) => r := tasks.UpdateTask(a);
      case Change(FinishTasks(report)) => r := tasks.FinishList(report);
    }
  }

  method RunTool(env: Env, context: RunContext, tasks: L.TaskListState, ran: nat, id: string, name: string, arguments: string,
                 ghost before: seq<Event>, ghost from: U64, ghost w: Work) returns (response: ContentBlock)
    requires context.HasSent(before, from, w.sent) && tasks.View() == w.list && ran == w.ran
    modifies context, tasks
    ensures var (done, answer) := ToolRun(env, w, id, name, arguments);
            context.HasSent(before, from, done.sent) && tasks.View() == done.list && done.ran == ran + 1 && response == answer
  {
    hide Numbered, Wrap, NoticeKinds, L.Markdown, TaskListMessage, CallOutcome, RunContext.HasSent;
    var call, given := env.taskCall(name, arguments), env.tool(ran, name, arguments);
    SendNotices(context, given.before, before, from, w.sent);
    ghost var sent := w.sent + NoticeKinds(given.before);
    if call.None? {
      response := ToolResponse(id, given.content, given.isError);
    } else {
      var r := DoTaskCall(tasks, call.value);
      if r.Err? {
        response := ToolResponse(id, env.describe(r.error), true);
      } else {
        SendKind(context, MessageSent(Some(TaskListMessage(env.runId, id, r.value))), before, from, sent);
        sent := sent + [MessageSent(Some(TaskListMessage(env.runId, id, r.value)))];
        response := ToolResponse(id, r.value, false);
      }
    }
    SendNotices(context, given.after, before, from, sent);
  }

  /** Runs a message's tools, request by request. */
  method AnswerRequests(env: Env, context: RunContext, tasks: L.TaskListState, ran: nat, content: seq<ContentBlock>,
                        ghost before: seq<Event>, ghost from: U64, ghost w: Work)
      returns (total: nat, blocks: seq<ContentBlock>)
    requires context.HasSent(before, from, w.sent) && tasks.View() == w.list && ran == w.ran
    modifies context, tasks
    ensures var (done, answers) := Answers(env, w, content);
            context.HasSent(before, from, done.sent) && tasks.View() == done.list && total == done.ran && blocks == answers
  {
    hide ToolRun, RunContext.HasSent;
    total, blocks := ran, [];
    for j := 0 to |content|
      invariant var (done, answers) := Answers(env, w, content[..j]);
                context.HasSent(before, from, done.sent) && tasks.View() == done.list && total == done.ran && blocks == answers
    {
      assert content[..j + 1][..j] == content[..j] && content[..j + 1][j] == content[j];
      match content[j] {
        case ToolRequest(id, name, arguments) =>
          var response := RunTool(env, context, tasks, total, id, name, arguments, before, from, Answers(env, w, content[..j]).0);
          total, blocks := total + 1, blocks + [response];
        case _ =>
      }
    }
    assert content[..|content|] == content;
  }

  /** Runs a turn's tools, message by message. */
  method ExecuteTurnTools(env: Env, context: RunContext, tasks: L.TaskListState, ran: nat, turn: seq<Message>,
                          ghost before: seq<Event>, ghost from: U64, ghost w: Work)
      returns (total: nat, executed: seq<Message>)
    requires context.HasSent(before, from, w.sent) && tasks.View() == w.list && ran == w.ran
    modifies context, tasks
    ensures var (done, messages) := Executed(env, w, turn);
            context.HasSent(before, from, done.sent) && tasks.View() == done.list && total == done.ran && executed == messages
  {
    hide Answers, ResponseMessage, RunContext.HasSent;
    total, executed := ran, [];
    for i := 0 to |turn|
      invariant var (done, messages) := Executed(env, w, turn[..i]);
                context.HasSent(before, from, done.sent) && tasks.View() == done.list && total == done.ran && executed == messages
    {
      assert turn[..i + 1][..i] == turn[..i] && turn[..i + 1][i] == turn[i];
      var m := turn[i];
      var more, blocks := AnswerRequests(env, context, tasks, total, m.content, before, from, Executed(env, w, turn[..i]).0);
      total := more;
      if blocks != [] {
        executed := executed + [ResponseMessage(m, |executed|, blocks)];
      }
    }
    assert turn[..|turn|] == turn;
  }

  function RequestsOf(messages: seq<Message>): seq<string> {
    if messages == [] then []
    else RequestsOf(messages[..|messages| - 1]) + RequestIds(messages[|messages| - 1].content)
  }

  function ResponseIds(content: seq<ContentBlock>): seq<string> {
    if content == [] then []
    else
      var block := content[|content| - 1];
      ResponseIds(content[..|content| - 1]) + if block.ToolResponse? then [block.id] else []
  }

  function ResponsesOf(messages: seq<Message>): seq<string> {
    if messages == [] then []
    else ResponsesOf(messages[..|messages| - 1]) + ResponseIds(messages[|messages| - 1].content)
  }

  lemma {:induction false} AnswersAnswer(env: Env, w: Work, content: seq<ContentBlock>)
    ensures var (done, answers) := Answers(env, w, content);
            && ResponseIds(answers) == RequestIds(content)
            && (forall i :: 0 <= i < |answers| ==> answers[i].ToolResponse?)
            && done.ran == w.ran + |answers|
  {
    hide ToolRun;
    if content != [] {
      var n := |content| - 1;
      AnswersAnswer(env, w, content[..n]);
      var (soFar, before) := Answers(env, w, content[..n]);
      match content[n] {
        case ToolRequest(id, name, arguments) =>
          ToolAnswers(env, soFar, id, name, arguments);
          OneMoreResponse(before, ToolRun(env, soFar, id, name, arguments).1);
        case _ =>
      }
    }
  }

  lemma {:induction false} ToolAnswers(env: Env, w: Work, id: string, name: string, arguments: string)
    ensures var (done, response) := ToolRun(env, w, id, name, arguments);
            done.ran == w.ran + 1 && response.ToolResponse? && response.id == id
  {
    hide NoticeKinds, L.Markdown, CallOutcome, TaskListMessage;
  }

  lemma {:induction false} OneMoreResponse(before: seq<ContentBlock>, response: ContentBlock)
    requires response.ToolResponse?
    ensures ResponseIds(before + [response]) == ResponseIds(before) + [response.id]
  {
    assert (before + [response])[..|before|] == before;
  }

  /** Every request of a turn is answered once, under its own id and in its place, and nothing else
      is answered. */
  lemma {:induction false} TurnIsAnswered(env: Env, w: Work, turn: seq<Message>)
    ensures var (done, executed) := Executed(env, w, turn);
            && ResponsesOf(executed) == RequestsOf(turn)
            && (forall i :: 0 <= i < |executed| ==> executed[i].role.Tool? && executed[i].content != [])
            && (forall i, j :: 0 <= i < |executed| && 0 <= j < |executed[i].content| ==> executed[i].content[j].ToolResponse?)
            && done.ran == w.ran + |RequestsOf(turn)|
            && |executed| <= |turn|
  {
    hide Answers, RequestIds, ResponseIds;
    if turn != [] {
      var n := |turn| - 1;
      TurnIsAnswered(env, w, turn[..n]);
      var (soFar, before) := Executed(env, w, turn[..n]);
      var answers := Answers(env, soFar, turn[n].content).1;
      AnswersAnswer(env, soFar, turn[n].content);
      AnswersCount(answers);
      var more := before + [ResponseMessage(turn[n], |before|, answers)];
      assert more[..|before|] == before;
      NoResponses();
    }
  }

  lemma {:induction false} NoResponses()
    ensures ResponseIds([]) == []
  {
  }

  lemma {:induction false} AnswersCount(answers: seq<ContentBlock>)
    requires forall i :: 0 <= i < |answers| ==> answers[i].ToolResponse?
    ensures |ResponseIds(answers)| == |answers|
  {
    if answers != [] {
      AnswersCount(answers[..|answers| - 1]);
    }
  }

  // ---------------------------------------------------------------- the turns of a run

  /** A turn that brought messages: what the provider said, what its tools answered, whether the run was
      told to go on with its tasks, and which piece of the run its stream is. */
  datatype Round = Round(turn: seq<Message>, executed: seq<Message>, hasToolRequests: bool, continued: bool, at: nat)

  datatype Progress = Going | Stopped | Broken(error: RunError)

  datatype Loop = Loop(
    messages: seq<Message>,
    finalMessages: seq<Message>,
    awaitingFollowup: bool,
    attempts: nat,
    work: Work,
    rounds: seq<Round>,
    progress: Progress)

  function InputMessage(env: Env): Message {
    Message(env.runId + "-input", User, [Text(env.inputText)])
  }

  function ContinueMessage(env: Env, turn: nat): Message {
    Message(env.runId + "-task-workflow-continue-" + Decimal(turn), User, [Text(env.continueText)])
  }

  /** Some message of the turn shows a task list with work left. */
  predicate ShowsWorkLeft(turn: seq<Message>) {
    exists i :: 0 <= i < |turn| && turn[i].role.Assistant? && ShowsOpenTasks(TextContent(turn[i]))
  }

  function AddRound(env: Env, l: Loop, number: nat, result: ProviderTurn): Loop {
    var (done, executed) := Executed(env, l.work, result.messages);
    var continued := !result.hasToolRequests && (ShowsWorkLeft(result.messages) || L.HasOpenTasks(done.list));
    var at := if l.work.pieces == [] then 0 else |l.work.pieces| - 1;
    Loop(l.messages + result.messages + executed + if continued then [ContinueMessage(env, number)] else [],
         l.finalMessages + result.messages + executed,
         result.hasToolRequests,
         l.attempts,
         done,
         l.rounds + [Round(result.messages, executed, result.hasToolRequests, continued, at)],
         if result.hasToolRequests || continued then Going else Stopped)
  }

  function AfterTurnAttempts(env: Env, l: Loop): (next: Loop)
    ensures next.attempts > l.attempts
  {
    var made := AttemptsMade(env, l.attempts, ClampRequestRetries(env.requestRetries));
    l.(attempts := l.attempts + made, work := AfterAttempts(env, l.work, l.attempts, made))
  }

  function TurnStep(env: Env, l: Loop, number: nat): Loop {
    if !l.progress.Going? then l
    else if env.cancelledBefore(number) then l.(progress := Broken(RunCancelled))
    else
      var next := AfterTurnAttempts(env, l);
      var result := AttemptResult(env.provider(next.attempts - 1));
      if result.Err? then next.(progress := Broken(TurnFailed(result.error)))
      else if result.value.messages == [] then
        next.(progress := if l.awaitingFollowup then Broken(NoReplyToTools) else Stopped)
      else AddRound(env, next, number, result.value)
  }

  function Start(env: Env): Loop {
    Loop(env.initial + [InputMessage(env)], [], false, 0,
         Work(0, L.TaskList([], None), NoticeKinds(env.opening), []), [], Going)
  }

  function AfterTurns(env: Env, n: nat): Loop {
    if n == 0 then Start(env) else TurnStep(env, AfterTurns(env, n - 1), n - 1)
  }

  function RunEnd(env: Env): Loop {
    AfterTurns(env, TurnLimit(env))
  }

  function RunResult(env: Env): Result<seq<Message>, RunError> {
    var end := RunEnd(env);
    if end.progress.Broken? then Err(end.progress.error) else Ok(end.finalMessages)
  }

  /** The run's last event: its finish, an empty one if it was cancelled, or its error. */
  function Ending(env: Env): Kind {
    match RunResult(env)
    case Ok(messages) => Finish(messages)
    case Err(error) =>
      if env.cancelledAtEnd || error == RunCancelled || error == TurnFailed(CancelledTurn) then Finish([]) else Error
  }

  /** All that a run sends. */
  function ReplyKinds(env: Env): seq<Kind> {
    RunEnd(env).work.sent + NoticeKinds(env.closing) + [Ending(env)]
  }

  lemma {:induction false} EndedStays(env: Env, n: nat, m: nat)
    requires n <= m && !AfterTurns(env, n).progress.Going?
    ensures AfterTurns(env, m) == AfterTurns(env, n)
    decreases m
  {
    hide AddRound, AttemptResult, AfterTurnAttempts;
    if n < m {
      EndedStays(env, n, m - 1);
    }
  }

  method AnyShowsWorkLeft(turn: seq<Message>) returns (found: bool)
    ensures found <==> ShowsWorkLeft(turn)
  {
    hide ShowsOpenTasks, TextContent;
    var i := |turn|;
    while i > 0
      invariant 0 <= i <= |turn|
      invariant forall k :: i <= k < |turn| ==> !(turn[k].role.Assistant? && ShowsOpenTasks(TextContent(turn[k])))
    {
      i := i - 1;
      if turn[i].role.Assistant? {
        var state := ReadWorkflowState(TextContent(turn[i]));
        WorkIsShown(TextContent(turn[i]));
        if state.Some? && state.value.hasOpenTasks && !state.value.hasReport {
          return true;
        }
      }
    }
    return false;
  }

  lemma {:induction false} WorkIsShown(text: string)
    ensures ShowsOpenTasks(text) <==>
            WorkflowState(text).Some? && WorkflowState(text).value.hasOpenTasks && !WorkflowState(text).value.hasReport
  {
    hide WorkflowState;
  }

  lemma {:induction false} StartIs(env: Env)
    ensures AfterTurns(env, 0) == Start(env)
  {
  }

  lemma {:induction false} NextTurn(env: Env, n: nat)
    requires n < TurnLimit(env)
    ensures AfterTurns(env, n + 1) == TurnStep(env, AfterTurns(env, n), n)
    ensures !AfterTurns(env, n + 1).progress.Going? ==> RunEnd(env) == AfterTurns(env, n + 1)
  {
    hide TurnStep, TurnLimit;
    if !AfterTurns(env, n + 1).progress.Going? {
      EndedStays(env, n + 1, TurnLimit(env));
    }
  }

  /** The run's loop: it stops by itself, fails, or uses up its turns. Everything it has shown, of
      attempts that failed too, has been sent by then. */
  method RunAgent(env: Env, context: RunContext, tasks: L.TaskListState, ghost before: seq<Event>, ghost from: U64)
      returns (r: Result<seq<Message>, RunError>, attempts: nat)
    requires tasks.View() == L.TaskList([], None) && context.HasSent(before, from, NoticeKinds(env.opening))
    modifies context, tasks
    ensures r == RunResult(env)
    ensures attempts == RunEnd(env).attempts
    ensures context.HasSent(before, from, RunEnd(env).work.sent) && tasks.View() == RunEnd(env).work.list
  {
    hide AttemptResult, AttemptsMade, AfterAttempts, Executed, ShowsWorkLeft, ClampRequestRetries, AddRound, AfterTurns, TurnLimit,
      InputMessage, ContinueMessage, RunContext.HasSent, NoticeKinds, L.HasOpenTasks;
    StartIs(env);
    var messages := env.initial + [InputMessage(env)];
    var finalMessages: seq<Message> := [];
    var awaitingFollowup := false;
    var ran := 0;
    attempts := 0;
    var limit := TurnLimit(env);
    for turn := 0 to limit
      invariant var l := AfterTurns(env, turn);
                && l.progress.Going?
                && l.messages == messages && l.finalMessages == finalMessages
                && l.awaitingFollowup == awaitingFollowup && l.attempts == attempts
                && l.work.ran == ran && tasks.View() == l.work.list && context.HasSent(before, from, l.work.sent)
    {
      ghost var l := AfterTurns(env, turn);
      NextTurn(env, turn);
      if env.cancelledBefore(turn) {
        return Err(RunCancelled), attempts;
      }
      var result, made := RunProviderTurnWithRetries(env, context, attempts, before, from, l.work);
      attempts := attempts + made;
      ghost var next := AfterTurnAttempts(env, l);
      AttemptsLeaveTasks(env, l.work, l.attempts, made);
      if result.Err? {
        return Err(TurnFailed(result.error)), attempts;
      }
      var turnMessages, hasToolRequests := result.value.messages, result.value.hasToolRequests;
      if turnMessages == [] {
        if awaitingFollowup {
          return Err(NoReplyToTools), attempts;
        }
        return Ok(finalMessages), attempts;
      }
      RoundAdded(env, next, turn, result.value);
      var total, executed := ExecuteTurnTools(env, context, tasks, ran, turnMessages, before, from, next.work);
      var showsWorkLeft := AnyShowsWorkLeft(turnMessages);
      var hasOpen := tasks.HasOpen();
      var shouldContinue := !hasToolRequests && (showsWorkLeft || hasOpen);
      messages := messages + turnMessages + executed;
      finalMessages := finalMessages + turnMessages + executed;
      ran := total;
      if !hasToolRequests {
        if shouldContinue {
          messages := messages + [ContinueMessage(env, turn)];
          awaitingFollowup := false;
          continue;
        }
        return Ok(finalMessages), attempts;
      }
      awaitingFollowup := true;
    }
    return Ok(finalMessages), attempts;
  }

  lemma {:induction false} AttemptsLeaveTasks(env: Env, w: Work, from: nat, made: nat)
    ensures AfterAttempts(env, w, from, made).list == w.list && AfterAttempts(env, w, from, made).ran == w.ran
  {
    hide NoticeKinds, TurnEvents, SeenSnapshots;
    if made > 0 {
      AttemptsLeaveTasks(env, w, from, made - 1);
    }
  }

  lemma {:induction false} RoundAdded(env: Env, l: Loop, number: nat, result: ProviderTurn)
    ensures var next := AddRound(env, l, number, result);
            var (done, executed) := Executed(env, l.work, result.messages);
            var continued := !result.hasToolRequests && (ShowsWorkLeft(result.messages) || L.HasOpenTasks(done.list));
            && next.messages == (if continued then l.messages + result.messages + executed + [ContinueMessage(env, number)]
                                 else l.messages + result.messages + executed)
            && next.finalMessages == l.finalMessages + result.messages + executed
            && next.awaitingFollowup == result.hasToolRequests && next.attempts == l.attempts && next.work == done
            && next.progress == if result.hasToolRequests || continued then Going else Stopped
  {
    hide Executed, ShowsWorkLeft, L.HasOpenTasks;
  }

  /** A whole reply: all that the run's own loop sends goes out, its ending last, and is numbered from 1
      when nothing sends beside it. `SharedCounter` says what holds when workers do. */
  method ReplyEvents(env: Env, context: RunContext, tasks: L.TaskListState) returns (r: Result<seq<Message>, RunError>)
    requires context.runId == env.runId && context.output == [] && context.nextSeq == 1 && tasks.View() == L.TaskList([], None)
    modifies context, tasks
    ensures r == RunResult(env)
    ensures context.output == Numbered(env.runId, 1, ReplyKinds(env))
  {
    hide Numbered, Wrap, NoticeKinds, RunEnd, RunContext.HasSent, Ending;
    NothingSentYet(context);
    SendNotices(context, env.opening, [], 1, []);
    assert [] + NoticeKinds(env.opening) == NoticeKinds(env.opening);
    var attempts;
    r, attempts := RunAgent(env, context, tasks, [], 1);
    ghost var sent := RunEnd(env).work.sent;
    SendNotices(context, env.closing, [], 1, sent);
    var ending := EndingOf(env, r);
    SendKind(context, ending, [], 1, sent + NoticeKinds(env.closing));
    WhatWasSent(context, ReplyKinds(env));
  }

  method EndingOf(env: Env, r: Result<seq<Message>, RunError>) returns (kind: Kind)
    requires r == RunResult(env)
    ensures kind == Ending(env)
  {
    hide RunResult;
    match r {
      case Ok(messages) => return Finish(messages);
      case Err(error) =>
        if env.cancelledAtEnd || error == RunCancelled || error == TurnFailed(CancelledTurn) {
          return Finish([]);
        }
        return Kind.Error;
    }
  }

  lemma {:induction false} NothingSentYet(context: RunContext)
    requires context.output == [] && context.nextSeq == 1
    ensures context.HasSent([], 1, [])
  {
  }

  lemma {:induction false} WhatWasSent(context: RunContext, kinds: seq<Kind>)
    requires context.HasSent([], 1, kinds)
    ensures context.output == Numbered(context.runId, 1, kinds)
  {
    hide Numbered;
  }
}
