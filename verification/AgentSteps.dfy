/** What the steps of an agent run do, told by the run's surroundings: when an attempt is made again, what
    each tool call is answered with, when a turn ends the run, and how the run ends. */
module AgentSteps {
  import opened Wrappers
  import opened Events
  import opened Text
  import opened ProviderTurns
  import opened RunPieces
  import L = TaskLists
  import opened TaskParsers
  import opened AgentLoop

  // ---------------------------------------------------------------- attempts

  /** Attempt `i` broke down in a way that the provider marks as passing, and nobody has cancelled. */
  predicate FailsForNow(env: Env, i: nat) {
    && !env.cancelledAfter(i)
    && (env.provider(i) == NoStream(true)
        || (env.provider(i).Stream? && StreamError(env.provider(i).items) == Some(ProviderFailure(true))))
  }

  lemma {:induction false} RetriedForNow(env: Env, i: nat)
    ensures IsRetried(env, i) <==> FailsForNow(env, i)
  {
    hide StreamError;
  }

  /** Another attempt is made exactly after one that fails for now, as long as fewer were repeated than
      are allowed: at most five, none unless the run asks for them. */
  lemma {:induction false} RepeatedExactlyWhen(env: Env, from: nat, n: nat)
    requires 1 <= n <= AttemptsMade(env, from, ClampRequestRetries(env.requestRetries))
    ensures var made := AttemptsMade(env, from, ClampRequestRetries(env.requestRetries));
            var allowed := if env.requestRetries.None? then 0 else if env.requestRetries.value > 5 then 5 else env.requestRetries.value;
            n < made <==> FailsForNow(env, from + n - 1) && n <= allowed
  {
    hide AttemptsMade, FailsForNow, IsRetried;
    var allowed := ClampRequestRetries(env.requestRetries);
    var made := AttemptsMade(env, from, allowed);
    RetriedForNow(env, from + n - 1);
    if n < made {
      assert IsRetried(env, from + n - 1);
    }
  }

  // ---------------------------------------------------------------- tool calls

  datatype Call = Call(id: string, name: string, arguments: string)

  function CallsIn(content: seq<ContentBlock>): seq<Call> {
    if content == [] then []
    else
      var before := CallsIn(content[..|content| - 1]);
      match content[|content| - 1]
      case ToolRequest(id, name, arguments) => before + [Call(id, name, arguments)]
      case _ => before
  }

  function CallsOf(messages: seq<Message>): seq<Call> {
    if messages == [] then [] else CallsOf(messages[..|messages| - 1]) + CallsIn(messages[|messages| - 1].content)
  }

  function BlocksOf(messages: seq<Message>): seq<ContentBlock> {
    if messages == [] then [] else BlocksOf(messages[..|messages| - 1]) + messages[|messages| - 1].content
  }

  /** The task list after these calls: only a change that succeeds changes it. */
  function ListAfter(env: Env, list: L.TaskList, calls: seq<Call>): L.TaskList {
    if calls == [] then list
    else
      var before := ListAfter(env, list, calls[..|calls| - 1]);
      var call := calls[|calls| - 1];
      match env.taskCall(call.name, call.arguments)
      case Some(Change(op)) => if L.Outcome(before, op).Ok? then L.Outcome(before, op).value else before
      case _ => before
  }

  /** The answer that a call deserves as the run's `number`th, when the task list stands as it does. */
  predicate IsAnswer(env: Env, number: nat, list: L.TaskList, call: Call, answer: ContentBlock) {
    match env.taskCall(call.name, call.arguments)
    case None =>
      var given := env.tool(number, call.name, call.arguments);
      answer == ToolResponse(call.id, given.content, given.isError)
    case Some(ShowList) => answer == ToolResponse(call.id, L.Markdown(list), false)
    case Some(Change(op)) =>
      match L.Outcome(list, op)
      case Ok(after) => answer == ToolResponse(call.id, L.Markdown(after), false)
      case Err(error) => answer == ToolResponse(call.id, env.describe(error), true)
  }

  lemma {:induction false} OneCallIsAnswered(env: Env, w: Work, call: Call)
    ensures var (done, answer) := ToolRun(env, w, call.id, call.name, call.arguments);
            && IsAnswer(env, w.ran, w.list, call, answer)
            && done.list == ListAfter(env, w.list, [call]) && done.ran == w.ran + 1
  {
    hide NoticeKinds, L.Markdown, L.Outcome, TaskListMessage;
    assert [call][..0] == [];
  }

  lemma {:induction false} ListAfterConcat(env: Env, list: L.TaskList, a: seq<Call>, b: seq<Call>)
    ensures ListAfter(env, list, a + b) == ListAfter(env, ListAfter(env, list, a), b)
  {
    hide L.Outcome;
    if b == [] {
      assert a + b == a;
    } else {
      assert (a + b)[..|a + b| - 1] == a + b[..|b| - 1];
      ListAfterConcat(env, list, a, b[..|b| - 1]);
    }
  }

  /** Each of these calls has its answer in its place. */
  predicate AreAnswered(env: Env, w: Work, calls: seq<Call>, answers: seq<ContentBlock>) {
    && |answers| == |calls|
    && forall k :: 0 <= k < |calls| ==> IsAnswer(env, w.ran + k, ListAfter(env, w.list, calls[..k]), calls[k], answers[k])
  }

  lemma {:induction false} AnsweredConcat(env: Env, w: Work, a: seq<Call>, b: seq<Call>, x: seq<ContentBlock>, y: seq<ContentBlock>, mid: Work)
    requires AreAnswered(env, w, a, x) && AreAnswered(env, mid, b, y)
    requires mid.ran == w.ran + |a| && mid.list == ListAfter(env, w.list, a)
    ensures AreAnswered(env, w, a + b, x + y)
  {
    hide IsAnswer, ListAfter;
    forall k | 0 <= k < |a + b|
      ensures IsAnswer(env, w.ran + k, ListAfter(env, w.list, (a + b)[..k]), (a + b)[k], (x + y)[k])
    {
      if k < |a| {
        assert (a + b)[..k] == a[..k];
      } else {
        assert (a + b)[..k] == a + b[..k - |a|];
        ListAfterConcat(env, w.list, a, b[..k - |a|]);
      }
    }
  }

  lemma {:induction false} MessageIsAnswered(env: Env, w: Work, content: seq<ContentBlock>)
    ensures var (done, answers) := Answers(env, w, content);
            && AreAnswered(env, w, CallsIn(content), answers)
            && done.list == ListAfter(env, w.list, CallsIn(content)) && done.ran == w.ran + |CallsIn(content)|
  {
    hide ToolRun, IsAnswer, ListAfter;
    if content == [] {
      NoCalls(env, w.list);
    } else {
      var n := |content| - 1;
      var (soFar, before) := Answers(env, w, content[..n]);
      var calls := CallsIn(content[..n]);
      MessageIsAnswered(env, w, content[..n]);
      match content[n] {
        case ToolRequest(id, name, arguments) =>
          var call := Call(id, name, arguments);
          OneCallIsAnswered(env, soFar, call);
          NoCalls(env, soFar.list);
          var answer := ToolRun(env, soFar, id, name, arguments).1;
          assert [call][..0] == [];
          assert AreAnswered(env, soFar, [call], [answer]);
          AnsweredConcat(env, w, calls, [call], before, [answer], soFar);
          ListAfterConcat(env, w.list, calls, [call]);
        case _ =>
      }
    }
  }

  lemma {:induction false} NoCalls(env: Env, list: L.TaskList)
    ensures ListAfter(env, list, []) == list
  {
  }

  /** The k-th call of a turn is answered by the k-th response: a tool's with the result the tool gave it,
      a task-list tool's with the list as the call leaves it, or with its error and no change. */
  lemma {:induction false} TurnIsAnsweredInFull(env: Env, w: Work, turn: seq<Message>)
    ensures var (done, executed) := Executed(env, w, turn);
            && AreAnswered(env, w, CallsOf(turn), BlocksOf(executed))
            && done.list == ListAfter(env, w.list, CallsOf(turn)) && done.ran == w.ran + |CallsOf(turn)|
  {
    hide Answers, IsAnswer, ListAfter, CallsIn;
    if turn == [] {
      NoCalls(env, w.list);
    } else {
      var n := |turn| - 1;
      var (soFar, before) := Executed(env, w, turn[..n]);
      var m := turn[n];
      var answers := Answers(env, soFar, m.content).1;
      TurnIsAnsweredInFull(env, w, turn[..n]);
      MessageIsAnswered(env, soFar, m.content);
      AnsweredConcat(env, w, CallsOf(turn[..n]), CallsIn(m.content), BlocksOf(before), answers, soFar);
      ListAfterConcat(env, w.list, CallsOf(turn[..n]), CallsIn(m.content));
      var more := before + [ResponseMessage(m, |before|, answers)];
      assert more[..|before|] == before;
      assert BlocksOf(before) + [] == BlocksOf(before);
    }
  }

  /** What a call sends: what comes before its result, then, if it shows a list, that list as one whole
      message under an id made of run and call, then what comes after. */
  lemma {:induction false} CallSends(env: Env, w: Work, call: Call)
    ensures var (done, answer) := ToolRun(env, w, call.id, call.name, call.arguments);
            var given := env.tool(w.ran, call.name, call.arguments);
            var shows := env.taskCall(call.name, call.arguments).Some? && answer.ToolResponse? && !answer.isError;
            var shown := Message(env.runId + "-" + call.id + "-task-list", Assistant, [Text(L.Markdown(done.list))]);
            && done.sent == w.sent + NoticeKinds(given.before)
                            + (if shows then [MessageSent(Some(shown))] else []) + NoticeKinds(given.after)
            && done.pieces == w.pieces + (if shows then [Listed(shown)] else [])
  {
    hide NoticeKinds, L.Markdown, L.Outcome;
    assert w.sent + NoticeKinds(env.tool(w.ran, call.name, call.arguments).before) + []
           == w.sent + NoticeKinds(env.tool(w.ran, call.name, call.arguments).before);
  }

  // ---------------------------------------------------------------- the end of a turn

  /** The turn asks for a tool in one of its snapshots. */
  predicate AsksForTools(snapshots: seq<Message>) {
    exists i, j :: 0 <= i < |snapshots| && 0 <= j < |snapshots[i].content| && snapshots[i].content[j].ToolRequest?
  }

  /** The list has a task that is not completed, and no report. */
  predicate IsUnfinished(list: L.TaskList) {
    list.report == None && exists i :: 0 <= i < |list.items| && list.items[i].status in {L.Pending, L.InProgress}
  }

  /** An assistant message of the turn shows a task list with open tasks and no report. */
  predicate ShowsUnfinished(turn: seq<Message>) {
    exists i :: 0 <= i < |turn| && turn[i].role == Assistant
                && WorkflowState(TextContent(turn[i])) == Some(TaskWorkflowState(true, false))
  }

  lemma {:induction false} RequestsAreAsked(snapshots: seq<Message>)
    ensures AnyToolRequest(snapshots) <==> AsksForTools(snapshots)
  {
    if AnyToolRequest(snapshots) {
      var i :| 0 <= i < |snapshots| && HasToolRequest(snapshots[i]);
      var j :| 0 <= j < |snapshots[i].content| && snapshots[i].content[j].ToolRequest?;
    }
    if AsksForTools(snapshots) {
      var i, j :| 0 <= i < |snapshots| && 0 <= j < |snapshots[i].content| && snapshots[i].content[j].ToolRequest?;
      assert HasToolRequest(snapshots[i]);
    }
  }

  lemma {:induction false} UnfinishedIsOpen(list: L.TaskList)
    ensures L.HasOpenTasks(list) <==> IsUnfinished(list)
  {
  }

  lemma {:induction false} ShownIsUnfinished(turn: seq<Message>)
    ensures ShowsWorkLeft(turn) <==> ShowsUnfinished(turn)
  {
    hide WorkflowState, TextContent;
  }

  /** A turn of a run that goes on: it is not begun once the run is cancelled; it fails with the last
      attempt's error; a turn that brings nothing is an error if it should have followed tools and ends
      the run otherwise; one that brings messages ends the run exactly when it asks for no tool, shows no
      unfinished list and leaves none behind. */
  lemma {:induction false} TurnEndsExactlyWhen(env: Env, l: Loop, number: nat)
    requires l.progress.Going?
    ensures var next := TurnStep(env, l, number);
            var last := AttemptResult(env.provider(AfterTurnAttempts(env, l).attempts - 1));
            if env.cancelledBefore(number) then next == l.(progress := Broken(RunCancelled))
            else if last.Err? then next.progress == Broken(TurnFailed(last.error)) && next.rounds == l.rounds
            else if last.value.messages == [] then
              next.progress == (if l.awaitingFollowup then Broken(NoReplyToTools) else Stopped) && next.rounds == l.rounds
            else
              && |next.rounds| == |l.rounds| + 1 && next.rounds[|l.rounds|].turn == last.value.messages
              && (next.progress == Stopped
                  <==> !last.value.hasToolRequests && !ShowsUnfinished(last.value.messages) && !IsUnfinished(next.work.list))
              && (next.progress == Going || next.progress == Stopped)
              && (next.awaitingFollowup <==> last.value.hasToolRequests)
              && next.messages == l.messages + last.value.messages + next.rounds[|l.rounds|].executed
                                  + (if next.progress == Going && !last.value.hasToolRequests
                                     then [Message(env.runId + "-task-workflow-continue-" + Decimal(number), User, [Text(env.continueText)])]
                                     else [])
  {
    hide AttemptResult, AttemptsMade, AfterAttempts, Executed, ShowsWorkLeft, L.HasOpenTasks, ClampRequestRetries, Decimal, IsUnfinished,
      ShowsUnfinished;
    var next := TurnStep(env, l, number);
    var last := AttemptResult(env.provider(AfterTurnAttempts(env, l).attempts - 1));
    if !env.cancelledBefore(number) && last.Ok? && last.value.messages != [] {
      ShownIsUnfinished(last.value.messages);
      UnfinishedIsOpen(next.work.list);
    }
  }

  /** The flag of a turn: whether one of the snapshots it took in asks for a tool. */
  lemma {:induction false} FlagTellsOfTools(attempt: Attempt)
    requires AttemptResult(attempt).Ok?
    ensures attempt.Stream?
    ensures AttemptResult(attempt).value.hasToolRequests <==> AsksForTools(SeenSnapshots(attempt.items))
    ensures AttemptResult(attempt).value.messages == LastSnapshots(SeenSnapshots(attempt.items))
  {
    hide StreamError, SeenSnapshots, LastSnapshots, AsksForTools, AnyToolRequest;
    RequestsAreAsked(SeenSnapshots(attempt.items));
  }

  // ---------------------------------------------------------------- the end of a run

  /** A run ends as an error exactly when it broke down for another reason than a cancel: a turn that
      failed for good, or one that said nothing to the results of its tools. It ends with what it produced
      exactly when it did not break down, and with an empty finish when it was cancelled. */
  lemma {:induction false} EndsExactlyWhen(env: Env)
    ensures var progress := RunEnd(env).progress;
            && (Ending(env) == Error <==>
                  !env.cancelledAtEnd
                  && (progress == Broken(NoReplyToTools)
                      || exists retryable :: progress == Broken(TurnFailed(ProviderFailure(retryable)))))
            && (progress == Going || progress == Stopped ==> Ending(env) == Finish(RunEnd(env).finalMessages))
            && (progress == Broken(RunCancelled) || progress == Broken(TurnFailed(CancelledTurn))
                || (progress.Broken? && env.cancelledAtEnd)
                ==> Ending(env) == Finish([]))
  {
    hide RunEnd;
    var progress := RunEnd(env).progress;
    if progress.Broken? && progress.error.TurnFailed? && progress.error.error.ProviderFailure? {
      assert progress == Broken(TurnFailed(ProviderFailure(progress.error.error.retryable)));
    }
  }

  /** What a run sends ends with its ending, behind the notices that close it. */
  lemma {:induction false} EndingIsLast(env: Env)
    ensures var kinds := ReplyKinds(env);
            && kinds != [] && kinds[|kinds| - 1] == Ending(env)
            && kinds[..|kinds| - 1] == RunEnd(env).work.sent + NoticeKinds(env.closing)
  {
    hide RunEnd, NoticeKinds, Ending;
  }

  /** A run starts from the session and the user's input, with no list and nothing done. */
  lemma {:induction false} StartsWithInput(env: Env)
    ensures AfterTurns(env, 0).messages == env.initial + [Message(env.runId + "-input", User, [Text(env.inputText)])]
    ensures AfterTurns(env, 0).work.list == L.TaskList([], None) && AfterTurns(env, 0).finalMessages == []
    ensures AfterTurns(env, 0).progress == Going && AfterTurns(env, 0).work.sent == NoticeKinds(env.opening)
    ensures RunEnd(env) == AfterTurns(env, if env.maxTurns == 0 then 1 else env.maxTurns)
  {
    hide TurnStep;
  }
}
