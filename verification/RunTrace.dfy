/** What every run keeps of its own: the events it has sent are those of its pieces, its rounds are
    streams among them, and the ids it makes up never meet. */
module RunTrace {
  import opened Wrappers
  import opened Events
  import opened Text
  import opened Conversations
  import opened ProviderTurns
  import opened RunPieces
  import opened Codec
  import opened RunStorage
  import opened AgentLoop
  import opened AgentGuarantees
  import L = TaskLists

  // ---------------------------------------------------------------- events and pieces

  /** The events a conversation depends on are those of the pieces, and each task list shown is one. */
  predicate IsTrue(w: Work) {
    && Effective(w.sent) == RunKinds(w.pieces, true)
    && forall i :: 0 <= i < |w.pieces| && w.pieces[i].Listed? ==> IsListMessage(w.pieces[i].message)
  }

  lemma {:induction false} NoticesAreNothing(sent: seq<Kind>, notices: seq<Notice>)
    ensures Effective(sent + NoticeKinds(notices)) == Effective(sent)
  {
    hide Effective, NoticeKinds;
    EffectiveConcat(sent, NoticeKinds(notices));
    NoneEffective(NoticeKinds(notices));
  }

  lemma {:induction false} RetryIsNothing(sent: seq<Kind>)
    ensures Effective(sent + [RETRY_NOTICE]) == Effective(sent)
  {
    hide Effective;
    EffectiveConcat(sent, [RETRY_NOTICE]);
    NoneEffective([RETRY_NOTICE]);
  }

  lemma {:induction false} PieceIsSent(sent: seq<Kind>, p: Piece)
    ensures Effective(sent + PieceKinds(p, true)) == Effective(sent) + PieceKinds(p, true)
  {
    hide Effective, TurnEvents;
    EffectiveConcat(sent, PieceKinds(p, true));
    if p.Streamed? {
      TurnEventsAreStored(p.snapshots, true);
    }
    AllEffective(PieceKinds(p, true));
  }

  lemma {:induction false} AttemptIsTrue(env: Env, w: Work, i: nat)
    requires env.deltas && IsTrue(w)
    ensures IsTrue(Attempted(env, w, i)) && w.pieces <= Attempted(env, w, i).pieces
    ensures env.provider(i).Stream? ==>
              Attempted(env, w, i).pieces == w.pieces + [Streamed(SeenSnapshots(env.provider(i).items))]
  {
    hide Effective, RunKinds, TurnEvents, SeenSnapshots, NoticeKinds, IsListMessage;
    NoticesAreNothing(w.sent, env.attemptNotices(i));
    if env.provider(i).Stream? {
      var p := Streamed(SeenSnapshots(env.provider(i).items));
      PieceIsSent(w.sent + NoticeKinds(env.attemptNotices(i)), p);
      ShownGrows(w.pieces, p);
    }
  }

  lemma {:induction false} AttemptsAreTrue(env: Env, w: Work, from: nat, made: nat)
    requires env.deltas && IsTrue(w)
    ensures var done := AfterAttempts(env, w, from, made);
            && IsTrue(done) && w.pieces <= done.pieces
            && (made > 0 && env.provider(from + made - 1).Stream? ==>
                  |done.pieces| > |w.pieces|
                  && done.pieces[|done.pieces| - 1] == Streamed(SeenSnapshots(env.provider(from + made - 1).items)))
  {
    hide Attempted, Effective, RunKinds, IsListMessage, SeenSnapshots;
    if made > 0 {
      AttemptsAreTrue(env, w, from, made - 1);
      var before := AfterAttempts(env, w, from, made - 1);
      RetryIsNothing(before.sent);
      var noted := if made == 1 then before else before.(sent := before.sent + [RETRY_NOTICE]);
      AttemptIsTrue(env, noted, from + made - 1);
    }
  }

  lemma {:induction false} MarkdownIsNotEmpty(list: L.TaskList)
    ensures L.Markdown(list) != ""
  {
    hide L.ItemLines;
    var lines := L.MarkdownLines(list);
    assert lines[0] == L.LIST_HEADING && |lines| >= 2;
  }

  lemma {:induction false} ListIsAMessage(runId: RunId, callId: string, list: L.TaskList)
    ensures IsListMessage(TaskListMessage(runId, callId, L.Markdown(list)))
  {
    hide L.Markdown;
    MarkdownIsNotEmpty(list);
  }

  lemma {:induction false} ToolIsTrue(env: Env, w: Work, id: string, name: string, arguments: string)
    requires IsTrue(w)
    ensures var done := ToolRun(env, w, id, name, arguments).0; IsTrue(done) && w.pieces <= done.pieces
  {
    hide Effective, RunKinds, NoticeKinds, IsListMessage, L.Markdown, CallOutcome, TaskListMessage;
    var call, given := env.taskCall(name, arguments), env.tool(w.ran, name, arguments);
    var noted := w.sent + NoticeKinds(given.before);
    NoticesAreNothing(w.sent, given.before);
    if call.Some? && CallOutcome(w.list, call.value).Ok? {
      var list := CallOutcome(w.list, call.value).value;
      var p := Listed(TaskListMessage(env.runId, id, L.Markdown(list)));
      ListIsAMessage(env.runId, id, list);
      PieceIsSent(noted, p);
      ShownGrows(w.pieces, p);
      NoticesAreNothing(noted + PieceKinds(p, true), given.after);
    } else {
      NoticesAreNothing(noted, given.after);
    }
  }

  lemma {:induction false} AnswersAreTrue(env: Env, w: Work, content: seq<ContentBlock>)
    requires IsTrue(w)
    ensures var done := Answers(env, w, content).0; IsTrue(done) && w.pieces <= done.pieces
  {
    hide ToolRun, IsTrue;
    if content != [] {
      var n := |content| - 1;
      AnswersAreTrue(env, w, content[..n]);
      match content[n] {
        case ToolRequest(id, name, arguments) => ToolIsTrue(env, Answers(env, w, content[..n]).0, id, name, arguments);
        case _ =>
      }
    }
  }

  lemma {:induction false} ToolsAreTrue(env: Env, w: Work, turn: seq<Message>)
    requires IsTrue(w)
    ensures var done := Executed(env, w, turn).0; IsTrue(done) && w.pieces <= done.pieces
  {
    hide Answers, IsTrue, ResponseMessage;
    if turn != [] {
      var n := |turn| - 1;
      ToolsAreTrue(env, w, turn[..n]);
      AnswersAreTrue(env, Executed(env, w, turn[..n]).0, turn[n].content);
    }
  }

  // ---------------------------------------------------------------- the ids of tool messages

  const RESPONSE_MARK := "-tool-response-"

  predicate IsResponseId(id: string, to: string, number: nat) {
    id == to + RESPONSE_MARK + Decimal(number)
  }

  lemma {:induction false} DecimalIsDigits(n: nat)
    ensures forall i :: 0 <= i < |Decimal(n)| ==> Decimal(n)[i] != '-'
  {
    if n >= 10 {
      DecimalIsDigits(n / 10);
    }
  }

  /** After its mark, an id has digits only. */
  lemma {:induction false} DigitsBehindMark(id: string, a: string, m: nat)
    requires IsResponseId(id, a, m)
    ensures |id| == |a| + |RESPONSE_MARK| + |Decimal(m)| && id[|id| - 1 - |Decimal(m)|] == '-'
    ensures forall p :: |id| - |Decimal(m)| <= p < |id| ==> id[p] != '-'
  {
    hide Decimal;
    var x := Decimal(m);
    DecimalIsDigits(m);
    assert forall p :: |id| - |x| <= p < |id| ==> id[p] == x[p - (|id| - |x|)];
  }

  /** The id of a tool message tells whose it is and which one. */
  lemma {:induction false} ResponseIdsTell(id: string, a: string, m: nat, b: string, n: nat)
    requires IsResponseId(id, a, m) && IsResponseId(id, b, n)
    ensures a == b && m == n
  {
    hide Decimal;
    var x, y := Decimal(m), Decimal(n);
    DigitsBehindMark(id, a, m);
    DigitsBehindMark(id, b, n);
    assert |x| == |y|;
    assert x == id[|id| - |x|..] == y;
    DecimalIsInjective(m, n);
    assert a == id[..|id| - |x| - |RESPONSE_MARK|] == b;
  }

  /** The tool messages of a turn are numbered, each after a message of the turn. */
  predicate AreResponses(turn: seq<Message>, executed: seq<Message>) {
    forall k :: 0 <= k < |executed| ==> executed[k].role.Tool? && AnswersSome(turn, executed[k].id, k)
  }

  predicate AnswersSome(turn: seq<Message>, id: string, number: nat) {
    exists i :: 0 <= i < |turn| && IsResponseId(id, turn[i].id, number)
  }

  lemma {:induction false} ToolMessagesAreResponses(env: Env, w: Work, turn: seq<Message>)
    ensures AreResponses(turn, Executed(env, w, turn).1)
  {
    hide Answers, IsResponseId;
    if turn != [] {
      var n := |turn| - 1;
      ToolMessagesAreResponses(env, w, turn[..n]);
      var before := Executed(env, w, turn[..n]).1;
      forall k | 0 <= k < |before|
        ensures AnswersSome(turn, before[k].id, k)
      {
        MoreToAnswer(turn, n, before[k].id, k);
      }
      IsItsResponse(turn[n], |before|, Answers(env, Executed(env, w, turn[..n]).0, turn[n].content).1);
    }
  }

  lemma {:induction false} MoreToAnswer(turn: seq<Message>, n: nat, id: string, number: nat)
    requires n <= |turn| && AnswersSome(turn[..n], id, number)
    ensures AnswersSome(turn, id, number)
  {
    hide IsResponseId;
    var i :| 0 <= i < n && IsResponseId(id, turn[..n][i].id, number);
    assert turn[i] == turn[..n][i];
  }

  lemma {:induction false} IsItsResponse(m: Message, number: nat, answers: seq<ContentBlock>)
    ensures IsResponseId(ResponseMessage(m, number, answers).id, m.id, number)
  {
  }

  // ---------------------------------------------------------------- rounds and pieces

  predicate IsRoundOf(pieces: seq<Piece>, r: Round) {
    && r.at < |pieces| && pieces[r.at].Streamed? && r.turn == LastSnapshots(pieces[r.at].snapshots)
    && AreResponses(r.turn, r.executed)
  }

  predicate AreRoundsOf(pieces: seq<Piece>, rounds: seq<Round>) {
    && (forall i :: 0 <= i < |rounds| ==> IsRoundOf(pieces, rounds[i]))
    && (forall i, j :: 0 <= i < j < |rounds| ==> rounds[i].at < rounds[j].at)
  }

  predicate IsTraced(l: Loop) {
    IsTrue(l.work) && AreRoundsOf(l.work.pieces, l.rounds)
  }

  lemma {:induction false} MorePieces(pieces: seq<Piece>, more: seq<Piece>, rounds: seq<Round>)
    requires pieces <= more && AreRoundsOf(pieces, rounds)
    ensures AreRoundsOf(more, rounds)
  {
    hide LastSnapshots, AreResponses;
  }

  lemma {:induction false} RoundIsTraced(env: Env, l: Loop, number: nat, j: nat, earlier: nat)
    requires IsTraced(l) && env.provider(j).Stream? && AttemptResult(env.provider(j)).Ok?
    requires earlier < |l.work.pieces| && forall i :: 0 <= i < |l.rounds| ==> l.rounds[i].at < earlier
    requires earlier == |l.work.pieces| - 1
    requires l.work.pieces[earlier] == Streamed(SeenSnapshots(env.provider(j).items))
    ensures IsTraced(AddRound(env, l, number, AttemptResult(env.provider(j)).value))
  {
    hide Executed, ShowsWorkLeft, LastSnapshots, SeenSnapshots, StreamError, AnyToolRequest, ContinueMessage, AreResponses, IsTrue,
      L.HasOpenTasks;
    var result := AttemptResult(env.provider(j)).value;
    var next := AddRound(env, l, number, result);
    ToolsAreTrue(env, l.work, result.messages);
    ToolMessagesAreResponses(env, l.work, result.messages);
    MorePieces(l.work.pieces, next.work.pieces, l.rounds);
    assert next.rounds == l.rounds + [next.rounds[|l.rounds|]];
  }

  lemma {:induction false} RunIsTraced(env: Env, n: nat)
    requires env.deltas
    ensures IsTraced(AfterTurns(env, n))
  {
    hide TurnStep, IsTraced;
    if n == 0 {
      StartIsTraced(env);
    } else {
      RunIsTraced(env, n - 1);
      TurnIsTraced(env, AfterTurns(env, n - 1), n - 1);
    }
  }

  lemma {:induction false} StartIsTraced(env: Env)
    ensures IsTraced(Start(env))
  {
    NoneEffective(NoticeKinds(env.opening));
  }

  lemma {:induction false} TurnIsTraced(env: Env, l: Loop, n: nat)
    requires env.deltas && IsTraced(l)
    ensures IsTraced(TurnStep(env, l, n))
  {
    hide AttemptResult, AttemptsMade, AfterAttempts, AddRound, ClampRequestRetries, IsTrue, IsRoundOf, SeenSnapshots;
    if l.progress.Going? && !env.cancelledBefore(n) {
      var next := AfterTurnAttempts(env, l);
      var made := next.attempts - l.attempts;
      AttemptsAreTrue(env, l.work, l.attempts, made);
      MorePieces(l.work.pieces, next.work.pieces, l.rounds);
      var result := AttemptResult(env.provider(next.attempts - 1));
      if result.Ok? && result.value.messages != [] {
        SuccessIsAStream(env.provider(next.attempts - 1));
        RoundsAreBelow(l.work.pieces, l.rounds);
        RoundIsTraced(env, next, n, next.attempts - 1, |next.work.pieces| - 1);
      }
    }
  }

  lemma {:induction false} RoundsAreBelow(pieces: seq<Piece>, rounds: seq<Round>)
    requires AreRoundsOf(pieces, rounds)
    ensures forall i :: 0 <= i < |rounds| ==> rounds[i].at < |pieces|
  {
    hide LastSnapshots, AreResponses;
  }
}
