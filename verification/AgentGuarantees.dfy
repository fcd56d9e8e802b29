/** What holds at the start of every turn of an agent run, and of its result. */
module AgentGuarantees {
  import opened Wrappers
  import opened Events
  import opened ProviderTurns
  import opened AgentLoop

  /** The rounds as the provider is shown them, and as they make up the result. */
  function History(env: Env, rounds: seq<Round>): seq<Message> {
    if rounds == [] then []
    else
      var n := |rounds| - 1;
      History(env, rounds[..n]) + rounds[n].turn + rounds[n].executed
      + if rounds[n].continued then [ContinueMessage(env, n)] else []
  }

  function Produced(rounds: seq<Round>): seq<Message> {
    if rounds == [] then []
    else Produced(rounds[..|rounds| - 1]) + rounds[|rounds| - 1].turn + rounds[|rounds| - 1].executed
  }

  /** The tool messages of a round hold one response for every request of its turn, in the order of
      the requests and with their ids, and nothing else. */
  predicate IsAnswered(r: Round) {
    && ResponsesOf(r.executed) == RequestsOf(r.turn)
    && forall i :: 0 <= i < |r.executed| ==> IsToolMessage(r.executed[i])
  }

  predicate IsToolMessage(m: Message) {
    m.role.Tool? && m.content != [] && forall i :: 0 <= i < |m.content| ==> m.content[i].ToolResponse?
  }

  /** A round's messages are the last snapshots of one completed stream. */
  ghost predicate IsOneStream(env: Env, r: Round) {
    exists j: nat :: env.provider(j).Stream? && StreamError(env.provider(j).items).None?
                     && r.turn == LastSnapshots(SeenSnapshots(env.provider(j).items))
                     && r.hasToolRequests == AnyToolRequest(SeenSnapshots(env.provider(j).items))
  }

  predicate GoesOn(r: Round) {
    r.hasToolRequests || r.continued
  }

  ghost predicate IsSound(env: Env, l: Loop) {
    && l.messages == env.initial + [InputMessage(env)] + History(env, l.rounds)
    && l.finalMessages == Produced(l.rounds)
    && (forall i :: 0 <= i < |l.rounds| ==> IsAnswered(l.rounds[i]) && IsOneStream(env, l.rounds[i]))
    && (forall i :: 0 <= i < |l.rounds| - 1 ==> GoesOn(l.rounds[i]))
    && (l.awaitingFollowup <==> l.rounds != [] && l.rounds[|l.rounds| - 1].hasToolRequests)
  }

  lemma RoundIsSound(env: Env, l: Loop, number: nat, j: nat)
    requires IsSound(env, l) && number == |l.rounds| && (l.rounds != [] ==> GoesOn(l.rounds[|l.rounds| - 1]))
    requires env.provider(j).Stream? && AttemptResult(env.provider(j)).Ok?
    ensures var next := AddRound(env, l, number, AttemptResult(env.provider(j)).value);
            IsSound(env, next) && |next.rounds| == number + 1
            && (next.progress.Going? ==> GoesOn(next.rounds[number]))
  {
    hide Executed, ShowsWorkLeft, LastSnapshots, SeenSnapshots, StreamError, AnyToolRequest, ResponsesOf, RequestsOf,
      InputMessage, ContinueMessage, IsToolMessage;
    var result := AttemptResult(env.provider(j)).value;
    var next := AddRound(env, l, number, result);
    TurnIsAnswered(env, l.work, result.messages);
    var round := next.rounds[number];
    assert next.rounds[..number] == l.rounds;
    ToolMessages(env, l.work, result.messages);
    assert IsOneStream(env, round);
  }

  lemma ToolMessages(env: Env, w: Work, turn: seq<Message>)
    ensures forall i :: 0 <= i < |Executed(env, w, turn).1| ==> IsToolMessage(Executed(env, w, turn).1[i])
  {
    hide Executed;
    TurnIsAnswered(env, w, turn);
  }

  ghost predicate IsBalanced(env: Env, l: Loop, n: nat) {
    && IsSound(env, l)
    && |l.rounds| <= n
    && (l.progress.Going? ==> |l.rounds| == n && forall i :: 0 <= i < n ==> GoesOn(l.rounds[i]))
    && (l.progress.Stopped? ==> !l.awaitingFollowup)
    && (l.progress == Broken(NoReplyToTools) ==> l.awaitingFollowup)
  }

  lemma TurnKeepsBalance(env: Env, l: Loop, n: nat)
    requires IsBalanced(env, l, n) && l.progress.Going? && !env.cancelledBefore(n)
    ensures IsBalanced(env, TurnStep(env, l, n), n + 1)
  {
    hide AttemptResult, AttemptsMade, AfterAttempts, AddRound, IsSound, ClampRequestRetries, GoesOn;
    var next := AfterTurnAttempts(env, l);
    var j := next.attempts - 1;
    var result := AttemptResult(env.provider(j));
    if result.Ok? && result.value.messages != [] {
      ControlDoesNotMatter(env, l, next.attempts, next.work, next.progress);
      SuccessIsAStream(env.provider(j));
      RoundIsSound(env, next, n, j);
      RoundsAdded(env, next, n, result.value);
    } else {
      ControlDoesNotMatter(env, l, next.attempts, next.work, TurnStep(env, l, n).progress);
    }
  }

  /** At the start of every turn the history is the session, the input, and rounds in which every
      tool request has been answered; the result so far is the same rounds without the messages that
      told the run to go on. A run that ends by itself never leaves tool results unread, and one
      that fails for want of a reply does. */
  lemma {:induction false} HistoryIsBalanced(env: Env, n: nat)
    ensures IsBalanced(env, AfterTurns(env, n), n)
  {
    hide TurnStep, IsSound, GoesOn;
    if n == 0 {
      StartIsSound(env);
    } else {
      var l := AfterTurns(env, n - 1);
      HistoryIsBalanced(env, n - 1);
      if !l.progress.Going? || env.cancelledBefore(n - 1) {
        NoTurn(env, l, n - 1);
        ControlDoesNotMatter(env, l, l.attempts, l.work, Broken(RunCancelled));
      } else {
        TurnKeepsBalance(env, l, n - 1);
      }
    }
  }

  lemma NoTurn(env: Env, l: Loop, n: nat)
    requires !l.progress.Going? || env.cancelledBefore(n)
    ensures TurnStep(env, l, n) == if l.progress.Going? then l.(progress := Broken(RunCancelled)) else l
  {
  }

  lemma StartIsSound(env: Env)
    ensures IsSound(env, Start(env))
  {
  }

  lemma SuccessIsAStream(attempt: Attempt)
    requires AttemptResult(attempt).Ok?
    ensures attempt.Stream?
  {
  }

  lemma ControlDoesNotMatter(env: Env, l: Loop, attempts: nat, work: Work, progress: Progress)
    requires IsSound(env, l)
    ensures IsSound(env, l.(attempts := attempts, work := work, progress := progress))
  {
    hide IsAnswered, IsOneStream, GoesOn, History, Produced;
  }

  lemma RoundsAdded(env: Env, l: Loop, number: nat, result: ProviderTurn)
    ensures var next := AddRound(env, l, number, result);
            && |next.rounds| == |l.rounds| + 1 && next.rounds[..|l.rounds|] == l.rounds
            && (next.progress.Stopped? ==> !next.awaitingFollowup) && !next.progress.Broken?
  {
    hide Executed, ShowsWorkLeft;
  }

  // ---------------------------------------------------------------- the result

  function NonUser(messages: seq<Message>): seq<Message> {
    if messages == [] then []
    else
      var m := messages[|messages| - 1];
      NonUser(messages[..|messages| - 1]) + if m.role.User? then [] else [m]
  }

  lemma {:induction false} NonUserConcat(a: seq<Message>, b: seq<Message>)
    ensures NonUser(a + b) == NonUser(a) + NonUser(b)
  {
    if b == [] {
      assert a + b == a;
    } else {
      assert (a + b)[..|a + b| - 1] == a + b[..|b| - 1];
      NonUserConcat(a, b[..|b| - 1]);
    }
  }

  predicate NoUser(messages: seq<Message>) {
    forall i :: 0 <= i < |messages| ==> !messages[i].role.User?
  }

  lemma {:induction false} NonUserKeepsAll(messages: seq<Message>)
    ensures |NonUser(messages)| <= |messages|
    ensures |NonUser(messages)| == |messages| <==> NoUser(messages)
    ensures NoUser(messages) ==> NonUser(messages) == messages
  {
    hide NoUser;
    if messages == [] {
      NobodySpeaks();
    } else {
      NonUserKeepsAll(messages[..|messages| - 1]);
      OneMoreSpeaks(messages);
    }
  }

  lemma NobodySpeaks()
    ensures NoUser([])
  {
  }

  lemma OneMoreSpeaks(messages: seq<Message>)
    requires messages != []
    ensures NoUser(messages) <==> NoUser(messages[..|messages| - 1]) && !messages[|messages| - 1].role.User?
  {
    var n := |messages| - 1;
    assert forall i :: 0 <= i < n ==> messages[..n][i] == messages[i];
  }

  predicate NoUserInTurns(rounds: seq<Round>) {
    forall i :: 0 <= i < |rounds| ==> NoUser(rounds[i].turn)
  }

  lemma {:induction false} HistoryWithoutUser(env: Env, rounds: seq<Round>)
    requires forall i :: 0 <= i < |rounds| ==> NoUser(rounds[i].executed)
    ensures |NonUser(History(env, rounds))| <= |Produced(rounds)|
    ensures |NonUser(History(env, rounds))| == |Produced(rounds)| <==> NoUserInTurns(rounds)
    ensures NoUserInTurns(rounds) ==> NonUser(History(env, rounds)) == Produced(rounds)
  {
    hide ContinueMessage, NonUser, NoUser, NoUserInTurns;
    if rounds == [] {
      ToldIsUser(env, 0, false);
      NoTurns();
    } else {
      var n := |rounds| - 1;
      var r := rounds[n];
      var before, told := History(env, rounds[..n]), if r.continued then [ContinueMessage(env, n)] else [];
      HistoryWithoutUser(env, rounds[..n]);
      NonUserKeepsAll(r.turn);
      NonUserKeepsAll(r.executed);
      ToldIsUser(env, n, r.continued);
      NonUserConcat(before, r.turn);
      NonUserConcat(before + r.turn, r.executed);
      NonUserConcat(before + r.turn + r.executed, told);
      OneMoreTurn(rounds);
      assert NonUser(History(env, rounds)) == NonUser(before) + NonUser(r.turn) + r.executed;
    }
  }

  lemma NoTurns()
    ensures NoUserInTurns([])
  {
  }

  lemma OneMoreTurn(rounds: seq<Round>)
    requires rounds != []
    ensures NoUserInTurns(rounds) <==> NoUserInTurns(rounds[..|rounds| - 1]) && NoUser(rounds[|rounds| - 1].turn)
  {
    hide NoUser;
    var n := |rounds| - 1;
    assert forall i :: 0 <= i < n ==> rounds[..n][i] == rounds[i];
  }

  lemma ToldIsUser(env: Env, number: nat, continued: bool)
    ensures NonUser(if continued then [ContinueMessage(env, number)] else []) == []
  {
    assert [ContinueMessage(env, number)][..0] == [];
  }

  /** The messages a run returns are its history without the session, the input and what told it to go
      on. Taking them for the messages that are not in the user's name is right exactly when the
      provider says nothing in the user's name. */
  lemma {:induction false} ResultIsWhatWasProduced(env: Env, n: nat)
    ensures var l := AfterTurns(env, n);
            && |env.initial| + 1 <= |l.messages| && l.messages[|env.initial| + 1..] == History(env, l.rounds)
            && l.finalMessages == Produced(l.rounds)
            && (l.finalMessages == NonUser(l.messages[|env.initial| + 1..]) <==> NoUserInTurns(l.rounds))
  {
    hide AfterTurns, History, Produced, InputMessage, IsOneStream, NonUser, GoesOn, ResponsesOf, RequestsOf, NoUserInTurns;
    HistoryIsBalanced(env, n);
    var l := AfterTurns(env, n);
    forall i | 0 <= i < |l.rounds|
      ensures NoUser(l.rounds[i].executed)
    {
      assert IsAnswered(l.rounds[i]);
      ToolMessagesAreNotTheUsers(l.rounds[i]);
    }
    HistoryWithoutUser(env, l.rounds);
    assert l.messages[|env.initial| + 1..] == History(env, l.rounds);
  }

  lemma ToolMessagesAreNotTheUsers(r: Round)
    requires IsAnswered(r)
    ensures NoUser(r.executed)
  {
    hide ResponsesOf, RequestsOf;
  }

  /** A turn without tool requests in any snapshot has none to answer. */
  lemma {:induction false} NoRequestsWithoutFlag(env: Env, r: Round)
    requires IsOneStream(env, r) && !r.hasToolRequests
    ensures RequestsOf(r.turn) == []
  {
    hide AnyToolRequest, SeenSnapshots, StreamError, LastSnapshots, RequestsOf;
    var j: nat :| env.provider(j).Stream? && StreamError(env.provider(j).items).None?
                  && r.turn == LastSnapshots(SeenSnapshots(env.provider(j).items))
                  && r.hasToolRequests == AnyToolRequest(SeenSnapshots(env.provider(j).items));
    var snapshots := SeenSnapshots(env.provider(j).items);
    forall i | 0 <= i < |r.turn|
      ensures !HasToolRequest(r.turn[i])
    {
      LastSnapshotIsASnapshot(snapshots, i);
      FlagCoversSnapshots(snapshots, r.turn[i]);
    }
    NothingRequested(r.turn);
  }

  lemma LastSnapshotIsASnapshot(snapshots: seq<Message>, i: nat)
    requires i < |LastSnapshots(snapshots)|
    ensures LastSnapshots(snapshots)[i] in snapshots
  {
    hide Latest, FirstIds;
    LatestIsASnapshot(snapshots, FirstIds(snapshots)[i]);
  }

  lemma {:induction false} LatestIsASnapshot(snapshots: seq<Message>, id: string)
    ensures Latest(snapshots, id).Some? ==> Latest(snapshots, id).value in snapshots
  {
    if snapshots != [] {
      LatestIsASnapshot(snapshots[..|snapshots| - 1], id);
      assert forall m :: m in snapshots[..|snapshots| - 1] ==> m in snapshots;
    }
  }

  lemma FlagCoversSnapshots(snapshots: seq<Message>, m: Message)
    requires m in snapshots && !AnyToolRequest(snapshots)
    ensures !HasToolRequest(m)
  {
    hide HasToolRequest;
  }

  lemma {:induction false} NothingRequested(turn: seq<Message>)
    requires forall i :: 0 <= i < |turn| ==> !HasToolRequest(turn[i])
    ensures RequestsOf(turn) == []
  {
    hide HasToolRequest, RequestIds;
    if turn != [] {
      NothingRequested(turn[..|turn| - 1]);
      NoRequestIds(turn[|turn| - 1]);
    }
  }

  lemma NoRequestIds(m: Message)
    requires !HasToolRequest(m)
    ensures RequestIds(m.content) == []
  {
    NoRequestsUpTo(m, |m.content|);
    assert m.content[..|m.content|] == m.content;
  }

  lemma {:induction false} NoRequestsUpTo(m: Message, k: nat)
    requires !HasToolRequest(m) && k <= |m.content|
    ensures RequestIds(m.content[..k]) == []
  {
    if k > 0 {
      NoRequestsUpTo(m, k - 1);
      assert m.content[..k][..k - 1] == m.content[..k - 1];
    }
  }

  // ---------------------------------------------------------------- how often the provider is asked

  lemma {:induction false} AttemptsPerTurn(env: Env, n: nat)
    ensures AfterTurns(env, n).attempts <= n * (ClampRequestRetries(env.requestRetries) + 1)
  {
    hide AttemptResult, AfterAttempts, Executed, ShowsWorkLeft, ClampRequestRetries;
    if n > 0 {
      AttemptsPerTurn(env, n - 1);
      var each := ClampRequestRetries(env.requestRetries) + 1;
      assert n * each == (n - 1) * each + each;
    }
  }

  /** A whole run asks the provider at most turns times (retries + 1) times, and never more than six
      times a turn. */
  lemma {:induction false} RunAttempts(env: Env)
    ensures RunEnd(env).attempts <= TurnLimit(env) * (ClampRequestRetries(env.requestRetries) + 1)
    ensures RunEnd(env).attempts <= TurnLimit(env) * 6
  {
    hide AfterTurns, TurnLimit, ClampRequestRetries;
    var turns, each := TurnLimit(env), ClampRequestRetries(env.requestRetries) + 1;
    AttemptsPerTurn(env, turns);
    assert turns * each <= turns * 6 by {
      TimesMonotone(turns, each, 6);
    }
  }

  lemma TimesMonotone(n: nat, a: nat, b: nat)
    requires a <= b
    ensures n * a <= n * b
  {
    assert n * b - n * a == n * (b - a);
  }
}
