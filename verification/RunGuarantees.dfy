/** From the agent loop to the stored session: a whole run, with its tools, its task list, its retries
    and all of its turns. */
module RunGuarantees {
  import opened Wrappers
  import opened Events
  import opened Conversations
  import opened ProviderTurns
  import opened RunPieces
  import opened Codec
  import opened RunStorage
  import opened RunOrder
  import opened AgentLoop
  import opened AgentGuarantees
  import opened RunTrace
  import P = Pump
  import G = PumpGuarantees

  // ---------------------------------------------------------------- what a run lists at its finish

  predicate AreDistinct(messages: seq<Message>) {
    forall i, j :: 0 <= i < j < |messages| ==> messages[i].id != messages[j].id
  }

  lemma {:induction false} DistinctConcat(a: seq<Message>, b: seq<Message>)
    requires AreDistinct(a) && AreDistinct(b) && IdsOf(a) !! IdsOf(b)
    ensures AreDistinct(a + b)
  {
    var all := a + b;
    assert forall i :: 0 <= i < |a| ==> all[i] == a[i] && a[i].id in IdsOf(a);
    assert forall i :: 0 <= i < |b| ==> all[|a| + i] == b[i] && b[i].id in IdsOf(b);
  }

  /** Tool messages have ids of their own: not those of a shown message. */
  predicate HaveOwnResponseIds(shown: seq<Message>, rounds: seq<Round>) {
    forall i :: 0 <= i < |rounds| ==> IdsOf(rounds[i].executed) !! IdsOf(shown)
  }

  lemma {:induction false} TurnIdsAreShown(snapshots: seq<Message>, id: string)
    ensures id in IdsOf(LastSnapshots(snapshots)) <==> id in IdsOf(snapshots)
    ensures AreDistinct(LastSnapshots(snapshots))
    ensures forall m :: m in LastSnapshots(snapshots) ==> Latest(snapshots, m.id) == Some(m)
  {
    hide Latest, FirstIds;
    var ids, turn := FirstIds(snapshots), LastSnapshots(snapshots);
    FirstIdsAreDistinct(snapshots);
    forall i | 0 <= i < |ids|
      ensures turn[i].id == ids[i] && Latest(snapshots, turn[i].id) == Some(turn[i])
    {
      LatestIsListed(snapshots, ids[i]);
    }
    LatestIsListed(snapshots, id);
    NoLatest(snapshots, id);
    if id in ids {
      var i :| 0 <= i < |ids| && ids[i] == id;
      assert turn[i].id == id;
    }
  }

  lemma {:induction false} ResponsesAreDistinct(turn: seq<Message>, executed: seq<Message>)
    requires AreResponses(turn, executed)
    ensures AreDistinct(executed)
  {
    hide IsResponseId;
    forall i, j | 0 <= i < j < |executed|
      ensures executed[i].id != executed[j].id
    {
      assert AnswersSome(turn, executed[i].id, i) && AnswersSome(turn, executed[j].id, j);
      var a :| 0 <= a < |turn| && IsResponseId(executed[i].id, turn[a].id, i);
      var b :| 0 <= b < |turn| && IsResponseId(executed[j].id, turn[b].id, j);
      if executed[i].id == executed[j].id {
        ResponseIdsTell(executed[i].id, turn[a].id, i, turn[b].id, j);
      }
    }
  }

  lemma {:induction false} RespondsTo(turn: seq<Message>, executed: seq<Message>, id: string) returns (to: string, number: nat)
    requires AreResponses(turn, executed) && id in IdsOf(executed)
    ensures to in IdsOf(turn) && IsResponseId(id, to, number)
  {
    hide IsResponseId;
    var k :| 0 <= k < |executed| && executed[k].id == id;
    assert AnswersSome(turn, id, k);
    var i :| 0 <= i < |turn| && IsResponseId(id, turn[i].id, k);
    to, number := turn[i].id, k;
  }

  /** Two rounds never make the same id. */
  lemma {:induction false} RoundsAreApart(pieces: seq<Piece>, rounds: seq<Round>, a: nat, b: nat, id: string)
    requires AreApart(pieces) && AreRoundsOf(pieces, rounds) && HaveOwnResponseIds(Shown(pieces), rounds)
    requires a < b < |rounds| && id in IdsOf(rounds[a].turn + rounds[a].executed)
    ensures id !in IdsOf(rounds[b].turn + rounds[b].executed)
  {
    hide IdsOf, LastSnapshots, AreResponses, IsResponseId, Shown;
    var r, q := rounds[a], rounds[b];
    assert IsRoundOf(pieces, r) && IsRoundOf(pieces, q);
    IdsConcat(r.turn, r.executed);
    IdsConcat(q.turn, q.executed);
    assert IdsOf(r.executed) !! IdsOf(Shown(pieces)) && IdsOf(q.executed) !! IdsOf(Shown(pieces));
    TurnsAreApart(pieces, r, q, id);
    if id in IdsOf(r.executed) && id in IdsOf(q.executed) {
      var to, m := RespondsTo(r.turn, r.executed, id);
      var also, n := RespondsTo(q.turn, q.executed, id);
      ResponseIdsTell(id, to, m, also, n);
      TurnsAreApart(pieces, r, q, to);
    }
  }

  lemma {:induction false} TurnsAreApart(pieces: seq<Piece>, r: Round, q: Round, id: string)
    requires AreApart(pieces) && IsRoundOf(pieces, r) && IsRoundOf(pieces, q) && r.at < q.at
    ensures !(id in IdsOf(r.turn) && id in IdsOf(q.turn))
    ensures id in IdsOf(r.turn) || id in IdsOf(q.turn) ==> id in IdsOf(Shown(pieces))
  {
    hide IdsOf, LastSnapshots, AreResponses, Shown;
    TurnIdsAreShown(pieces[r.at].snapshots, id);
    TurnIdsAreShown(pieces[q.at].snapshots, id);
    assert IdsOf(ShownBy(pieces[r.at])) !! IdsOf(ShownBy(pieces[q.at]));
    ShownIds(pieces, id);
    assert id in IdsOf(ShownBy(pieces[r.at])) || id in IdsOf(ShownBy(pieces[q.at])) ==> id in IdsOf(Shown(pieces));
  }

  predicate FromRound(rounds: seq<Round>, k: nat, id: string) {
    k < |rounds| && id in IdsOf(rounds[k].turn + rounds[k].executed)
  }

  lemma {:induction false} ProducedFrom(rounds: seq<Round>, n: nat, id: string)
    requires n <= |rounds|
    ensures id in IdsOf(Produced(rounds[..n])) <==> exists k :: 0 <= k < n && FromRound(rounds, k, id)
  {
    hide IdsOf;
    if n == 0 {
      NoIds(id);
    } else {
      ProducedFrom(rounds, n - 1, id);
      ProducedGrows(rounds, n);
      IdsConcat(Produced(rounds[..n - 1]), rounds[n - 1].turn + rounds[n - 1].executed);
      assert FromRound(rounds, n - 1, id) <==> id in IdsOf(rounds[n - 1].turn + rounds[n - 1].executed);
    }
  }

  lemma {:induction false} NoIds(id: string)
    ensures Produced([]) == [] && id !in IdsOf([])
  {
  }

  lemma {:induction false} ProducedGrows(rounds: seq<Round>, n: nat)
    requires 0 < n <= |rounds|
    ensures Produced(rounds[..n]) == Produced(rounds[..n - 1]) + (rounds[n - 1].turn + rounds[n - 1].executed)
  {
    assert rounds[..n][..n - 1] == rounds[..n - 1];
  }

  lemma {:induction false} ProducedIsDistinct(pieces: seq<Piece>, rounds: seq<Round>, n: nat)
    requires AreApart(pieces) && AreRoundsOf(pieces, rounds) && HaveOwnResponseIds(Shown(pieces), rounds) && n <= |rounds|
    ensures AreDistinct(Produced(rounds[..n]))
  {
    hide IdsOf, LastSnapshots, AreResponses, AreDistinct, Shown, AreApart, HaveOwnResponseIds, Produced;
    if n == 0 {
      NothingProduced();
      assert rounds[..0] == [];
    } else {
      var r := rounds[n - 1];
      ProducedIsDistinct(pieces, rounds, n - 1);
      ProducedGrows(rounds, n);
      RoundIsDistinct(pieces, rounds, n - 1);
      forall id | id in IdsOf(Produced(rounds[..n - 1]))
        ensures id !in IdsOf(r.turn + r.executed)
      {
        ProducedFrom(rounds, n - 1, id);
        var k :| 0 <= k < n - 1 && FromRound(rounds, k, id);
        RoundsAreApart(pieces, rounds, k, n - 1, id);
      }
      DistinctConcat(Produced(rounds[..n - 1]), r.turn + r.executed);
    }
  }

  lemma {:induction false} NothingProduced()
    ensures Produced([]) == [] && AreDistinct([])
  {
  }

  lemma {:induction false} RoundIsDistinct(pieces: seq<Piece>, rounds: seq<Round>, k: nat)
    requires AreRoundsOf(pieces, rounds) && HaveOwnResponseIds(Shown(pieces), rounds) && k < |rounds|
    ensures AreDistinct(rounds[k].turn + rounds[k].executed)
  {
    hide IdsOf, LastSnapshots, AreResponses, AreDistinct, Shown;
    var r := rounds[k];
    assert IsRoundOf(pieces, r) && IdsOf(r.executed) !! IdsOf(Shown(pieces));
    TurnIdsAreShown(pieces[r.at].snapshots, "");
    ResponsesAreDistinct(r.turn, r.executed);
    forall id | id in IdsOf(r.turn)
      ensures id in IdsOf(Shown(pieces))
    {
      TurnIdsAreShown(pieces[r.at].snapshots, id);
      ShownIds(pieces, id);
      assert id in IdsOf(ShownBy(pieces[r.at]));
    }
    DistinctConcat(r.turn, r.executed);
  }

  /** The last snapshot of a message of a turn is the last the whole run shows of it. */
  lemma {:induction false} LatestOfPiece(pieces: seq<Piece>, k: nat, id: string)
    requires AreApart(pieces) && k < |pieces| && pieces[k].Streamed? && id in IdsOf(pieces[k].snapshots)
    ensures Latest(Shown(pieces), id) == Latest(pieces[k].snapshots, id)
  {
    hide IdsOf, Latest, Shown;
    var n := |pieces| - 1;
    var before := pieces[..n];
    assert before + [pieces[n]] == pieces;
    ShownGrows(before, pieces[n]);
    if k < n {
      assert before[k] == pieces[k];
      assert IdsOf(ShownBy(pieces[k])) !! IdsOf(ShownBy(pieces[n]));
      LatestOfPiece(before, k, id);
      LatestApart(Shown(before), ShownBy(pieces[n]), id);
    } else {
      NotShownBefore(pieces, n, id);
      LatestApart(Shown(before), ShownBy(pieces[n]), id);
    }
  }

  lemma {:induction false} NotShownBefore(pieces: seq<Piece>, n: nat, id: string)
    requires n + 1 == |pieces| && AreApart(pieces) && pieces[n].Streamed? && id in IdsOf(pieces[n].snapshots)
    ensures id !in IdsOf(Shown(pieces[..n]))
  {
    hide IdsOf, Shown;
    ShownIds(pieces[..n], id);
    forall k | 0 <= k < n
      ensures id !in IdsOf(ShownBy(pieces[..n][k]))
    {
      assert pieces[..n][k] == pieces[k];
      assert IdsOf(ShownBy(pieces[k])) !! IdsOf(ShownBy(pieces[n]));
    }
  }

  /** A produced message is a turn's or a tool's. */
  lemma {:induction false} ProducedMember(rounds: seq<Round>, n: nat, i: nat) returns (k: nat)
    requires n <= |rounds| && i < |Produced(rounds[..n])|
    ensures k < n && (Produced(rounds[..n])[i] in rounds[k].turn || Produced(rounds[..n])[i] in rounds[k].executed)
  {
    ProducedGrows(rounds, n);
    var before := Produced(rounds[..n - 1]);
    if i < |before| {
      k := ProducedMember(rounds, n - 1, i);
    } else {
      k := n - 1;
      var j := i - |before|;
      assert Produced(rounds[..n])[i] == (rounds[k].turn + rounds[k].executed)[j];
    }
  }

  /** The ids a run needs: the providers' are new in each attempt and to the conversation, and those
      of the tool messages meet no other. */
  predicate HasOwnIds(base: seq<Message>, l: Loop) {
    && IsStream(base, Shown(l.work.pieces)) && AreApart(l.work.pieces)
    && HaveOwnResponseIds(Shown(l.work.pieces), l.rounds)
    && (forall i :: 0 <= i < |l.rounds| ==> forall id :: id in IdsOf(l.rounds[i].executed) ==> IndexOf(base, id).None?)
  }

  lemma {:induction false} ProducedEntry(base: seq<Message>, l: Loop, i: nat)
    requires IsTraced(l) && HasOwnIds(base, l) && i < |Produced(l.rounds)|
    ensures var m := Produced(l.rounds)[i];
            && m.id != "" && IndexOf(base, m.id).None?
            && (m.id in IdsOf(Shown(l.work.pieces)) ==> Some(m) == Latest(Shown(l.work.pieces), m.id))
  {
    hide IdsOf, Latest, IndexOf, Shown, LastSnapshots, Produced, IsTrue, AreResponses, IsStream;
    assert l.rounds[..|l.rounds|] == l.rounds;
    var m := Produced(l.rounds)[i];
    var k := ProducedMember(l.rounds, |l.rounds|, i);
    var r := l.rounds[k];
    assert IsRoundOf(l.work.pieces, r);
    if m in r.turn {
      MemberId(r.turn, m);
      TurnIdsAreShown(l.work.pieces[r.at].snapshots, m.id);
      LatestOfPiece(l.work.pieces, r.at, m.id);
      ShownIds(l.work.pieces, m.id);
      assert m.id in IdsOf(ShownBy(l.work.pieces[r.at]));
      ShownIsNew(base, Shown(l.work.pieces), m.id);
    } else {
      MemberId(r.executed, m);
      var to, number := RespondsTo(r.turn, r.executed, m.id);
      assert |m.id| >= |RESPONSE_MARK|;
      assert IdsOf(r.executed) !! IdsOf(Shown(l.work.pieces));
    }
  }

  lemma {:induction false} ShownIsNew(base: seq<Message>, shown: seq<Message>, id: string)
    requires IsStream(base, shown) && id in IdsOf(shown)
    ensures id != "" && IndexOf(base, id).None?
  {
    hide IndexOf;
    var i :| 0 <= i < |shown| && shown[i].id == id;
    assert IsSnapshot(shown[i]);
  }

  /** What a run produces is a finish list that fits what it has shown. */
  lemma {:induction false} ProducedIsListed(base: seq<Message>, l: Loop)
    requires IsTraced(l) && HasOwnIds(base, l)
    ensures Lists(base, Shown(l.work.pieces), Produced(l.rounds))
  {
    hide IdsOf, Latest, IndexOf, Shown, LastSnapshots, Produced, IsTrue, AreResponses, IsStream, FirstIds, IsRoundOf;
    var messages := Produced(l.rounds);
    ProducedIsDistinct(l.work.pieces, l.rounds, |l.rounds|);
    assert l.rounds[..|l.rounds|] == l.rounds;
    forall i | 0 <= i < |messages|
      ensures messages[i].id != "" && IndexOf(base, messages[i].id).None? && IndexOf(messages, messages[i].id) == Some(i)
      ensures messages[i].id in FirstIds(Shown(l.work.pieces)) ==> Some(messages[i]) == Latest(Shown(l.work.pieces), messages[i].id)
    {
      ProducedEntry(base, l, i);
      LatestIsListed(Shown(l.work.pieces), messages[i].id);
      NoLatest(Shown(l.work.pieces), messages[i].id);
      FoundAt(messages, i);
    }
  }

  lemma {:induction false} FoundAt(messages: seq<Message>, i: nat)
    requires AreDistinct(messages) && i < |messages|
    ensures IndexOf(messages, messages[i].id) == Some(i)
  {
    hide IndexOf;
    var at := IndexOf(messages, messages[i].id);
    assert at.Some?;
    assert messages[at.value].id == messages[i].id;
  }

  // ---------------------------------------------------------------- what it leaves besides

  predicate IsInATurn(rounds: seq<Round>, id: string) {
    exists k :: 0 <= k < |rounds| && id in IdsOf(rounds[k].turn)
  }

  /** Everything that was visible belongs to a turn that was completed: no attempt that failed showed
      anything, and no task list was shown. */
  ghost predicate ShowsOnlyTurns(pieces: seq<Piece>, rounds: seq<Round>) {
    forall id :: IsVisible(Shown(pieces), id) ==> IsInATurn(rounds, id)
  }

  lemma {:induction false} ListedExactlyWhen(base: seq<Message>, l: Loop, id: string)
    requires IsTraced(l) && HasOwnIds(base, l) && id in IdsOf(Shown(l.work.pieces))
    ensures IndexOf(Produced(l.rounds), id).Some? <==> IsInATurn(l.rounds, id)
  {
    hide IdsOf, IndexOf, Shown, Produced, IsTrue, IsRoundOf, IsStream;
    FoundExactlyWhen(Produced(l.rounds), id);
    ProducedFrom(l.rounds, |l.rounds|, id);
    assert l.rounds[..|l.rounds|] == l.rounds;
    forall k | 0 <= k < |l.rounds|
      ensures FromRound(l.rounds, k, id) <==> id in IdsOf(l.rounds[k].turn)
    {
      IdsConcat(l.rounds[k].turn, l.rounds[k].executed);
      assert IdsOf(l.rounds[k].executed) !! IdsOf(Shown(l.work.pieces));
    }
  }

  lemma {:induction false} FoundExactlyWhen(messages: seq<Message>, id: string)
    ensures IndexOf(messages, id).Some? <==> id in IdsOf(messages)
  {
    hide IndexOf;
    var at := IndexOf(messages, id);
    if at.Some? {
      assert messages[at.value].id == id;
    }
  }

  lemma {:induction false} VisibleIsListedExactlyWhen(base: seq<Message>, l: Loop)
    requires IsTraced(l) && HasOwnIds(base, l)
    ensures ListsAllVisible(Shown(l.work.pieces), Produced(l.rounds)) <==> ShowsOnlyTurns(l.work.pieces, l.rounds)
  {
    hide IndexOf, Shown, Produced, IsTraced, HasOwnIds, IsVisible, IsInATurn;
    var shown, messages := Shown(l.work.pieces), Produced(l.rounds);
    forall id | IsVisible(shown, id)
      ensures IndexOf(messages, id).Some? <==> IsInATurn(l.rounds, id)
    {
      VisibleIsShown(shown, id);
      ListedExactlyWhen(base, l, id);
    }
  }

  lemma {:induction false} VisibleIsShown(shown: seq<Message>, id: string)
    requires IsVisible(shown, id)
    ensures id in IdsOf(shown)
  {
    hide TextContent;
  }

  // ---------------------------------------------------------------- main results

  /** What the run's last event lists. */
  function Listing(kind: Kind): seq<Message> {
    if kind.Finish? then kind.messages else []
  }

  lemma {:induction false} PersistEffective(conversation: seq<Message>, kinds: seq<Kind>)
    ensures PersistAll(conversation, Effective(kinds)) == PersistAll(conversation, kinds)
  {
    hide Persist;
    if kinds != [] {
      var n := |kinds| - 1;
      PersistEffective(conversation, kinds[..n]);
      var before := Effective(kinds[..n]);
      if IsStored(kinds[n]) {
        assert (before + [kinds[n]])[..|before|] == before;
      } else {
        NothingPersisted(PersistAll(conversation, kinds[..n]), kinds[n]);
        assert before + [] == before;
      }
    }
  }

  lemma {:induction false} NothingPersisted(conversation: seq<Message>, kind: Kind)
    requires !IsStored(kind)
    ensures Persist(conversation, kind) == conversation
  {
  }

  /** What a run sends, less what no conversation depends on, is its pieces and its ending. */
  lemma {:induction false} ReplyIsPieces(env: Env)
    requires env.deltas
    ensures Effective(ReplyKinds(env))
            == RunKinds(RunEnd(env).work.pieces, true) + if Ending(env).Finish? then [Ending(env)] else []
  {
    hide Effective, AfterTurns, TurnLimit, RunKinds, RunResult, IsRoundOf;
    RunIsTraced(env, TurnLimit(env));
    var sent := RunEnd(env).work.sent;
    NoticesAreNothing(sent, env.closing);
    EffectiveConcat(sent + NoticeKinds(env.closing), [Ending(env)]);
    if IsStored(Ending(env)) {
      AllEffective([Ending(env)]);
    } else {
      NoneEffective([Ending(env)]);
    }
    assert RunKinds(RunEnd(env).work.pieces, true) + [] == RunKinds(RunEnd(env).work.pieces, true);
  }

  lemma {:induction false} ListingIsListed(env: Env, base: seq<Message>)
    requires env.deltas && HasOwnIds(base, RunEnd(env))
    ensures Lists(base, Shown(RunEnd(env).work.pieces), Listing(Ending(env)))
    ensures RunResult(env).Ok? ==> Listing(Ending(env)) == Produced(RunEnd(env).rounds)
  {
    hide AfterTurns, TurnLimit, IsTraced, HasOwnIds, Produced, Shown, History, IsAnswered, IsOneStream, GoesOn, InputMessage;
    RunIsTraced(env, TurnLimit(env));
    HistoryIsBalanced(env, TurnLimit(env));
    ProducedIsListed(base, RunEnd(env));
  }

  lemma {:induction false} EndingIsFold(base: seq<Message>, kinds: seq<Kind>, ending: Kind)
    requires ending.Finish? || ending.Error?
    ensures PersistAll(base, kinds + if ending.Finish? then [ending] else [])
            == PersistAll(base, kinds + [Finish(Listing(ending))])
  {
    hide PersistAll, Persist;
    if ending.Error? {
      assert kinds + [] == kinds;
      PersistConcat(base, kinds, [Finish([])]);
      PersistOneOrTwo(PersistAll(base, kinds), Finish([]), Finish([]));
      EmptyFinish(PersistAll(base, kinds));
    }
  }

  lemma {:induction false} EmptyFinish(conversation: seq<Message>)
    ensures Persist(conversation, Finish([])) == conversation
  {
  }

  /** When the events a reply has numbered arrive as they were sent, the kinds the pump folds are those
      that were sent. */
  lemma {:induction false} ArrivedIsSent(runId: RunId, from: U64, kinds: seq<Kind>, arrivals: seq<P.Arrival>)
    requires G.ArrivingFor(runId, runId, arrivals) == Numbered(runId, from, kinds)
    ensures G.OwnKinds(runId, arrivals) == kinds
    decreases |arrivals|
  {
    hide Wrap;
    if arrivals != [] {
      var n := |arrivals| - 1;
      if BelongsToRun(arrivals[n].event, runId) {
        var sent := Numbered(runId, from, kinds);
        var earlier := G.ArrivingFor(runId, runId, arrivals[..n]);
        assert sent == earlier + [arrivals[n].event];
        assert earlier == sent[..|sent| - 1] == Numbered(runId, from, kinds[..|kinds| - 1]);
        ArrivedIsSent(runId, from, kinds[..|kinds| - 1], arrivals[..n]);
        assert kinds == kinds[..|kinds| - 1] + [arrivals[n].event.kind];
      } else {
        assert G.ArrivingFor(runId, runId, arrivals) == G.ArrivingFor(runId, runId, arrivals[..n]);
        ArrivedIsSent(runId, from, kinds, arrivals[..n]);
        assert G.OwnKinds(runId, arrivals) == G.OwnKinds(runId, arrivals[..n]);
      }
    }
  }

  lemma {:induction false} SessionOfRun(env: Env, s: P.State, arrivals: seq<P.Arrival>)
    requires env.deltas && Effective(G.OwnKinds(env.runId, arrivals)) == Effective(ReplyKinds(env))
    ensures P.StateAfter(s, env.runId, arrivals).conversation
            == PersistAll(s.conversation, RunKinds(RunEnd(env).work.pieces, true) + [Finish(Listing(Ending(env)))])
  {
    hide PersistAll, Effective, RunEnd, RunKinds, G.OwnKinds, P.StateAfter, ReplyKinds;
    G.SessionIsFoldOfOwnEvents(s, env.runId, arrivals);
    PersistEffective(s.conversation, G.OwnKinds(env.runId, arrivals));
    ReplyIsPieces(env);
    EndingIsFold(s.conversation, RunKinds(RunEnd(env).work.pieces, true), Ending(env));
  }

  /** A whole run in the stored session. However its events are mixed with notices and with those of its
      sub-agents, the session ends as it was, followed by every listed message once in its final form
      and every other visible one once as it was last shown, exactly when no attempt, failed ones
      included, drops a text for tool requests. */
  lemma {:induction false} WholeRunIsStoredExactlyWhen(env: Env, s: P.State, arrivals: seq<P.Arrival>)
    requires env.deltas && HasOwnIds(s.conversation, RunEnd(env))
    requires Effective(G.OwnKinds(env.runId, arrivals)) == Effective(ReplyKinds(env))
    ensures var shown := Shown(RunEnd(env).work.pieces);
            HoldsRun(s.conversation, P.StateAfter(s, env.runId, arrivals).conversation, shown, Listing(Ending(env)))
            <==> !DropsText(shown)
  {
    hide HasOwnIds, Effective, ReplyKinds, HoldsRun, DropsText, G.OwnKinds, P.StateAfter, PersistAll, RunKinds, AfterTurns, TurnLimit,
      Shown, Lists;
    SessionOfRun(env, s, arrivals);
    ListingIsListed(env, s.conversation);
    IsARun(env, s.conversation);
    RunIsStoredExactlyWhen(s.conversation, RunEnd(env).work.pieces, Listing(Ending(env)));
  }

  lemma {:induction false} IsARun(env: Env, base: seq<Message>)
    requires env.deltas && HasOwnIds(base, RunEnd(env))
    ensures IsRun(base, RunEnd(env).work.pieces)
  {
    hide AfterTurns, TurnLimit, IsStream, AreApart, Shown, IsListMessage, Effective, RunKinds;
    RunIsTraced(env, TurnLimit(env));
  }

  /** And a run that ends well leaves its own messages, each once, and nothing else, exactly when,
      besides, no attempt that failed has shown anything and the task list was never shown. */
  lemma {:induction false} WholeRunIsStoredOnceExactlyWhen(env: Env, s: P.State, arrivals: seq<P.Arrival>)
    requires env.deltas && HasOwnIds(s.conversation, RunEnd(env)) && RunResult(env).Ok?
    requires Effective(G.OwnKinds(env.runId, arrivals)) == Effective(ReplyKinds(env))
    ensures var end := RunEnd(env);
            HoldsOnce(s.conversation, P.StateAfter(s, env.runId, arrivals).conversation, end.finalMessages)
            <==> !DropsText(Shown(end.work.pieces)) && ShowsOnlyTurns(end.work.pieces, end.rounds)
  {
    hide HasOwnIds, Effective, ReplyKinds, HoldsOnce, DropsText, G.OwnKinds, P.StateAfter, PersistAll, RunKinds, AfterTurns, TurnLimit,
      Shown, Lists, ShowsOnlyTurns, IsVisible, IsTraced, Produced, History, IsAnswered, IsOneStream, GoesOn, InputMessage;
    SessionOfRun(env, s, arrivals);
    ListingIsListed(env, s.conversation);
    IsARun(env, s.conversation);
    RunIsTraced(env, TurnLimit(env));
    HistoryIsBalanced(env, TurnLimit(env));
    RunIsStoredOnceExactlyWhen(s.conversation, RunEnd(env).work.pieces, Listing(Ending(env)));
    VisibleIsListedExactlyWhen(s.conversation, RunEnd(env));
  }

  /** A run's session is what it was and then its list, in the list's order, exactly when, besides dropping
      no text, the list begins with all that was visible as it first appeared. */
  lemma {:induction false} WholeRunIsStoredInOrderExactlyWhen(env: Env, s: P.State, arrivals: seq<P.Arrival>)
    requires env.deltas && HasOwnIds(s.conversation, RunEnd(env))
    requires Effective(G.OwnKinds(env.runId, arrivals)) == Effective(ReplyKinds(env))
    ensures var shown, listing := Shown(RunEnd(env).work.pieces), Listing(Ending(env));
            P.StateAfter(s, env.runId, arrivals).conversation == s.conversation + listing
            <==> !DropsText(shown) && VisibleIds(shown) <= Ids(listing)
  {
    hide HasOwnIds, Effective, ReplyKinds, DropsText, G.OwnKinds, P.StateAfter, PersistAll, RunKinds, AfterTurns, TurnLimit, Shown,
      Lists, VisibleIds, Ids;
    SessionOfRun(env, s, arrivals);
    ListingIsListed(env, s.conversation);
    IsARun(env, s.conversation);
    StoredInListOrderExactlyWhen(s.conversation, RunEnd(env).work.pieces, Listing(Ending(env)));
  }

  /** The answers of a run's tools come to stand behind all that the run has shown, also behind the reply
      that was made from them. */
  lemma {:induction false} ToolAnswersStandLast(env: Env, s: P.State, arrivals: seq<P.Arrival>, k: nat, answer: string, id: string)
    requires env.deltas && HasOwnIds(s.conversation, RunEnd(env)) && RunResult(env).Ok?
    requires Effective(G.OwnKinds(env.runId, arrivals)) == Effective(ReplyKinds(env))
    requires !DropsText(Shown(RunEnd(env).work.pieces)) && IsVisible(Shown(RunEnd(env).work.pieces), id)
    requires k < |RunEnd(env).rounds| && answer in IdsOf(RunEnd(env).rounds[k].executed)
    ensures var session := P.StateAfter(s, env.runId, arrivals).conversation;
            && IndexOf(session, id).Some? && IndexOf(session, answer).Some?
            && IndexOf(session, id).value < IndexOf(session, answer).value
  {
    hide HasOwnIds, Effective, ReplyKinds, DropsText, G.OwnKinds, P.StateAfter, PersistAll, RunKinds, AfterTurns, TurnLimit, Shown,
      Lists, IsVisible, IndexOf, IdsOf, Produced, IsTraced;
    SessionOfRun(env, s, arrivals);
    ListingIsListed(env, s.conversation);
    IsARun(env, s.conversation);
    RunIsTraced(env, TurnLimit(env));
    AnswerIsListed(s.conversation, RunEnd(env), k, answer);
    VisibleStandsFirst(s.conversation, RunEnd(env).work.pieces, Listing(Ending(env)), id, answer);
  }

  lemma {:induction false} AnswerIsListed(base: seq<Message>, l: Loop, k: nat, answer: string)
    requires IsTraced(l) && HasOwnIds(base, l) && k < |l.rounds| && answer in IdsOf(l.rounds[k].executed)
    ensures IndexOf(Produced(l.rounds), answer).Some? && !IsVisible(Shown(l.work.pieces), answer)
  {
    hide IdsOf, IndexOf, Shown, Produced, IsTrue, IsRoundOf, IsStream, IsVisible;
    assert IdsOf(l.rounds[k].executed) !! IdsOf(Shown(l.work.pieces));
    if IsVisible(Shown(l.work.pieces), answer) {
      VisibleIsShown(Shown(l.work.pieces), answer);
    }
    FoundExactlyWhen(Produced(l.rounds), answer);
    IdsConcat(l.rounds[k].turn, l.rounds[k].executed);
    assert FromRound(l.rounds, k, answer);
    assert l.rounds[..|l.rounds|] == l.rounds;
    ProducedFrom(l.rounds, |l.rounds|, answer);
  }

  /** A run that its deadline cuts off, or that breaks off anywhere else: the session ends as it was, then
      every message that was visible until then, once and as it was last shown, exactly when none of them
      drops a text. `env` is the run as it would have gone on. */
  lemma {:induction false} CutRunIsStored(env: Env, cut: seq<Piece>, s: P.State, arrivals: seq<P.Arrival>, ending: Kind)
    requires env.deltas && HasOwnIds(s.conversation, RunEnd(env)) && IsCut(cut, RunEnd(env).work.pieces)
    requires ending == Finish([]) || ending.Error?
    requires Effective(G.OwnKinds(env.runId, arrivals)) == RunKinds(cut, true) + if ending.Finish? then [ending] else []
    ensures HoldsRun(s.conversation, P.StateAfter(s, env.runId, arrivals).conversation, Shown(cut), []) <==> !DropsText(Shown(cut))
    ensures !DropsText(Shown(RunEnd(env).work.pieces)) ==> !DropsText(Shown(cut))
  {
    hide HasOwnIds, Effective, HoldsRun, DropsText, G.OwnKinds, P.StateAfter, PersistAll, RunKinds, AfterTurns, TurnLimit, Shown, IsCut;
    G.SessionIsFoldOfOwnEvents(s, env.runId, arrivals);
    PersistEffective(s.conversation, G.OwnKinds(env.runId, arrivals));
    EndingIsFold(s.conversation, RunKinds(cut, true), ending);
    IsARun(env, s.conversation);
    CutRunIsStoredExactlyWhen(s.conversation, cut, RunEnd(env).work.pieces);
  }
}
