/** What a counter shared by several threads means for the run: its log, its stored session, and the
    client that follows it. */
module SharedRuns {
  import opened Wrappers
  import opened Events
  import opened RunEvents
  import opened Logs
  import opened ProviderTurns
  import opened RunPieces
  import opened SharedCounter
  import opened Pump
  import opened PumpGuarantees
  import A = AgentLoop
  import C = Codec
  import D = Delivery
  import DG = DeliveryGuarantees
  import RG = RunGuarantees
  import RS = RunStorage

  // ---------------------------------------------------------------- the log

  lemma {:induction false} FirstTerminalArrives(runId: RunId, arrivals: seq<Arrival>) returns (k: nat)
    requires SawOwnTerminal(runId, arrivals)
    ensures IsFirstOwnTerminal(runId, arrivals, k)
  {
    var n := |arrivals| - 1;
    assert forall i :: 0 <= i < n ==> arrivals[..n][i] == arrivals[i];
    if SawOwnTerminal(runId, arrivals[..n]) {
      k := FirstTerminalArrives(runId, arrivals[..n]);
      assert arrivals[..n][..k] == arrivals[..k];
    } else {
      k := n;
    }
  }

  lemma {:induction false} OutputIsNumbered(runId: RunId, sent: seq<Slip>)
    ensures AllNumbered(Output(runId, sent))
  {
  }

  lemma {:induction false} LogKeepsOrder(runId: RunId, arrivals: seq<Arrival>)
    requires AllNumbered(ArrivingFor(runId, runId, arrivals))
    requires forall e :: e in ArrivingFor(runId, runId, arrivals) ==> e.seqNo != Some(U64_MAX)
    ensures Ordered(EntriesOf(runId, DispatchesOf(runId, arrivals))) <==> Ordered(ArrivingFor(runId, runId, arrivals))
  {
    hide ArrivingFor, Shifted, EntriesOf, DispatchesOf, SawOwnTerminal, HasTerminal, FirstTerminal, Ascending, IsFirstOwnTerminal;
    var events := ArrivingFor(runId, runId, arrivals);
    if SawOwnTerminal(runId, arrivals) {
      var k := FirstTerminalArrives(runId, arrivals);
      LogKeepsOrderAt(runId, arrivals, k);
    } else {
      OwnLogIsShifted(runId, arrivals);
      NothingToShift(runId, arrivals);
    }
  }

  lemma {:induction false} LogKeepsOrderAt(runId: RunId, arrivals: seq<Arrival>, k: nat)
    requires IsFirstOwnTerminal(runId, arrivals, k)
    requires AllNumbered(ArrivingFor(runId, runId, arrivals))
    requires forall e :: e in ArrivingFor(runId, runId, arrivals) ==> e.seqNo != Some(U64_MAX)
    ensures Ordered(EntriesOf(runId, DispatchesOf(runId, arrivals))) <==> Ordered(ArrivingFor(runId, runId, arrivals))
  {
    hide ArrivingFor, Shifted, EntriesOf, DispatchesOf, SawOwnTerminal, HasTerminal, FirstTerminal, Ascending;
    var own, e, rest := ArrivingFor(runId, runId, arrivals[..k]), arrivals[k].event, ArrivingFor(runId, runId, arrivals[k + 1..]);
    OwnLogAroundTerminal(runId, arrivals, k);
    FirstTerminalIsAt(own, [e], rest);
    var events := own + [e] + rest;
    assert events[|own|] == e && forall i :: 0 <= i < |own| ==> events[i] == own[i];
    OwnLogIsOrdered(runId, arrivals, k);
  }

  /** From the shared counter to the log of the server: a run is logged in the order that readers rely on
      exactly when no thread overtakes another before the terminal event is out. */
  lemma {:induction false} SharedRunIsLoggedInOrderExactlyWhen(runId: RunId, arrivals: seq<Arrival>, actions: seq<Action>, s: Counter)
    requires Execute(actions) == Some(s) && s.taken < U64_MAX
    requires ArrivingFor(runId, runId, arrivals) == Output(runId, s.sent)
    ensures |Sends(actions)| == |s.sent| && UntilTerminal(runId, actions, s) <= |actions|
    ensures Ordered(EntriesOf(runId, DispatchesOf(runId, arrivals)))
            <==> !Overtakes(actions[..UntilTerminal(runId, actions, s)])
  {
    hide Execute, Overtakes, UntilTerminal, Ordered, EntriesOf, DispatchesOf, ArrivingFor, Wrap;
    OutputIsNumbered(runId, s.sent);
    NumbersFit(runId, actions, s);
    LogKeepsOrder(runId, arrivals);
    OutputIsOrderedExactlyWhen(runId, actions, s);
  }

  lemma {:induction false} NumbersFit(runId: RunId, actions: seq<Action>, s: Counter)
    requires Execute(actions) == Some(s) && s.taken < U64_MAX
    ensures forall e :: e in Output(runId, s.sent) ==> e.seqNo.Some? && e.seqNo.value < U64_MAX
    ensures forall i :: 0 <= i < |s.sent| ==> Output(runId, s.sent)[i].seqNo == Some(s.sent[i].nth)
  {
    hide Execute;
    SentAreNumbers(actions, s);
  }

  /** When a worker outlives its run: behind a terminal that a diff has pushed one number up, the log goes
      on rising exactly when nothing of the run follows. */
  lemma {:induction false} OutlivingWorkerCollidesExactlyWhen(runId: RunId, arrivals: seq<Arrival>, k: nat,
                                                              actions: seq<Action>, s: Counter)
    requires Execute(actions) == Some(s) && s.taken < U64_MAX && s.held == map[] && !Overtakes(actions)
    requires ArrivingFor(runId, runId, arrivals) == Output(runId, s.sent)
    requires IsFirstOwnTerminal(runId, arrivals, k) && !SawOwnTerminal(runId, arrivals[k + 1..]) && arrivals[k].hasDiff
    ensures Ascending(EntriesOf(runId, DispatchesOf(runId, arrivals)))
            <==> ArrivingFor(runId, runId, arrivals[k + 1..]) == []
  {
    hide Execute, Overtakes, EntriesOf, DispatchesOf, ArrivingFor, Ascending, SawOwnTerminal, Wrap;
    var own, e, rest := ArrivingFor(runId, runId, arrivals[..k]), arrivals[k].event, ArrivingFor(runId, runId, arrivals[k + 1..]);
    OutputIsNumbered(runId, s.sent);
    OutputRisesExactlyWhen(runId, actions, s);
    LateEventsKeepOrderExactlyWhen(runId, arrivals, k);
    OwnLogAroundTerminal(runId, arrivals, k);
    NumbersRiseExactlyWhen(actions, s);
    NumbersFit(runId, actions, s);
    assert Output(runId, s.sent)[|own|] == e && e in Output(runId, s.sent);
    RisingIsConsecutive(actions, s, |own|);
    if rest != [] {
      assert Output(runId, s.sent)[|own| + 1] == rest[0];
      RisingIsConsecutive(actions, s, |own| + 1);
      assert rest[0] in rest && SeqOf(rest[0]) == SeqOf(e) + 1;
    }
  }

  // ---------------------------------------------------------------- the stored session

  function Kinds(sent: seq<Slip>): seq<Kind> {
    if sent == [] then [] else Kinds(sent[..|sent| - 1]) + [sent[|sent| - 1].kind]
  }

  lemma {:induction false} ArrivedAreSent(runId: RunId, arrivals: seq<Arrival>, sent: seq<Slip>)
    requires ArrivingFor(runId, runId, arrivals) == Output(runId, sent)
    ensures OwnKinds(runId, arrivals) == Kinds(sent)
    decreases |arrivals|
  {
    hide Wrap;
    if arrivals != [] {
      var n, m := |arrivals| - 1, |sent| - 1;
      var e := arrivals[n].event;
      if BelongsToRun(e, runId) {
        assert ArrivingFor(runId, runId, arrivals) == ArrivingFor(runId, runId, arrivals[..n]) + [e];
        assert e == Output(runId, sent)[m] == EventOf(runId, sent[m]);
        assert Output(runId, sent[..m]) == Output(runId, sent)[..m];
        ArrivedAreSent(runId, arrivals[..n], sent[..m]);
      } else {
        assert ArrivingFor(runId, runId, arrivals) == ArrivingFor(runId, runId, arrivals[..n]);
        ArrivedAreSent(runId, arrivals[..n], sent);
        assert OwnKinds(runId, arrivals) == OwnKinds(runId, arrivals[..n]);
      }
    }
  }

  lemma {:induction false} WorkersAreNotStored(sent: seq<Slip>)
    requires forall i :: 0 <= i < |sent| && sent[i].sender != LOOP ==> sent[i].kind.SubAgentSession?
    ensures Effective(Kinds(sent)) == Effective(KindsBy(LOOP, sent))
  {
    if sent != [] {
      var n := |sent| - 1;
      WorkersAreNotStored(sent[..n]);
      assert Kinds(sent)[..n] == Kinds(sent[..n]) by { KindsCount(sent[..n]); }
      KindsCount(sent);
      EffectiveConcat(Kinds(sent[..n]), [sent[n].kind]);
      EffectiveConcat(KindsBy(LOOP, sent[..n]), [sent[n].kind]);
      if sent[n].sender != LOOP {
        NoneEffective([sent[n].kind]);
        assert KindsBy(LOOP, sent) == KindsBy(LOOP, sent[..n]);
      }
    }
  }

  lemma {:induction false} KindsCount(sent: seq<Slip>)
    ensures |Kinds(sent)| == |sent|
  {
    if sent != [] {
      KindsCount(sent[..|sent| - 1]);
    }
  }

  /** The stored session does not depend on the numbers: whatever the workers of a run send between the
      events of its loop, and whoever overtakes whom, it holds the run exactly when no attempt drops a
      text for tool requests. */
  lemma {:induction false} SharedRunIsStoredExactlyWhen(env: A.Env, state: State, arrivals: seq<Arrival>, actions: seq<Action>, s: Counter)
    requires env.deltas && RG.HasOwnIds(state.conversation, A.RunEnd(env))
    requires Execute(actions) == Some(s) && KindsBy(LOOP, s.sent) == A.ReplyKinds(env)
    requires forall i :: 0 <= i < |s.sent| && s.sent[i].sender != LOOP ==> s.sent[i].kind.SubAgentSession?
    requires ArrivingFor(env.runId, env.runId, arrivals) == Output(env.runId, s.sent)
    ensures var shown := Shown(A.RunEnd(env).work.pieces);
            RS.HoldsRun(state.conversation, StateAfter(state, env.runId, arrivals).conversation, shown, RG.Listing(A.Ending(env)))
            <==> !C.DropsText(shown)
  {
    hide Execute, KindsBy, A.ReplyKinds, Output, ArrivingFor, StateAfter, RG.HasOwnIds, A.RunEnd, RS.HoldsRun, C.DropsText, Shown,
      RG.Listing, A.Ending, Effective, OwnKinds;
    ArrivedAreSent(env.runId, arrivals, s.sent);
    WorkersAreNotStored(s.sent);
    RG.WholeRunIsStoredExactlyWhen(env, state, arrivals);
  }

  // ---------------------------------------------------------------- a finish that is overtaken

  lemma {:induction false} OneMoreStep(actions: seq<Action>, s: Counter, a: Action)
    requires Execute(actions) == Some(s) && Enabled(s, a)
    ensures Execute(actions + [a]) == Some(Next(s, a))
  {
    assert (actions + [a])[..|actions|] == actions;
  }

  /** The loop sends these, one after another. */
  function InTurn(kinds: seq<Kind>): seq<Action> {
    if kinds == [] then []
    else InTurn(kinds[..|kinds| - 1]) + [TakeNumber(LOOP, kinds[|kinds| - 1]), SendEvent(LOOP)]
  }

  lemma {:induction false} SentInTurn(runId: RunId, kinds: seq<Kind>) returns (s: Counter)
    ensures Execute(InTurn(kinds)) == Some(s) && s.held == map[] && s.taken == |s.sent| == |kinds|
    ensures Output(runId, s.sent) == Numbered(runId, 1, kinds)
  {
    if kinds == [] {
      s := FRESH;
    } else {
      var n := |kinds| - 1;
      var before := SentInTurn(runId, kinds[..n]);
      hide Execute, Wrap;
      var take, send := TakeNumber(LOOP, kinds[n]), SendEvent(LOOP);
      OneMoreStep(InTurn(kinds[..n]), before, take);
      OneMoreStep(InTurn(kinds[..n]) + [take], Next(before, take), send);
      s := Next(Next(before, take), send);
      assert InTurn(kinds) == InTurn(kinds[..n]) + [take] + [send];
      assert Output(runId, s.sent) == Output(runId, before.sent) + [EventOf(runId, s.sent[n])];
    }
  }

  /** The loop takes the number of its finish, a worker takes the next and sends first. */
  function OvertakenFinish(earlier: seq<Kind>, session: Kind, finish: Kind): seq<Action> {
    InTurn(earlier) + [TakeNumber(LOOP, finish)] + [TakeNumber(1, session)] + [SendEvent(1)] + [SendEvent(LOOP)]
  }

  function OvertakenLog(runId: RunId, earlier: seq<Kind>, session: Kind, finish: Kind): seq<Event> {
    var n := |earlier| + 1;
    Numbered(runId, 1, earlier) + [Event(Some(runId), Some(Wrap(n + 1)), session)] + [Event(Some(runId), Some(Wrap(n)), finish)]
  }

  lemma {:induction false} OvertakingRun(runId: RunId, earlier: seq<Kind>, session: Kind, finish: Kind) returns (s: Counter)
    ensures Execute(OvertakenFinish(earlier, session, finish)) == Some(s)
    ensures s.held == map[] && s.taken == |earlier| + 2 && Output(runId, s.sent) == OvertakenLog(runId, earlier, session, finish)
  {
    hide Execute, Wrap, Numbered;
    var s0 := SentInTurn(runId, earlier);
    var a1, a2, a3, a4 := TakeNumber(LOOP, finish), TakeNumber(1, session), SendEvent(1), SendEvent(LOOP);
    var s1 := Next(s0, a1);
    var s2 := Next(s1, a2);
    var s3 := Next(s2, a3);
    s := Next(s3, a4);
    OneMoreStep(InTurn(earlier), s0, a1);
    OneMoreStep(InTurn(earlier) + [a1], s1, a2);
    OneMoreStep(InTurn(earlier) + [a1] + [a2], s2, a3);
    OneMoreStep(InTurn(earlier) + [a1] + [a2] + [a3], s3, a4);
    var n := |earlier|;
    assert s.sent == s0.sent + [Slip(1, n + 2, session)] + [Slip(LOOP, n + 1, finish)];
    assert Output(runId, s.sent)[..n] == Output(runId, s0.sent);
  }

  lemma {:induction false} PublishedInTurn(log: seq<Event>) returns (actions: seq<D.Action>)
    ensures D.Execute(actions) == Some(D.Pipeline(log, false, []))
  {
    if log == [] {
      actions := [];
    } else {
      var n := |log| - 1;
      actions := PublishedInTurn(log[..n]);
      hide D.Execute;
      DG.ExecuteMore(actions, D.AppendStep(log[n]));
      DG.ExecuteMore(actions + [D.AppendStep(log[n])], D.PublishStep);
      assert D.Next(D.Pipeline(log, true, []), D.PublishStep).readers == [];
      actions := actions + [D.AppendStep(log[n])] + [D.PublishStep];
      assert log[..n] + [log[n]] == log;
    }
  }

  /** A reader that has all of an open log and follows it. */
  function Following(log: seq<Event>, last: U64): D.Reader {
    D.Reader(Some(last), D.Live, true, [], last, [], |log|, 0, |log|, |log|, false)
  }

  lemma {:induction false} FollowerConnects(log: seq<Event>, last: U64) returns (actions: seq<D.Action>)
    requires After(log, Some(last)) == [] && !HasTerminal(log)
    ensures D.Execute(actions) == Some(D.Pipeline(log, false, [Following(log, last)]))
  {
    hide D.Execute, HasTerminal, After;
    actions := PublishedInTurn(log);
    var s0 := D.Pipeline(log, false, []);
    DG.ExecuteMore(actions, D.ConnectStep(Some(last)));
    actions := actions + [D.ConnectStep(Some(last))];
    var connected := D.Connect(Some(last), |log|);
    assert D.Next(s0, D.ConnectStep(Some(last))) == D.Pipeline(log, false, [connected]);
    DG.ExecuteMore(actions, D.LoadStep(0));
    actions := actions + [D.LoadStep(0)];
    var loaded := D.Load(connected, log);
    assert [connected][0 := loaded] == [loaded];
    DG.ExecuteMore(actions, D.CheckStep(0));
    actions := actions + [D.CheckStep(0)];
    assert [loaded][0 := D.CheckTerminal(loaded, log)] == [Following(log, last)];
  }

  /** One event appended, published and taken from the channel by the one reader there is. */
  lemma {:induction false} FollowerTakes(actions: seq<D.Action>, log: seq<Event>, rd: D.Reader, e: Event) returns (more: seq<D.Action>)
    requires D.Execute(actions) == Some(D.Pipeline(log, false, [rd])) && rd.phase.Live? && rd.attached && rd.queue == []
    ensures D.Execute(more)
            == Some(D.Pipeline(log + [e], false, [D.Receive(rd.(queue := [e], attached := !IsTerminal(e)), true)]))
  {
    hide D.Execute, D.Receive;
    var append := D.AppendStep(e);
    DG.ExecuteMore(actions, append);
    DG.ExecuteMore(actions + [append], D.PublishStep);
    var s := D.Pipeline(log + [e], true, [rd]);
    var holding := rd.(queue := [e], attached := !IsTerminal(e));
    assert D.PublishTo(rd, e) == holding;
    assert s.log[|s.log| - 1] == e;
    assert D.Next(s, D.PublishStep).readers == [holding];
    DG.ExecuteMore(actions + [append] + [D.PublishStep], D.ReceiveStep(0, true));
    more := actions + [append] + [D.PublishStep] + [D.ReceiveStep(0, true)];
    assert [holding][0 := D.Receive(holding, true)] == [D.Receive(holding, true)];
  }

  lemma {:induction false} OvertakenOrder(shown: seq<Event>, first: Event, second: Event)
    requires first.seqNo.Some? && second.seqNo.Some? && second.seqNo.value <= first.seqNo.value
    ensures !Ascending(shown + [first] + [second])
  {
    var log := shown + [first] + [second];
    assert log[|shown|] == first && log[|shown| + 1] == second;
  }

  lemma {:induction false} OwedBoth(shown: seq<Event>, first: Event, second: Event, last: U64)
    requires !HasTerminal(shown)
    requires After(shown, Some(last)) == [] && !IsTerminal(first) && IsTerminal(second)
    requires IsAfter(first, Some(last)) && IsAfter(second, Some(last)) && second.seqNo.value <= first.seqNo.value
    ensures var log := shown + [first] + [second];
            && HasTerminal(log) && !Ordered(log) && Target(log, Some(last)) == [first, second]
  {
    hide Ascending;
    var log := shown + [first] + [second];
    OvertakenOrder(shown, first, second);
    assert forall i :: 0 <= i <= |shown| ==> !IsTerminal(log[i]);
    assert IsTerminal(log[|shown| + 1]);
    assert log[..|log|] == log && End(log) == |log|;
    AfterStep(log, |shown|, Some(last));
    AfterStep(log, |shown| + 1, Some(last));
    assert log[..|shown|] == shown;
  }

  lemma {:induction false} FollowerMisses(shown: seq<Event>, first: Event, second: Event, last: U64)
      returns (steps: seq<D.Action>, rd: D.Reader)
    requires !HasTerminal(shown) && After(shown, Some(last)) == [] && !IsTerminal(first) && IsTerminal(second)
    requires IsAfter(first, Some(last)) && second.seqNo.Some? && second.seqNo.value <= first.seqNo.value
    ensures D.Execute(steps) == Some(D.Pipeline(shown + [first] + [second], false, [rd]))
    ensures rd.after == Some(last) && rd.sent == [first] && rd.phase == D.Ended(D.ChannelClosed) && !rd.overflowed
  {
    hide D.Execute, HasTerminal, After;
    steps := FollowerConnects(shown, last);
    rd := Following(shown, last);
    steps := FollowerTakes(steps, shown, rd, first);
    rd := D.Receive(rd.(queue := [first]), true);
    assert rd.sent == [first] && rd.lastSeq == first.seqNo.value && rd.queue == [];
    steps := FollowerTakes(steps, shown + [first], rd, second);
    rd := D.Receive(rd.(queue := [second], attached := false), true);
    assert rd.sent == [first] && rd.queue == [] && rd.phase.Live? && !rd.attached;
    var log := shown + [first] + [second];
    DG.ExecuteMore(steps, D.NoticeClosedStep(0));
    steps := steps + [D.NoticeClosedStep(0)];
    var ended := rd.(phase := D.Ended(D.ChannelClosed));
    assert [rd][0 := ended] == [ended];
    rd := ended;
  }

  /** However a run has gone until then: when a worker overtakes its finish, a reader that follows the log
      is sent the worker's event, skips the finish and ends without it. What it has seen is above the
      finish's number, so that no reconnect will bring it (`NothingBelowCheckpointIsSent`). */
  lemma {:induction false} OvertakenFinishIsLost(runId: RunId, earlier: seq<Kind>, session: Kind, finish: Kind)
      returns (actions: seq<Action>, s: Counter, steps: seq<D.Action>, rd: D.Reader)
    requires |earlier| + 2 <= U64_MAX && (finish.Finish? || finish.Error?) && session.SubAgentSession?
    requires forall i :: 0 <= i < |earlier| ==> !earlier[i].Finish? && !earlier[i].Error?
    ensures Execute(actions) == Some(s) && s.held == map[] && Overtakes(actions)
    ensures D.Execute(steps) == Some(D.Pipeline(Output(runId, s.sent), false, [rd]))
    ensures rd.phase == D.Ended(D.ChannelClosed) && !rd.overflowed
    ensures var log, n := Output(runId, s.sent), |earlier| + 1;
            && |log| == n + 1 && log[n].kind == finish && log[n].seqNo == Some(n) && log[n - 1].seqNo == Some(n + 1)
            && rd.after == Some(n - 1) && rd.sent == [log[n - 1]] && Target(log, rd.after) == [log[n - 1], log[n]]
            && !Ordered(log)
  {
    hide Execute, D.Execute, Overtakes, OvertakenFinish, Numbered, Target, Ordered, Ascending, After, HasTerminal;
    var n := |earlier| + 1;
    var shown, first, second := Numbered(runId, 1, earlier), Event(Some(runId), Some(n + 1), session), Event(Some(runId), Some(n), finish);
    actions := OvertakenFinish(earlier, session, finish);
    s := OvertakingRun(runId, earlier, session, finish);
    assert Output(runId, s.sent) == shown + [first] + [second];
    OvertakenOrder(shown, first, second);
    OutputRisesExactlyWhen(runId, actions, s);
    EarlierIsCovered(runId, earlier);
    steps, rd := FollowerMisses(shown, first, second, n - 1);
    OwedBoth(shown, first, second, n - 1);
  }

  lemma {:induction false} EarlierIsCovered(runId: RunId, earlier: seq<Kind>)
    requires |earlier| <= U64_MAX && forall i :: 0 <= i < |earlier| ==> !earlier[i].Finish? && !earlier[i].Error?
    ensures !HasTerminal(Numbered(runId, 1, earlier)) && After(Numbered(runId, 1, earlier), Some(|earlier|)) == []
  {
    hide Numbered;
    NumberedFromOne(runId, earlier);
    NothingAfter(Numbered(runId, 1, earlier), Some(|earlier|));
  }
}
