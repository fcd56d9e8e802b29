/** What the delivery protocol promises its clients, for every interleaving of its steps. */
module DeliveryGuarantees {
  import opened Wrappers
  import opened Events
  import opened RunEvents
  import opened Logs
  import opened Delivery

  ghost predicate StrictlyIncreasing(events: seq<Event>) {
    forall i, j :: 0 <= i < j < |events|
      ==> events[i].seqNo.Some? && events[j].seqNo.Some? && events[i].seqNo.value < events[j].seqNo.value
  }

  /** At every moment of every run, each reader has been sent a gapless, in-order, duplicate-free
      prefix of the log entries above its checkpoint, never reaching past the first terminal. */
  lemma {:induction false} SentIsGaplessPrefix(actions: seq<Action>, s: Pipeline, r: nat)
    requires Execute(actions) == Some(s) && Ordered(s.log)
    requires r < |s.readers| && BelowTerminal(s.readers[r].after, s.log)
    ensures s.readers[r].sent <= Target(s.log, s.readers[r].after)
    ensures StrictlyIncreasing(s.readers[r].sent)
  {
    var rd, log := s.readers[r], s.log;
    ReachableInv(actions, s);
    assert ReaderInv(log, Published(s), rd);
    SentIsOwed(log, rd);
    var owed := Target(log, rd.after);
    AfterIsIncreasing(log[..End(log)], rd.after);
    AfterMembers(log[..End(log)], rd.after);
    assert forall i :: 0 <= i < |rd.sent| ==> rd.sent[i] == owed[i] && owed[i] in owed;
  }

  lemma SentIsOwed(log: seq<Event>, rd: Reader)
    requires ProgressInv(log, rd) && BelowTerminal(rd.after, log)
    ensures rd.sent <= Target(log, rd.after)
  {
    hide After;
    var t := FirstTerminal(log);
    PrefixAfter(log, t, End(log), rd.after);
    if rd.phase.Live? || rd.phase == Ended(ChannelClosed) {
      PrefixAfter(log, Position(rd), End(log), rd.after);
    } else if rd.phase == Ended(TerminalInLog) {
      PrefixAfter(log, rd.loadedAt, End(log), rd.after);
    }
  }

  /** When an undisturbed stream is over it has delivered everything through the terminal event in
      exactly two cases: the terminal was already in the log when it was loaded, or it was not
      there yet at the check and the reader's channel never overflowed. A terminal appended
      between the load and the check ends the stream early. */
  lemma {:induction false} CompleteExactlyWhen(actions: seq<Action>, s: Pipeline, r: nat)
    requires Execute(actions) == Some(s) && Ordered(s.log)
    requires r < |s.readers| && BelowTerminal(s.readers[r].after, s.log)
    requires s.readers[r].phase.Ended? && s.readers[r].phase.cause != Disconnected
    requires HasTerminal(s.log)
    ensures var rd := s.readers[r];
            var t := FirstTerminal(s.log);
            rd.sent == Target(s.log, rd.after) <==> t < rd.loadedAt || (rd.checkedAt <= t && !rd.overflowed)
  {
    var rd, log := s.readers[r], s.log;
    ReachableInv(actions, s);
    assert ReaderInv(log, Published(s), rd);
    var t := FirstTerminal(log);
    TerminalIsOwed(log, rd.after);
    if rd.phase.cause == TerminalInLog {
      PrefixAfter(log, rd.loadedAt, t, rd.after);
    } else if rd.phase.cause == ChannelClosed {
      PrefixAfter(log, Position(rd), t, rd.after);
    }
  }

  lemma ExecuteMore(actions: seq<Action>, a: Action)
    ensures Execute(actions + [a])
            == match Execute(actions)
               case None => None
               case Some(s) => if Enabled(s, a) then Some(Next(s, a)) else None
  {
    assert (actions + [a])[..|actions|] == actions;
  }

  lemma LoneTerminal(fin: Event)
    requires fin.kind.Finish? && fin.seqNo == Some(1)
    ensures HasTerminal([fin]) && Ordered([fin]) && Target([fin], None) == [fin]
  {
    assert IsTerminal([fin][0]);
    assert FirstTerminal([fin]) == 0 && [fin][..1] == [fin];
    AfterStep([fin], 0, None);
  }

  lemma MissedRun(fin: Event, s3: Pipeline)
    requires s3 == Pipeline([fin], true, [Load(Connect(None, 0), [])])
    ensures Execute([ConnectStep(None), LoadStep(0), AppendStep(fin)]) == Some(s3)
  {
    var a1, a2, a3 := ConnectStep(None), LoadStep(0), AppendStep(fin);
    var s1 := Pipeline([], false, [Connect(None, 0)]);
    var s2 := Pipeline([], false, [Load(Connect(None, 0), [])]);
    ExecuteMore([], a1);
    assert [] + [a1] == [a1] && Next(INITIAL, a1) == s1;
    ExecuteMore([a1], a2);
    assert [a1] + [a2] == [a1, a2] && Next(s1, a2) == s2;
    ExecuteMore([a1, a2], a3);
    assert [a1, a2] + [a3] == [a1, a2, a3] && Next(s2, a3) == s3;
  }

  /** A terminal event that lands between a reader's load and its check is never delivered to it. */
  lemma {:induction false} TerminalBetweenLoadAndCheckIsMissed(fin: Event)
    requires fin.kind.Finish? && fin.seqNo == Some(1)
    ensures var missed := Load(Connect(None, 0), []).(phase := Ended(TerminalInLog), checkedAt := 1);
            && Execute([ConnectStep(None), LoadStep(0), AppendStep(fin), CheckStep(0)])
               == Some(Pipeline([fin], true, [missed]))
            && Ordered([fin]) && missed.sent == [] && Target([fin], None) == [fin]
  {
    var a1, a2, a3, a4 := ConnectStep(None), LoadStep(0), AppendStep(fin), CheckStep(0);
    var rd := Load(Connect(None, 0), []);
    var s3 := Pipeline([fin], true, [rd]);
    NothingLoaded();
    hide *;
    MissedRun(fin, s3);
    LoneTerminal(fin);
    ExecuteMore([a1, a2, a3], a4);
    assert [a1, a2, a3] + [a4] == [a1, a2, a3, a4];
    CheckFindsTerminal(fin, rd);
  }

  lemma NothingLoaded()
    ensures var rd := Load(Connect(None, 0), []);
            rd.phase == Replaying([]) && rd.sent == []
  {
  }

  lemma CheckFindsTerminal(fin: Event, rd: Reader)
    requires HasTerminal([fin]) && rd.phase == Replaying([])
    ensures var s := Pipeline([fin], true, [rd]);
            && Enabled(s, CheckStep(0))
            && Next(s, CheckStep(0)) == Pipeline([fin], true, [rd.(phase := Ended(TerminalInLog), checkedAt := 1)])
  {
    hide HasTerminal;
    var checked := CheckTerminal(rd, [fin]);
    assert [rd][0 := checked] == [checked];
  }

  // ---------------------------------------------------------------- who overflows

  /** A publishing step that finds a listening reader with 64 events waiting. */
  ghost predicate FindsFull(actions: seq<Action>, k: nat, r: nat) {
    && k < |actions| && actions[k].PublishStep? && Execute(actions[..k]).Some?
    && var s := Execute(actions[..k]).value;
       r < |s.readers| && s.readers[r].attached && !s.readers[r].phase.Ended? && |s.readers[r].queue| == 64
  }

  ghost predicate EverFull(actions: seq<Action>, r: nat) {
    exists k :: 0 <= k < |actions| && FindsFull(actions, k, r)
  }

  lemma {:induction false} OneMoreFull(actions: seq<Action>, r: nat)
    requires actions != []
    ensures EverFull(actions, r) <==> EverFull(actions[..|actions| - 1], r) || FindsFull(actions, |actions| - 1, r)
  {
    hide Execute;
    var n := |actions| - 1;
    forall k | 0 <= k < n
      ensures FindsFull(actions, k, r) <==> FindsFull(actions[..n], k, r)
    {
      assert actions[..n][..k] == actions[..k];
    }
  }

  lemma {:induction false} NoReaderWaitsFull(actions: seq<Action>, s: Pipeline, r: nat)
    requires Execute(actions) == Some(s) && |s.readers| <= r
    ensures !EverFull(actions, r)
  {
    if actions != [] {
      var n := |actions| - 1;
      var before := Execute(actions[..n]).value;
      hide Execute;
      ReadersStay(before, actions[n]);
      NoReaderWaitsFull(actions[..n], before, r);
      OneMoreFull(actions, r);
    }
  }

  lemma {:induction false} ReadersStay(s: Pipeline, a: Action)
    requires Enabled(s, a)
    ensures |s.readers| <= |Next(s, a).readers| <= |s.readers| + 1
    ensures |s.readers| < |Next(s, a).readers| ==> a.ConnectStep? && !Next(s, a).readers[|s.readers|].overflowed
                                                   && Next(s, a).readers[|s.readers|].queue == []
  {
    hide HasTerminal, After, Deliver, PublishTo;
  }

  /** In every run a reader overflows exactly when a publishing step finds 64 events waiting in its
      channel, and no more than that ever wait. */
  lemma {:induction false} OverflowsExactlyWhen(actions: seq<Action>, s: Pipeline, r: nat)
    requires Execute(actions) == Some(s) && r < |s.readers|
    ensures |s.readers[r].queue| <= 64
    ensures s.readers[r].overflowed <==> EverFull(actions, r)
  {
    var n := |actions| - 1;
    var before := Execute(actions[..n]).value;
    hide Execute;
    OneMoreFull(actions, r);
    ReadersStay(before, actions[n]);
    if r < |before.readers| {
      OverflowsExactlyWhen(actions[..n], before, r);
      StepOverflows(before, actions[n], r);
    } else {
      NoReaderWaitsFull(actions[..n], before, r);
    }
  }

  lemma {:induction false} StepOverflows(s: Pipeline, a: Action, r: nat)
    requires Enabled(s, a) && r < |s.readers| && |s.readers[r].queue| <= 64
    ensures |Next(s, a).readers[r].queue| <= 64
    ensures var rd := s.readers[r];
            Next(s, a).readers[r].overflowed
            <==> rd.overflowed || (a.PublishStep? && rd.attached && !rd.phase.Ended? && |rd.queue| == 64)
  {
    hide HasTerminal, After, IsAfter, IsTerminal, Raise;
  }

  /** A reader that is never 64 events behind and has checked the log before the run's terminal was
      written gets everything, unless its client goes away. */
  lemma {:induction false} KeepingUpIsComplete(actions: seq<Action>, s: Pipeline, r: nat)
    requires Execute(actions) == Some(s) && Ordered(s.log)
    requires r < |s.readers| && BelowTerminal(s.readers[r].after, s.log)
    requires s.readers[r].phase.Ended? && s.readers[r].phase.cause != Disconnected
    requires HasTerminal(s.log) && s.readers[r].checkedAt <= FirstTerminal(s.log)
    requires forall k :: 0 <= k < |actions| ==> !FindsFull(actions, k, r)
    ensures s.readers[r].sent == Target(s.log, s.readers[r].after)
  {
    hide Execute, FindsFull, Ordered, Target;
    OverflowsExactlyWhen(actions, s, r);
    CompleteExactlyWhen(actions, s, r);
  }

  // ---------------------------------------------------------------- whatever the order of the log

  predicate IsAboveCheckpoint(rd: Reader) {
    && (forall e :: e in rd.sent ==> IsAfter(e, rd.after))
    && (rd.phase.Replaying? ==> forall e :: e in rd.phase.rest ==> IsAfter(e, rd.after))
    && Floor(rd.after) <= rd.lastSeq
  }

  /** In no run of the protocol, even over a log that is out of order, is a reader sent an event whose
      number its checkpoint has passed. */
  lemma {:induction false} NothingBelowCheckpointIsSent(actions: seq<Action>, s: Pipeline, r: nat)
    requires Execute(actions) == Some(s) && r < |s.readers|
    ensures IsAboveCheckpoint(s.readers[r])
  {
    if actions != [] {
      var n := |actions| - 1;
      var before := Execute(actions[..n]).value;
      hide Execute;
      if r < |before.readers| {
        NothingBelowCheckpointIsSent(actions[..n], before, r);
        StepStaysAbove(before, actions[n], r);
      }
    }
  }

  lemma {:induction false} StepStaysAbove(s: Pipeline, a: Action, r: nat)
    requires Enabled(s, a) && r < |s.readers| && IsAboveCheckpoint(s.readers[r])
    ensures IsAboveCheckpoint(Next(s, a).readers[r])
  {
    hide After, HasTerminal, Deliver, IsAfter, TrySend, TrySendOutcome;
    var rd := s.readers[r];
    match a
    case LoadStep(i) => AfterMembers(s.log, rd.after);
    case ReplayStep(i, ok) =>
      if i == r {
        DeliveryStaysAbove(rd.(phase := Replaying(rd.phase.rest[1..])), rd.phase.rest[0], ok);
      }
    case ReceiveStep(i, ok) =>
      if i == r && IsAfter(rd.queue[0], Some(rd.lastSeq)) {
        AboveTheMark(rd, rd.queue[0]);
        DeliveryStaysAbove(rd.(queue := rd.queue[1..], taken := rd.taken + 1), rd.queue[0], ok);
      }
    case _ =>
  }

  lemma {:induction false} DeliveryStaysAbove(rd: Reader, e: Event, ok: bool)
    requires IsAboveCheckpoint(rd) && IsAfter(e, rd.after)
    ensures IsAboveCheckpoint(Deliver(rd, e, ok))
  {
  }

  lemma {:induction false} AboveTheMark(rd: Reader, e: Event)
    requires IsAboveCheckpoint(rd) && IsAfter(e, Some(rd.lastSeq))
    ensures IsAfter(e, rd.after)
  {
  }

  // ---------------------------------------------------------------- reconnecting

  /** One connection of a client: the reader that served it and what reached the client. */
  datatype Link = Link(reader: nat, received: seq<Event>)

  /** A client that reconnects from the largest sequence number it has seen, until it has seen a
      terminal event. What is in flight when a connection breaks may be lost. */
  ghost predicate IsChain(s: Pipeline, links: seq<Link>) {
    && links != []
    && links[0].reader < |s.readers|
    && links[0].received <= s.readers[links[0].reader].sent
    && (|links| > 1 ==>
          && (forall j :: 0 <= j < |links[0].received| ==> !IsTerminal(links[0].received[j]))
          && IsChain(s, links[1..])
          && s.readers[links[1].reader].after
             == Some(LastSeq(Floor(s.readers[links[0].reader].after), links[0].received)))
  }

  ghost predicate LoadedAfterTerminal(log: seq<Event>, rd: Reader) {
    && FirstTerminal(log) < |log| && FirstTerminal(log) < rd.loadedAt
    && rd.phase.Ended? && rd.phase.cause != Disconnected
  }

  function Received(links: seq<Link>): seq<Event> {
    if links == [] then [] else links[0].received + Received(links[1..])
  }

  /** Reconnecting neither repeats nor skips an event, however the connections broke; and once the
      last connection loaded the log after its terminal event and was not cut, the client holds
      the whole log above its first checkpoint. */
  lemma {:induction false} ReconnectIsExactlyOnce(actions: seq<Action>, s: Pipeline, links: seq<Link>)
    requires Execute(actions) == Some(s) && Ordered(s.log)
    requires IsChain(s, links) && BelowTerminal(s.readers[links[0].reader].after, s.log)
    ensures Received(links) <= Target(s.log, s.readers[links[0].reader].after)
    ensures var last := links[|links| - 1];
            && last.reader < |s.readers|
            && (LoadedAfterTerminal(s.log, s.readers[last.reader]) && last.received == s.readers[last.reader].sent
                ==> Received(links) == Target(s.log, s.readers[links[0].reader].after))
    decreases |links|
  {
    hide Execute, Ordered, StrictlyIncreasing, BelowTerminal, Target, LastSeq;
    var rd := s.readers[links[0].reader];
    SentIsGaplessPrefix(actions, s, links[0].reader);
    if |links| == 1 {
      assert Received(links) == links[0].received;
      if LoadedAfterTerminal(s.log, rd) {
        CompleteExactlyWhen(actions, s, links[0].reader);
      }
    } else {
      var next := s.readers[links[1].reader];
      CheckpointSplitsTarget(s.log, rd.after, links[0].received, next.after);
      assert links[1..][|links| - 2] == links[|links| - 1];
      ReconnectIsExactlyOnce(actions, s, links[1..]);
    }
  }

  lemma {:induction false} NumberedIsAfterNone(events: seq<Event>)
    requires forall i :: 0 <= i < |events| ==> events[i].seqNo.Some?
    ensures After(events, None) == events
  {
    if events != [] {
      NumberedIsAfterNone(events[..|events| - 1]);
    }
  }

  /** A real chain begins with the stream of the reply itself, which is a prefix of the log as it is
      written. What the client had of it and what its reconnects bring is again a gapless prefix of
      the whole log, and all of it under the same condition on the last link. */
  lemma {:induction false} ReplyThenReconnectsIsExactlyOnce(actions: seq<Action>, s: Pipeline, first: seq<Event>, links: seq<Link>)
    requires Execute(actions) == Some(s) && Ordered(s.log)
    requires first <= s.log && forall i :: 0 <= i < |first| ==> first[i].seqNo.Some? && !IsTerminal(first[i])
    requires IsChain(s, links) && s.readers[links[0].reader].after == Some(LastSeq(0, first))
    ensures first + Received(links) <= Target(s.log, None)
    ensures var last := links[|links| - 1];
            && last.reader < |s.readers|
            && (LoadedAfterTerminal(s.log, s.readers[last.reader]) && last.received == s.readers[last.reader].sent
                ==> first + Received(links) == Target(s.log, None))
  {
    hide Execute, Ordered, IsChain, LastSeq, Received, Target;
    FirstIsOwed(s.log, first);
    NoneIsBelowTerminal(s.log);
    CheckpointSplitsTarget(s.log, None, first, Some(LastSeq(0, first)));
    ReconnectIsExactlyOnce(actions, s, links);
  }

  lemma FirstIsOwed(log: seq<Event>, first: seq<Event>)
    requires first <= log && forall i :: 0 <= i < |first| ==> first[i].seqNo.Some? && !IsTerminal(first[i])
    ensures first <= Target(log, None)
  {
    hide After;
    var n := |first|;
    assert log[..n] == first;
    assert n <= FirstTerminal(log) by {
      assert forall i :: 0 <= i < n ==> !IsTerminal(log[i]) by {
        assert forall i :: 0 <= i < n ==> log[i] == first[i];
      }
    }
    NumberedIsAfterNone(first);
    PrefixAfter(log, n, End(log), None);
  }

  lemma NoneIsBelowTerminal(log: seq<Event>)
    requires Ordered(log)
    ensures BelowTerminal(None, log)
  {
    hide Ascending;
  }

  lemma {:induction false} CheckpointSplitsTarget(log: seq<Event>, after: Option<U64>, received: seq<Event>, c: Option<U64>)
    requires Ordered(log) && BelowTerminal(after, log)
    requires received <= Target(log, after) && forall j :: 0 <= j < |received| ==> !IsTerminal(received[j])
    requires c == Some(LastSeq(Floor(after), received))
    ensures Target(log, after) == received + Target(log, c)
    ensures BelowTerminal(c, log)
  {
    hide After, LastSeq, Ascending;
    var u, t := log[..End(log)], FirstTerminal(log);
    var k := PrefixOfAfter(received, u, after);
    AfterCheckpoint(u, k, after, c);
    if t < |log| {
      TerminalIsOwed(log, after);
      assert u[..|u|] == u;
      var before := After(log[..t], after);
      assert (before + [log[t]])[|before|] == log[t];
      CheckpointIsPosition(u, k, t, after);
    }
  }
}
