/** The delivery protocol of one run: a single writer appends and publishes, any number of readers
    subscribe, replay the log, check for a terminal event and then follow their channel. Each
    action below is one atomic step; every interleaving of them is a run of the protocol. */
module Delivery {
  import opened Wrappers
  import opened Events
  import opened RunEvents
  import opened Logs

  datatype EndCause = Disconnected | TerminalSent | TerminalInLog | ChannelClosed

  datatype Phase =
    | Subscribed
    | Replaying(rest: seq<Event>)
    | Live
    | Ended(cause: EndCause)

  /** One streaming task. `attached` says that its sender is still in the subscriber list. The
      last five fields record history: how much had been published when it subscribed, how many
      events it took from the channel, the log lengths when it loaded and when it checked for a
      terminal event, and whether it was dropped because its channel was full. */
  datatype Reader = Reader(
    after: Option<U64>,
    phase: Phase,
    attached: bool,
    queue: seq<Event>,
    lastSeq: U64,
    sent: seq<Event>,
    joinedAt: nat,
    taken: nat,
    loadedAt: nat,
    checkedAt: nat,
    overflowed: bool)

  /** `unpublished` marks the writer between its append and its publish. */
  datatype Pipeline = Pipeline(log: seq<Event>, unpublished: bool, readers: seq<Reader>)

  const INITIAL := Pipeline([], false, [])

  // ---------------------------------------------------------------- steps

  function InboxOf(rd: Reader): Inbox {
    Inbox(rd.queue, !rd.phase.Ended?)
  }

  function PublishTo(rd: Reader, e: Event): Reader {
    if !rd.attached then rd
    else
      var outcome := TrySendOutcome(InboxOf(rd));
      rd.(queue := TrySend(InboxOf(rd), e).queue,
          attached := outcome.Accepted? && !IsTerminal(e),
          overflowed := rd.overflowed || outcome.Full?)
  }

  function Connect(after: Option<U64>, published: nat): Reader {
    Reader(after, Subscribed, true, [], Floor(after), [], published, 0, 0, 0, false)
  }

  /** Sending one event to the client; `ok` is false when the client has gone. */
  function Deliver(rd: Reader, e: Event, ok: bool): Reader {
    var noted := rd.(lastSeq := Raise(rd.lastSeq, e));
    if !ok then noted.(phase := Ended(Disconnected))
    else
      var delivered := noted.(sent := rd.sent + [e]);
      if IsTerminal(e) then delivered.(phase := Ended(TerminalSent)) else delivered
  }

  function Load(rd: Reader, log: seq<Event>): Reader {
    rd.(phase := Replaying(After(log, rd.after)), loadedAt := |log|)
  }

  function Replay(rd: Reader, ok: bool): Reader
    requires rd.phase.Replaying? && rd.phase.rest != []
  {
    Deliver(rd.(phase := Replaying(rd.phase.rest[1..])), rd.phase.rest[0], ok)
  }

  function CheckTerminal(rd: Reader, log: seq<Event>): Reader {
    rd.(phase := if HasTerminal(log) then Ended(TerminalInLog) else Live, checkedAt := |log|)
  }

  function Receive(rd: Reader, ok: bool): Reader
    requires rd.phase.Live? && rd.queue != []
  {
    var popped := rd.(queue := rd.queue[1..], taken := rd.taken + 1);
    if IsAfter(rd.queue[0], Some(rd.lastSeq)) then Deliver(popped, rd.queue[0], ok) else popped
  }

  datatype Action =
    | AppendStep(e: Event)
    | PublishStep
    | ConnectStep(after: Option<U64>)
    | LoadStep(r: nat)
    | ReplayStep(r: nat, ok: bool)
    | CheckStep(r: nat)
    | ReceiveStep(r: nat, ok: bool)
    | NoticeClosedStep(r: nat)

  function Published(s: Pipeline): int {
    |s.log| - if s.unpublished then 1 else 0
  }

  predicate Enabled(s: Pipeline, a: Action) {
    match a
    case AppendStep(_) => !s.unpublished
    case PublishStep => s.unpublished && s.log != []
    case ConnectStep(_) => Published(s) >= 0
    case LoadStep(r) => r < |s.readers| && s.readers[r].phase.Subscribed?
    case ReplayStep(r, _) => r < |s.readers| && s.readers[r].phase.Replaying? && s.readers[r].phase.rest != []
    case CheckStep(r) => r < |s.readers| && s.readers[r].phase == Replaying([])
    case ReceiveStep(r, _) => r < |s.readers| && s.readers[r].phase.Live? && s.readers[r].queue != []
    case NoticeClosedStep(r) =>
      r < |s.readers| && s.readers[r].phase.Live? && s.readers[r].queue == [] && !s.readers[r].attached
  }

  function Next(s: Pipeline, a: Action): Pipeline
    requires Enabled(s, a)
  {
    match a
    case AppendStep(e) => s.(log := s.log + [e], unpublished := true)
    case PublishStep =>
      var e := s.log[|s.log| - 1];
      Pipeline(s.log, false, seq(|s.readers|, i requires 0 <= i < |s.readers| => PublishTo(s.readers[i], e)))
    case ConnectStep(after) => s.(readers := s.readers + [Connect(after, Published(s))])
    case LoadStep(r) => s.(readers := s.readers[r := Load(s.readers[r], s.log)])
    case ReplayStep(r, ok) => s.(readers := s.readers[r := Replay(s.readers[r], ok)])
    case CheckStep(r) => s.(readers := s.readers[r := CheckTerminal(s.readers[r], s.log)])
    case ReceiveStep(r, ok) => s.(readers := s.readers[r := Receive(s.readers[r], ok)])
    case NoticeClosedStep(r) =>
      s.(readers := s.readers[r := s.readers[r].(phase := Ended(ChannelClosed))])
  }

  /** The state a sequence of actions leads to, if each was enabled in turn. */
  function Execute(actions: seq<Action>): Option<Pipeline> {
    if actions == [] then Some(INITIAL)
    else
      match Execute(actions[..|actions| - 1])
      case None => None
      case Some(s) =>
        var a := actions[|actions| - 1];
        if Enabled(s, a) then Some(Next(s, a)) else None
  }

  // ---------------------------------------------------------------- invariant

  /** The log position a live reader has covered. */
  function Position(rd: Reader): nat {
    if rd.loadedAt <= rd.joinedAt + rd.taken then rd.joinedAt + rd.taken else rd.loadedAt
  }

  /** The channel of a running reader holds one contiguous stretch of what was published. It is
      cut off either by overflowing or by the terminal event, and never by both. */
  ghost predicate ChannelInv(log: seq<Event>, published: nat, rd: Reader) {
    var lo := rd.joinedAt + rd.taken;
    var hi := lo + |rd.queue|;
    && hi <= published <= |log|
    && rd.queue == log[lo..hi]
    && (rd.attached ==> hi == published && !rd.overflowed)
    && (rd.joinedAt <= FirstTerminal(log) ==>
          (FirstTerminal(log) < hi <==> !rd.attached && !rd.overflowed))
    && rd.lastSeq == LastSeq(Floor(rd.after), rd.sent)
  }

  /** How far the client has been served, phase by phase. */
  ghost predicate ProgressInv(log: seq<Event>, rd: Reader) {
    var t := FirstTerminal(log);
    match rd.phase
    case Subscribed =>
      rd.taken == 0 && rd.sent == []
    case Replaying(rest) =>
      && rd.taken == 0 && rd.joinedAt <= rd.loadedAt <= |log|
      && rd.sent + rest == After(log[..rd.loadedAt], rd.after)
      && rd.sent <= After(log[..t], rd.after)
    case Live =>
      && rd.joinedAt <= rd.loadedAt <= rd.checkedAt <= t
      && Position(rd) <= t
      && rd.sent == After(log[..Position(rd)], rd.after)
    case Ended(Disconnected) =>
      rd.sent <= Target(log, rd.after)
    case Ended(TerminalSent) =>
      && t < |log|
      && rd.sent == Target(log, rd.after)
      && (t < rd.loadedAt || (rd.checkedAt <= t && !rd.overflowed))
    case Ended(TerminalInLog) =>
      && rd.loadedAt <= t < rd.checkedAt <= |log|
      && rd.sent == After(log[..rd.loadedAt], rd.after)
    case Ended(ChannelClosed) =>
      && rd.overflowed
      && rd.loadedAt <= Position(rd) <= t
      && rd.sent == After(log[..Position(rd)], rd.after)
  }

  ghost predicate ReaderInv(log: seq<Event>, published: nat, rd: Reader) {
    && ProgressInv(log, rd)
    && (!rd.phase.Ended? ==> ChannelInv(log, published, rd))
  }

  ghost predicate PipelineInv(s: Pipeline) {
    && 0 <= Published(s)
    && forall r :: 0 <= r < |s.readers| && BelowTerminal(s.readers[r].after, s.log)
         ==> ReaderInv(s.log, Published(s), s.readers[r])
  }

  lemma {:induction false} AppendKeepsChannel(log: seq<Event>, e: Event, rd: Reader)
    requires ChannelInv(log, |log|, rd)
    ensures ChannelInv(log + [e], |log|, rd)
  {
    TerminalIsStable(log, e);
    var lo := rd.joinedAt + rd.taken;
    var hi := lo + |rd.queue|;
    assert (log + [e])[lo..hi] == log[lo..hi];
  }

  lemma {:induction false} AppendKeepsProgress(log: seq<Event>, e: Event, rd: Reader)
    requires ProgressInv(log, rd)
    ensures ProgressInv(log + [e], rd)
  {
    var log' := log + [e];
    TargetGrows(log, e, rd.after);
    TerminalIsStable(log, e);
    assert rd.loadedAt <= |log| ==> log'[..rd.loadedAt] == log[..rd.loadedAt];
    assert Position(rd) <= |log| ==> log'[..Position(rd)] == log[..Position(rd)];
  }

  lemma {:induction false} PublishKeepsChannel(log: seq<Event>, rd: Reader)
    requires log != [] && !rd.phase.Ended? && ChannelInv(log, |log| - 1, rd)
    ensures ChannelInv(log, |log|, PublishTo(rd, log[|log| - 1]))
  {
    hide FirstTerminal, LastSeq;
    var lo := rd.joinedAt + rd.taken;
    var hi := lo + |rd.queue|;
    assert rd.attached ==> hi == |log| - 1 && log[lo..hi] + [log[hi]] == log[lo..hi + 1];
  }

  lemma {:induction false} PublishKeepsReader(log: seq<Event>, rd: Reader)
    requires log != [] && ReaderInv(log, |log| - 1, rd)
    ensures ReaderInv(log, |log|, PublishTo(rd, log[|log| - 1]))
  {
    hide ChannelInv, After, FirstTerminal, Target;
    if !rd.phase.Ended? {
      PublishKeepsChannel(log, rd);
    }
  }

  lemma {:induction false} LoadKeepsReader(log: seq<Event>, published: nat, rd: Reader)
    requires ReaderInv(log, published, rd) && rd.phase.Subscribed?
    ensures ReaderInv(log, published, Load(rd, log))
  {
    assert log[..|log|] == log;
  }

  /** What a load still has to send is owed to the client, and the first terminal event it holds is
      the first terminal event of the log. */
  lemma {:induction false} ReplayedIsOwed(log: seq<Event>, n: nat, after: Option<U64>, sent: seq<Event>, rest: seq<Event>)
    requires n <= |log| && BelowTerminal(after, log)
    requires sent + rest == After(log[..n], after) && rest != []
    requires sent <= After(log[..FirstTerminal(log)], after)
    ensures IsTerminal(rest[0]) ==> FirstTerminal(log) < n && sent + [rest[0]] == Target(log, after)
    ensures !IsTerminal(rest[0]) ==> sent + [rest[0]] <= After(log[..FirstTerminal(log)], after)
  {
    var t := FirstTerminal(log);
    var before := After(log[..t], after);
    var loaded := After(log[..n], after);
    assert rest[0] == loaded[|sent|];
    if t < n {
      TerminalIsOwed(log, after);
      PrefixAfter(log, t + 1, n, after);
    } else {
      PrefixAfter(log, n, t, after);
    }
    if |sent| < |before| {
      assert rest[0] == before[|sent|];
      NoTerminalBefore(log, t, after, |sent|);
    }
  }

  /** Sending keeps the high-water mark in step with what was sent. */
  lemma {:induction false} LastSeqGrows(start: U64, sent: seq<Event>, e: Event)
    ensures LastSeq(start, sent + [e]) == Raise(LastSeq(start, sent), e)
  {
    assert (sent + [e])[..|sent|] == sent;
  }

  lemma {:induction false} ReplayKeepsChannel(log: seq<Event>, published: nat, rd: Reader, ok: bool)
    requires ChannelInv(log, published, rd) && rd.phase.Replaying? && rd.phase.rest != []
    ensures !Replay(rd, ok).phase.Ended? ==> ChannelInv(log, published, Replay(rd, ok))
  {
    hide FirstTerminal, LastSeq;
    LastSeqGrows(Floor(rd.after), rd.sent, rd.phase.rest[0]);
  }

  lemma {:induction false} ReplayKeepsProgress(log: seq<Event>, rd: Reader, ok: bool)
    requires BelowTerminal(rd.after, log) && ProgressInv(log, rd) && rd.phase.Replaying? && rd.phase.rest != []
    ensures ProgressInv(log, Replay(rd, ok))
  {
    hide After, BelowTerminal, FirstTerminal, Raise, IsTerminal;
    var rest, sent := rd.phase.rest, rd.sent;
    ReplayedIsOwed(log, rd.loadedAt, rd.after, sent, rest);
    if !ok {
      PrefixAfter(log, FirstTerminal(log), End(log), rd.after);
    } else if !IsTerminal(rest[0]) {
      assert (sent + [rest[0]]) + rest[1..] == sent + rest;
    }
  }

  lemma {:induction false} ReplayKeepsReader(log: seq<Event>, published: nat, rd: Reader, ok: bool)
    requires BelowTerminal(rd.after, log)
    requires ReaderInv(log, published, rd)
    requires rd.phase.Replaying? && rd.phase.rest != []
    ensures ReaderInv(log, published, Replay(rd, ok))
  {
    hide ProgressInv, ChannelInv, BelowTerminal;
    ReplayKeepsChannel(log, published, rd, ok);
    ReplayKeepsProgress(log, rd, ok);
  }

  lemma {:induction false} CheckKeepsChannel(log: seq<Event>, published: nat, rd: Reader)
    requires ChannelInv(log, published, rd)
    ensures ChannelInv(log, published, CheckTerminal(rd, log))
  {
    hide LastSeq, FirstTerminal, HasTerminal;
  }

  /** A reader that is still replaying when its replay is done has loaded no terminal event. */
  lemma {:induction false} LoadedBelowTerminal(log: seq<Event>, n: nat, after: Option<U64>)
    requires n <= |log| && BelowTerminal(after, log)
    requires After(log[..n], after) <= After(log[..FirstTerminal(log)], after)
    ensures n <= FirstTerminal(log)
  {
    hide After, FirstTerminal;
    var t := FirstTerminal(log);
    if t < n {
      TerminalIsOwed(log, after);
      PrefixAfter(log, t + 1, n, after);
    }
  }

  lemma {:induction false} CheckKeepsProgress(log: seq<Event>, rd: Reader)
    requires ProgressInv(log, rd) && BelowTerminal(rd.after, log) && rd.phase == Replaying([])
    ensures ProgressInv(log, CheckTerminal(rd, log))
  {
    hide After, BelowTerminal, HasTerminal, FirstTerminal;
    assert rd.sent + [] == rd.sent;
    LoadedBelowTerminal(log, rd.loadedAt, rd.after);
  }

  lemma {:induction false} CheckKeepsReader(log: seq<Event>, published: nat, rd: Reader)
    requires ReaderInv(log, published, rd) && BelowTerminal(rd.after, log)
    requires rd.phase == Replaying([])
    ensures ReaderInv(log, published, CheckTerminal(rd, log))
  {
    hide ProgressInv, ChannelInv, HasTerminal, BelowTerminal;
    CheckKeepsChannel(log, published, rd);
    CheckKeepsProgress(log, rd);
  }

  /** The event at the head of the channel is new to the client exactly when the log position it
      came from has not been covered yet. */
  lemma {:induction false} HeadIsNew(log: seq<Event>, published: nat, rd: Reader)
    requires Ordered(log) && BelowTerminal(rd.after, log)
    requires ReaderInv(log, published, rd) && rd.phase.Live? && rd.queue != []
    ensures var k := rd.joinedAt + rd.taken;
            && k < |log| && rd.queue[0] == log[k]
            && (IsAfter(log[k], Some(rd.lastSeq)) <==> k == Position(rd) && IsAfter(log[k], rd.after))
            && (k == FirstTerminal(log) ==> !rd.overflowed)
  {
    hide Ascending, After, LastSeq, FirstTerminal, IsAfter;
    var k, pos := rd.joinedAt + rd.taken, Position(rd);
    var u := log[..End(log)];
    assert u[..pos] == log[..pos];
    CheckpointIsPosition(u, pos, k, rd.after);
  }

  lemma {:induction false} CloseKeepsReader(log: seq<Event>, published: nat, rd: Reader)
    requires ReaderInv(log, published, rd) && rd.phase.Live? && rd.queue == [] && !rd.attached
    ensures ReaderInv(log, published, rd.(phase := Ended(ChannelClosed)))
  {
    hide FirstTerminal, LastSeq, After;
  }

  lemma {:induction false} ReceiveKeepsChannel(log: seq<Event>, published: nat, rd: Reader, ok: bool)
    requires ChannelInv(log, published, rd) && rd.phase.Live? && rd.queue != []
    ensures !Receive(rd, ok).phase.Ended? ==> ChannelInv(log, published, Receive(rd, ok))
  {
    hide FirstTerminal, LastSeq;
    LastSeqGrows(Floor(rd.after), rd.sent, rd.queue[0]);
  }

  /** Covering one more log position: what is sent grows in step, up to the terminal event. */
  lemma {:induction false} CoveredGrows(log: seq<Event>, k: nat, after: Option<U64>)
    requires k <= FirstTerminal(log) && k < |log| && BelowTerminal(after, log)
    ensures IsAfter(log[k], after) ==> After(log[..k + 1], after) == After(log[..k], after) + [log[k]]
    ensures !IsAfter(log[k], after) ==> After(log[..k + 1], after) == After(log[..k], after)
    ensures IsTerminal(log[k]) <==> k == FirstTerminal(log)
    ensures IsTerminal(log[k]) ==> After(log[..k + 1], after) == Target(log, after) && IsAfter(log[k], after)
  {
    AfterStep(log, k, after);
  }

  lemma {:induction false} SkipKeepsProgress(log: seq<Event>, rd: Reader)
    requires ProgressInv(log, rd) && rd.phase.Live? && rd.queue != [] && BelowTerminal(rd.after, log)
    requires rd.joinedAt + rd.taken < |log|
    requires var k := rd.joinedAt + rd.taken; k == Position(rd) ==> !IsAfter(log[k], rd.after)
    ensures ProgressInv(log, rd.(queue := rd.queue[1..], taken := rd.taken + 1))
  {
    var k := rd.joinedAt + rd.taken;
    if k == Position(rd) {
      CoveredGrows(log, k, rd.after);
    }
    hide After, FirstTerminal, IsAfter, BelowTerminal;
  }

  /** The three ways a send from the channel can end. */
  lemma {:induction false} SentLive(log: seq<Event>, rd: Reader, k: nat)
    requires k < |log| && rd.phase.Live? && rd.joinedAt <= rd.loadedAt <= rd.checkedAt <= FirstTerminal(log)
    requires k < FirstTerminal(log) && Position(rd) == k + 1 && rd.sent == After(log[..k + 1], rd.after)
    ensures ProgressInv(log, rd)
  {
    hide After, FirstTerminal;
  }

  lemma {:induction false} SentTerminal(log: seq<Event>, rd: Reader, k: nat)
    requires k < |log| && rd.phase == Ended(TerminalSent) && rd.checkedAt <= FirstTerminal(log) == k && !rd.overflowed
    requires rd.sent == Target(log, rd.after)
    ensures ProgressInv(log, rd)
  {
    hide Target, FirstTerminal;
  }

  lemma {:induction false} SendLost(log: seq<Event>, rd: Reader, k: nat)
    requires k < |log| && rd.phase == Ended(Disconnected) && k <= FirstTerminal(log) && rd.sent == After(log[..k], rd.after)
    ensures ProgressInv(log, rd)
  {
    hide After;
    PrefixAfter(log, k, End(log), rd.after);
  }

  lemma {:induction false} DeliverKeepsProgress(log: seq<Event>, rd: Reader, ok: bool)
    requires ProgressInv(log, rd) && rd.phase.Live? && rd.queue != [] && BelowTerminal(rd.after, log)
    requires var k := rd.joinedAt + rd.taken;
             && k == Position(rd) && k < |log| && IsAfter(log[k], rd.after) && rd.queue[0] == log[k]
             && (k == FirstTerminal(log) ==> !rd.overflowed)
    ensures ProgressInv(log, Deliver(rd.(queue := rd.queue[1..], taken := rd.taken + 1), rd.queue[0], ok))
  {
    var k := rd.joinedAt + rd.taken;
    LiveProgress(log, rd);
    CoveredGrows(log, k, rd.after);
    hide After, FirstTerminal, BelowTerminal, IsAfter, IsTerminal, Raise, ProgressInv, Target;
    var rd' := Deliver(rd.(queue := rd.queue[1..], taken := rd.taken + 1), rd.queue[0], ok);
    if !ok {
      SendLost(log, rd', k);
    } else if IsTerminal(log[k]) {
      SentTerminal(log, rd', k);
    } else {
      SentLive(log, rd', k);
    }
  }

  lemma {:induction false} LiveProgress(log: seq<Event>, rd: Reader)
    requires ProgressInv(log, rd) && rd.phase.Live?
    ensures rd.joinedAt <= rd.loadedAt <= rd.checkedAt <= FirstTerminal(log)
    ensures Position(rd) <= FirstTerminal(log) <= |log| && rd.sent == After(log[..Position(rd)], rd.after)
  {
    hide After, FirstTerminal;
  }

  lemma {:induction false} ReceiveKeepsProgress(log: seq<Event>, published: nat, rd: Reader, ok: bool)
    requires Ordered(log) && BelowTerminal(rd.after, log)
    requires ReaderInv(log, published, rd) && rd.phase.Live? && rd.queue != []
    ensures ProgressInv(log, Receive(rd, ok))
  {
    hide ProgressInv, ChannelInv, Ordered, BelowTerminal, After, FirstTerminal;
    HeadIsNew(log, published, rd);
    if IsAfter(rd.queue[0], Some(rd.lastSeq)) {
      DeliverKeepsProgress(log, rd, ok);
    } else {
      SkipKeepsProgress(log, rd);
    }
  }

  lemma {:induction false} WriterStepKeepsReader(s: Pipeline, a: Action, r: nat)
    requires a.AppendStep? || a.PublishStep?
    requires 0 <= Published(s) && Enabled(s, a) && Ordered(Next(s, a).log)
    requires r < |s.readers| && BelowTerminal(s.readers[r].after, Next(s, a).log)
    requires ReaderInv(s.log, Published(s), s.readers[r])
    ensures ReaderInv(Next(s, a).log, Published(Next(s, a)), Next(s, a).readers[r])
  {
    hide ProgressInv, ChannelInv, Ordered;
    var rd := s.readers[r];
    match a
    case AppendStep(e) =>
      AppendKeepsProgress(s.log, e, rd);
      if !rd.phase.Ended? { AppendKeepsChannel(s.log, e, rd); }
    case PublishStep => PublishKeepsReader(s.log, rd);
  }

  lemma {:induction false} ReaderStepKeepsReader(s: Pipeline, a: Action, r: nat)
    requires !a.AppendStep? && !a.PublishStep?
    requires 0 <= Published(s) && Enabled(s, a) && Ordered(Next(s, a).log)
    requires r < |s.readers| && BelowTerminal(s.readers[r].after, Next(s, a).log)
    requires ReaderInv(s.log, Published(s), s.readers[r])
    ensures ReaderInv(Next(s, a).log, Published(Next(s, a)), Next(s, a).readers[r])
  {
    hide ProgressInv, ChannelInv, Ordered;
    var rd := s.readers[r];
    match a
    case ConnectStep(_) =>
    case LoadStep(i) => if r == i { LoadKeepsReader(s.log, Published(s), rd); }
    case ReplayStep(i, ok) => if r == i { ReplayKeepsReader(s.log, Published(s), rd, ok); }
    case CheckStep(i) => if r == i { CheckKeepsReader(s.log, Published(s), rd); }
    case ReceiveStep(i, ok) =>
      if r == i {
        ReceiveKeepsProgress(s.log, Published(s), rd, ok);
        ReceiveKeepsChannel(s.log, Published(s), rd, ok);
      }
    case NoticeClosedStep(i) => if r == i { CloseKeepsReader(s.log, Published(s), rd); }
  }

  lemma {:induction false} StepKeepsCheckpoint(s: Pipeline, a: Action, r: nat)
    requires Enabled(s, a) && r < |s.readers|
    ensures r < |Next(s, a).readers| && Next(s, a).readers[r].after == s.readers[r].after
    ensures Next(s, a).log == if a.AppendStep? then s.log + [a.e] else s.log
  {
    hide After, HasTerminal, IsAfter, TrySend, TrySendOutcome;
  }

  lemma {:induction false} NewReader(s: Pipeline, a: Action, r: nat)
    requires 0 <= Published(s) && Enabled(s, a) && |s.readers| <= r < |Next(s, a).readers|
    ensures ReaderInv(Next(s, a).log, Published(Next(s, a)), Next(s, a).readers[r])
  {
    hide After, HasTerminal, IsAfter, TrySend, TrySendOutcome;
  }

  lemma {:induction false} NextKeepsInv(s: Pipeline, a: Action)
    requires PipelineInv(s) && Enabled(s, a) && Ordered(Next(s, a).log)
    ensures PipelineInv(Next(s, a))
  {
    hide Next, Enabled, ReaderInv, BelowTerminal, Ordered, Published;
    var s' := Next(s, a);
    StillPublished(s, a);
    forall r | 0 <= r < |s'.readers| && BelowTerminal(s'.readers[r].after, s'.log)
      ensures ReaderInv(s'.log, Published(s'), s'.readers[r])
    {
      if r < |s.readers| {
        StepKeepsCheckpoint(s, a, r);
        if a.AppendStep? {
          BelowTerminalPrefix(s.readers[r].after, s.log, a.e);
        }
        if a.AppendStep? || a.PublishStep? {
          WriterStepKeepsReader(s, a, r);
        } else {
          ReaderStepKeepsReader(s, a, r);
        }
      } else {
        NewReader(s, a, r);
      }
    }
  }

  lemma {:induction false} StillPublished(s: Pipeline, a: Action)
    requires 0 <= Published(s) && Enabled(s, a)
    ensures 0 <= Published(Next(s, a))
  {
  }

  lemma {:induction false} ReachableInv(actions: seq<Action>, s: Pipeline)
    requires Execute(actions) == Some(s) && Ordered(s.log)
    ensures PipelineInv(s)
  {
    if actions != [] {
      var a := actions[|actions| - 1];
      var s0 := Execute(actions[..|actions| - 1]).value;
      if a.AppendStep? {
        OrderedPrefix(s0.log, a.e);
      }
      ReachableInv(actions[..|actions| - 1], s0);
      NextKeepsInv(s0, a);
    }
  }
}
