/** The counter of one run, shared by the threads that send its events: the run's own loop, and a worker
    for each of its sub-agents that runs beside it. Taking a number and sending the event under it are
    two atomic steps of a thread, and those of other threads may come between them. */
module SharedCounter {
  import opened Wrappers
  import opened Events
  import opened Logs
  import opened ProviderTurns

  type Sender = nat

  /** The run's own loop; every other sender is a worker. */
  const LOOP: Sender := 0

  /** An event to be sent as the `nth` of those that took a number. */
  datatype Slip = Slip(sender: Sender, nth: nat, kind: Kind)

  /** `held` are the numbers taken by threads that have not sent yet. */
  datatype Counter = Counter(taken: nat, held: map<Sender, Slip>, sent: seq<Slip>)

  const FRESH := Counter(0, map[], [])

  datatype Action = TakeNumber(sender: Sender, kind: Kind) | SendEvent(sender: Sender)

  predicate Enabled(s: Counter, a: Action) {
    match a
    case TakeNumber(t, _) => t !in s.held
    case SendEvent(t) => t in s.held
  }

  function Next(s: Counter, a: Action): Counter
    requires Enabled(s, a)
  {
    match a
    case TakeNumber(t, kind) => s.(taken := s.taken + 1, held := s.held[t := Slip(t, s.taken + 1, kind)])
    case SendEvent(t) => s.(held := s.held - {t}, sent := s.sent + [s.held[t]])
  }

  function Execute(actions: seq<Action>): Option<Counter> {
    if actions == [] then Some(FRESH)
    else
      match Execute(actions[..|actions| - 1])
      case None => None
      case Some(s) =>
        var a := actions[|actions| - 1];
        if Enabled(s, a) then Some(Next(s, a)) else None
  }

  /** The event as it goes out: the counter starts at 1 and has 64 bits. */
  function EventOf(runId: RunId, slip: Slip): Event {
    Event(Some(runId), Some(Wrap(slip.nth)), slip.kind)
  }

  /** The output of the run, in the order of the sends. */
  function Output(runId: RunId, sent: seq<Slip>): (events: seq<Event>)
    ensures |events| == |sent|
    ensures forall i :: 0 <= i < |sent| ==> events[i] == EventOf(runId, sent[i])
  {
    seq(|sent|, i requires 0 <= i < |sent| => EventOf(runId, sent[i]))
  }

  /** What one thread has sent, in its order. */
  function KindsBy(t: Sender, sent: seq<Slip>): seq<Kind> {
    if sent == [] then []
    else KindsBy(t, sent[..|sent| - 1]) + if sent[|sent| - 1].sender == t then [sent[|sent| - 1].kind] else []
  }

  // ---------------------------------------------------------------- every number once

  predicate IsHeld(s: Counter, n: nat) {
    exists t :: t in s.held && s.held[t].nth == n
  }

  predicate IsSent(s: Counter, n: nat) {
    exists i :: 0 <= i < |s.sent| && s.sent[i].nth == n
  }

  /** The numbers taken are those sent and those held, and no two of them are the same. */
  ghost predicate EachNumberOnce(s: Counter) {
    && (forall n: nat :: IsHeld(s, n) || IsSent(s, n) <==> 1 <= n <= s.taken)
    && (forall n: nat :: !(IsHeld(s, n) && IsSent(s, n)))
    && (forall i, j :: 0 <= i < j < |s.sent| ==> s.sent[i].nth != s.sent[j].nth)
    && (forall t, u :: t in s.held && u in s.held && t != u ==> s.held[t].nth != s.held[u].nth)
    && (forall t :: t in s.held ==> s.held[t].sender == t)
  }

  lemma {:induction false} TakeKeepsOnce(s: Counter, t: Sender, kind: Kind)
    requires EachNumberOnce(s) && t !in s.held
    ensures EachNumberOnce(Next(s, TakeNumber(t, kind)))
  {
    var s' := Next(s, TakeNumber(t, kind));
    forall n: nat
      ensures IsHeld(s', n) <==> IsHeld(s, n) || n == s'.taken
      ensures IsSent(s', n) <==> IsSent(s, n)
    {
      if IsHeld(s, n) {
        var u :| u in s.held && s.held[u].nth == n;
        assert s'.held[u].nth == n;
      }
      assert s'.held[t].nth == s'.taken;
    }
    forall u | u in s.held
      ensures s.held[u].nth != s'.taken
    {
      assert IsHeld(s, s.held[u].nth);
    }
  }

  lemma {:induction false} SendKeepsOnce(s: Counter, t: Sender)
    requires EachNumberOnce(s) && t in s.held
    ensures EachNumberOnce(Next(s, SendEvent(t)))
  {
    var s', slip := Next(s, SendEvent(t)), s.held[t];
    assert s'.sent[|s.sent|] == slip;
    assert IsHeld(s, slip.nth);
    forall n: nat
      ensures IsHeld(s', n) <==> IsHeld(s, n) && n != slip.nth
      ensures IsSent(s', n) <==> IsSent(s, n) || n == slip.nth
    {
      if IsHeld(s, n) && n != slip.nth {
        var u :| u in s.held && s.held[u].nth == n;
        assert u in s'.held;
      }
      if IsSent(s, n) {
        var i :| 0 <= i < |s.sent| && s.sent[i].nth == n;
        assert s'.sent[i].nth == n;
      }
    }
    forall i | 0 <= i < |s.sent|
      ensures s'.sent[i].nth != slip.nth
    {
      assert IsSent(s, s.sent[i].nth);
    }
  }

  /** In every interleaving each number handed out is the number of one event, sent or about to be. */
  lemma {:induction false} NumbersAreTakenOnce(actions: seq<Action>, s: Counter)
    requires Execute(actions) == Some(s)
    ensures EachNumberOnce(s)
  {
    hide EachNumberOnce;
    if actions == [] {
      NothingTaken();
    } else {
      var n := |actions| - 1;
      var before := Execute(actions[..n]).value;
      NumbersAreTakenOnce(actions[..n], before);
      match actions[n] {
        case TakeNumber(t, kind) => TakeKeepsOnce(before, t, kind);
        case SendEvent(t) => SendKeepsOnce(before, t);
      }
    }
  }

  lemma {:induction false} NothingTaken()
    ensures EachNumberOnce(FRESH)
  {
  }

  /** As 64-bit numbers they are different as long as no more were taken than there are. */
  lemma {:induction false} SentNumbersDiffer(actions: seq<Action>, s: Counter, i: nat, j: nat)
    requires Execute(actions) == Some(s) && s.taken <= U64_MAX + 1 && i < j < |s.sent|
    ensures Wrap(s.sent[i].nth) != Wrap(s.sent[j].nth)
  {
    NumbersAreTakenOnce(actions, s);
    assert IsSent(s, s.sent[i].nth) && IsSent(s, s.sent[j].nth);
  }

  // ---------------------------------------------------------------- when the output rises

  /** Where a thread last took a number, or -1. */
  function LastTake(actions: seq<Action>, t: Sender): (i: int)
    ensures -1 <= i < |actions|
    ensures i >= 0 ==> actions[i].TakeNumber? && actions[i].sender == t
  {
    if actions == [] then -1
    else
      var a := actions[|actions| - 1];
      if a.TakeNumber? && a.sender == t then |actions| - 1 else LastTake(actions[..|actions| - 1], t)
  }

  /** Where the number was taken that goes out at position `c`. */
  function TookAt(actions: seq<Action>, c: nat): int
    requires c < |actions|
  {
    LastTake(actions[..c], actions[c].sender)
  }

  /** A thread sends after another took a smaller number and before that one is sent. */
  predicate Overtakes(actions: seq<Action>) {
    exists c, d :: 0 <= c < d < |actions| && actions[c].SendEvent? && actions[d].SendEvent? && TookAt(actions, d) < TookAt(actions, c)
  }

  function Takes(actions: seq<Action>): nat {
    if actions == [] then 0
    else Takes(actions[..|actions| - 1]) + if actions[|actions| - 1].TakeNumber? then 1 else 0
  }

  /** Where the events of the output were sent. */
  function Sends(actions: seq<Action>): (positions: seq<nat>)
    ensures forall k :: 0 <= k < |positions| ==> positions[k] < |actions| && actions[positions[k]].SendEvent?
  {
    if actions == [] then []
    else Sends(actions[..|actions| - 1]) + if actions[|actions| - 1].SendEvent? then [|actions| - 1] else []
  }

  lemma {:induction false} SendsAreAll(actions: seq<Action>)
    ensures forall k, l :: 0 <= k < l < |Sends(actions)| ==> Sends(actions)[k] < Sends(actions)[l]
    ensures forall c :: 0 <= c < |actions| && actions[c].SendEvent? ==> c in Sends(actions)
  {
    if actions != [] {
      var n := |actions| - 1;
      SendsAreAll(actions[..n]);
      assert forall c :: 0 <= c < n ==> actions[..n][c] == actions[c];
    }
  }

  lemma {:induction false} TakesGrow(actions: seq<Action>, i: nat, j: nat)
    requires i < j < |actions| && actions[j].TakeNumber?
    ensures Takes(actions[..i + 1]) < Takes(actions[..j + 1])
  {
    assert actions[..j + 1][..j] == actions[..j];
    if i + 1 < j {
      TakesNeverFall(actions, i + 1, j);
    }
  }

  lemma {:induction false} TakesNeverFall(actions: seq<Action>, i: nat, j: nat)
    requires i <= j <= |actions|
    ensures Takes(actions[..i]) <= Takes(actions[..j])
    decreases j
  {
    if i < j {
      TakesNeverFall(actions, i, j - 1);
      assert actions[..j][..j - 1] == actions[..j - 1];
    }
  }

  /** A number is the count of the takes up to its own. */
  ghost predicate CountsTo(actions: seq<Action>, i: int, nth: nat) {
    0 <= i < |actions| && nth == Takes(actions[..i + 1])
  }

  ghost predicate IsCounted(actions: seq<Action>, s: Counter) {
    && s.taken == Takes(actions)
    && |s.sent| == |Sends(actions)|
    && (forall t :: t in s.held ==> CountsTo(actions, LastTake(actions, t), s.held[t].nth))
    && (forall k :: 0 <= k < |s.sent| ==> CountsTo(actions, TookAt(actions, Sends(actions)[k]), s.sent[k].nth))
  }

  lemma {:induction false} TookIsTake(actions: seq<Action>, c: nat)
    requires c < |actions|
    ensures TookAt(actions, c) < c
    ensures TookAt(actions, c) >= 0 ==> actions[TookAt(actions, c)].TakeNumber?
  {
    hide LastTake;
  }

  lemma {:induction false} OneMoreAction(earlier: seq<Action>, a: Action)
    ensures var actions := earlier + [a];
            && Takes(actions) == Takes(earlier) + (if a.TakeNumber? then 1 else 0)
            && Sends(actions) == Sends(earlier) + (if a.SendEvent? then [|earlier|] else [])
            && (forall t :: LastTake(actions, t) == if a.TakeNumber? && a.sender == t then |earlier| else LastTake(earlier, t))
            && (forall i :: 0 <= i <= |earlier| ==> actions[..i] == earlier[..i])
            && (forall c :: 0 <= c < |earlier| ==> TookAt(actions, c) == TookAt(earlier, c))
            && TookAt(actions, |earlier|) == LastTake(earlier, a.sender)
  {
    var actions := earlier + [a];
    assert actions[..|earlier|] == earlier;
    forall i | 0 <= i <= |earlier|
      ensures actions[..i] == earlier[..i]
    {
    }
  }

  lemma {:induction false} NumbersAreCounted(actions: seq<Action>, s: Counter)
    requires Execute(actions) == Some(s)
    ensures IsCounted(actions, s)
  {
    hide IsCounted, Sends, LastTake, TookAt, Takes;
    if actions == [] {
      NothingCounted();
    } else {
      var n := |actions| - 1;
      var before := Execute(actions[..n]).value;
      NumbersAreCounted(actions[..n], before);
      assert actions[..n] + [actions[n]] == actions;
      CountedStep(actions[..n], before, actions[n]);
    }
  }

  lemma {:induction false} NothingCounted()
    ensures IsCounted([], FRESH)
  {
  }

  lemma {:induction false} CountsAsBefore(earlier: seq<Action>, a: Action, i: int, nth: nat)
    requires CountsTo(earlier, i, nth)
    ensures CountsTo(earlier + [a], i, nth)
  {
    assert (earlier + [a])[..i + 1] == earlier[..i + 1];
  }

  lemma {:induction false} CountedStep(earlier: seq<Action>, before: Counter, a: Action)
    requires IsCounted(earlier, before) && Enabled(before, a)
    ensures IsCounted(earlier + [a], Next(before, a))
  {
    hide Sends, LastTake, TookAt, Takes, CountsTo;
    var actions, s := earlier + [a], Next(before, a);
    OneMoreAction(earlier, a);
    forall t | t in before.held
      ensures CountsTo(actions, LastTake(earlier, t), before.held[t].nth)
    {
      CountsAsBefore(earlier, a, LastTake(earlier, t), before.held[t].nth);
    }
    if a.TakeNumber? {
      CountsItself(earlier, a, s.taken);
    }
    forall k | 0 <= k < |s.sent|
      ensures CountsTo(actions, TookAt(actions, Sends(actions)[k]), s.sent[k].nth)
    {
      if k < |before.sent| {
        CountsAsBefore(earlier, a, TookAt(earlier, Sends(earlier)[k]), s.sent[k].nth);
      }
    }
  }

  lemma {:induction false} CountsItself(earlier: seq<Action>, a: Action, taken: nat)
    requires taken == Takes(earlier + [a])
    ensures CountsTo(earlier + [a], |earlier|, taken)
  {
    hide Takes;
    assert (earlier + [a])[..|earlier| + 1] == earlier + [a];
  }

  lemma {:induction false} SendsAreSent(actions: seq<Action>, s: Counter)
    requires Execute(actions) == Some(s)
    ensures |Sends(actions)| == |s.sent|
  {
    hide Execute, Sends, LastTake, TookAt, Takes, CountsTo;
    NumbersAreCounted(actions, s);
  }

  lemma {:induction false} OrderOfNumbers(actions: seq<Action>, s: Counter, k: nat, l: nat)
    requires Execute(actions) == Some(s) && k < l < |s.sent|
    ensures |Sends(actions)| == |s.sent|
    ensures s.sent[l].nth < s.sent[k].nth <==> TookAt(actions, Sends(actions)[l]) < TookAt(actions, Sends(actions)[k])
    ensures s.sent[k].nth != s.sent[l].nth
  {
    hide Execute, LastTake, Takes, Sends, IsHeld, IsSent;
    NumbersAreTakenOnce(actions, s);
    NumbersAreCounted(actions, s);
    var i, j := TookAt(actions, Sends(actions)[k]), TookAt(actions, Sends(actions)[l]);
    TookIsTake(actions, Sends(actions)[k]);
    TookIsTake(actions, Sends(actions)[l]);
    if i < j {
      TakesGrow(actions, i, j);
    } else if j < i {
      TakesGrow(actions, j, i);
    }
  }

  predicate NumbersRise(sent: seq<Slip>) {
    forall k, l :: 0 <= k < l < |sent| ==> sent[k].nth < sent[l].nth
  }

  lemma {:induction false} NumbersRiseExactlyWhen(actions: seq<Action>, s: Counter)
    requires Execute(actions) == Some(s)
    ensures NumbersRise(s.sent) <==> !Overtakes(actions)
  {
    hide Execute, TookAt, LastTake, Takes, Sends, NumbersRise, IsCounted;
    SendsAreSent(actions, s);
    if Overtakes(actions) {
      var c, d :| 0 <= c < d < |actions| && actions[c].SendEvent? && actions[d].SendEvent? && TookAt(actions, d) < TookAt(actions, c);
      var k := SendsHave(actions, c);
      var l := SendsHave(actions, d);
      OrderOfNumbers(actions, s, k, l);
      FallsAt(s.sent, k, l);
    } else {
      forall k, l | 0 <= k < l < |s.sent|
        ensures s.sent[k].nth < s.sent[l].nth
      {
        OrderOfNumbers(actions, s, k, l);
        SendsRise(actions, k, l);
      }
      AllRise(s.sent);
    }
  }

  lemma {:induction false} SendsHave(actions: seq<Action>, c: nat) returns (k: nat)
    requires c < |actions| && actions[c].SendEvent?
    ensures k < |Sends(actions)| && Sends(actions)[k] == c
    ensures forall l :: 0 <= l < |Sends(actions)| && Sends(actions)[l] > c ==> l > k
  {
    var sends := Sends(actions);
    SendsAreAll(actions);
    k :| 0 <= k < |sends| && sends[k] == c;
  }

  lemma {:induction false} SendsRise(actions: seq<Action>, k: nat, l: nat)
    requires k < l < |Sends(actions)|
    ensures var c, d := Sends(actions)[k], Sends(actions)[l];
            c < d < |actions| && actions[c].SendEvent? && actions[d].SendEvent?
  {
    SendsAreAll(actions);
  }

  lemma {:induction false} FallsAt(sent: seq<Slip>, k: nat, l: nat)
    requires k < l < |sent| && sent[l].nth < sent[k].nth
    ensures !NumbersRise(sent)
  {
  }

  lemma {:induction false} AllRise(sent: seq<Slip>)
    requires forall k, l :: 0 <= k < l < |sent| ==> sent[k].nth < sent[l].nth
    ensures NumbersRise(sent)
  {
  }

  /** The output of a run rises strictly exactly when no thread sends between another's taking of a
      smaller number and its sending it. */
  lemma {:induction false} OutputRisesExactlyWhen(runId: RunId, actions: seq<Action>, s: Counter)
    requires Execute(actions) == Some(s) && s.taken <= U64_MAX
    ensures Ascending(Output(runId, s.sent)) <==> !Overtakes(actions)
  {
    hide Execute, Overtakes;
    NumbersRiseExactlyWhen(actions, s);
    SentAreNumbers(actions, s);
    AscendingIsRising(runId, s.sent);
  }

  lemma {:induction false} SentAreNumbers(actions: seq<Action>, s: Counter)
    requires Execute(actions) == Some(s)
    ensures forall i :: 0 <= i < |s.sent| ==> 1 <= s.sent[i].nth <= s.taken
  {
    NumbersAreTakenOnce(actions, s);
    forall i | 0 <= i < |s.sent|
      ensures 1 <= s.sent[i].nth <= s.taken
    {
      assert IsSent(s, s.sent[i].nth);
    }
  }

  lemma {:induction false} AscendingIsRising(runId: RunId, sent: seq<Slip>)
    requires forall i :: 0 <= i < |sent| ==> 1 <= sent[i].nth <= U64_MAX
    ensures Ascending(Output(runId, sent)) <==> NumbersRise(sent)
  {
    var events := Output(runId, sent);
    assert forall i :: 0 <= i < |sent| ==> events[i].seqNo == Some(sent[i].nth);
    if Ascending(events) {
      forall k, l | 0 <= k < l < |sent|
        ensures sent[k].nth < sent[l].nth
      {
        assert events[k].seqNo.value < events[l].seqNo.value;
      }
    }
  }

  // ---------------------------------------------------------------- what holds in any case

  /** The numbers of one thread rise, sent or held, whatever the others do. */
  ghost predicate EachSenderRisesIn(s: Counter) {
    && (forall i, j :: 0 <= i < j < |s.sent| && s.sent[i].sender == s.sent[j].sender ==> s.sent[i].nth < s.sent[j].nth)
    && (forall i, t :: 0 <= i < |s.sent| && t in s.held && s.sent[i].sender == t ==> s.sent[i].nth < s.held[t].nth)
    && (forall i :: 0 <= i < |s.sent| ==> s.sent[i].nth <= s.taken)
    && (forall t :: t in s.held ==> s.held[t].sender == t && s.held[t].nth <= s.taken)
  }

  lemma {:induction false} EachSenderRises(actions: seq<Action>, s: Counter)
    requires Execute(actions) == Some(s)
    ensures EachSenderRisesIn(s)
  {
    if actions != [] {
      EachSenderRises(actions[..|actions| - 1], Execute(actions[..|actions| - 1]).value);
    }
  }

  /** A run without workers: its events are numbered 1, 2, 3 and so on, in the order it sends them. */
  lemma {:induction false} OneSenderIsNumbered(runId: RunId, actions: seq<Action>, s: Counter, t: Sender)
    requires Execute(actions) == Some(s) && forall i :: 0 <= i < |actions| ==> actions[i].sender == t
    ensures Output(runId, s.sent) == Numbered(runId, 1, KindsBy(t, s.sent)) && |KindsBy(t, s.sent)| == |s.sent|
    ensures s.taken == |s.sent| + (if t in s.held then 1 else 0)
    ensures s.held.Keys <= {t} && (t in s.held ==> s.held[t].nth == s.taken && s.held[t].sender == t)
  {
    hide Wrap;
    if actions != [] {
      var n := |actions| - 1;
      var before := Execute(actions[..n]).value;
      OneSenderIsNumbered(runId, actions[..n], before, t);
      if actions[n].SendEvent? {
        var slip := before.held[t];
        assert s.sent[..|before.sent|] == before.sent;
        assert Output(runId, s.sent) == Output(runId, before.sent) + [EventOf(runId, slip)];
        var kinds := KindsBy(t, s.sent);
        assert kinds == KindsBy(t, before.sent) + [slip.kind];
        assert kinds[..|kinds| - 1] == KindsBy(t, before.sent);
      }
    }
  }

  lemma {:induction false} OneSenderNeverOvertakes(actions: seq<Action>, s: Counter, t: Sender)
    requires Execute(actions) == Some(s) && forall i :: 0 <= i < |actions| ==> actions[i].sender == t
    ensures !Overtakes(actions)
  {
    hide Execute, Overtakes;
    EachSenderRises(actions, s);
    SentBySender(actions, s, t);
    NumbersRiseExactlyWhen(actions, s);
  }

  lemma {:induction false} SentBySender(actions: seq<Action>, s: Counter, t: Sender)
    requires Execute(actions) == Some(s) && forall i :: 0 <= i < |actions| ==> actions[i].sender == t
    ensures forall i :: 0 <= i < |s.sent| ==> s.sent[i].sender == t
  {
    if actions != [] {
      SentBySender(actions[..|actions| - 1], Execute(actions[..|actions| - 1]).value, t);
      EachSenderRises(actions[..|actions| - 1], Execute(actions[..|actions| - 1]).value);
    }
  }

  /** Without overtaking, and with no number held back, the numbers are 1, 2, 3 and so on. */
  lemma {:induction false} RisingIsConsecutive(actions: seq<Action>, s: Counter, i: nat)
    requires Execute(actions) == Some(s) && s.held == map[] && NumbersRise(s.sent) && i < |s.sent|
    ensures s.sent[i].nth == i + 1
  {
    hide Execute;
    NumbersAreTakenOnce(actions, s);
    SentAreNumbers(actions, s);
    if i > 0 {
      RisingIsConsecutive(actions, s, i - 1);
      assert s.sent[i - 1].nth < s.sent[i].nth;
    }
    assert 1 <= i + 1 <= s.taken;
    assert IsSent(s, i + 1);
    var j :| 0 <= j < |s.sent| && s.sent[j].nth == i + 1;
  }

  // ---------------------------------------------------------------- up to the terminal

  /** How many steps it took until the run's first terminal event was out, or all of them. */
  function UntilTerminal(runId: RunId, actions: seq<Action>, s: Counter): nat
    requires |Sends(actions)| == |s.sent|
  {
    var t := FirstTerminal(Output(runId, s.sent));
    if t < |s.sent| then Sends(actions)[t] + 1 else |actions|
  }

  lemma {:induction false} LastStep(actions: seq<Action>, s: Counter)
    requires actions != [] && Execute(actions) == Some(s)
    ensures var before := Execute(actions[..|actions| - 1]);
            && before.Some? && Enabled(before.value, actions[|actions| - 1]) && s == Next(before.value, actions[|actions| - 1])
            && s.sent == before.value.sent + (if actions[|actions| - 1].SendEvent? then [s.sent[|s.sent| - 1]] else [])
            && before.value.taken <= s.taken
  {
  }

  lemma {:induction false} SendsGrow(actions: seq<Action>)
    requires actions != []
    ensures var n := |actions| - 1;
            Sends(actions) == Sends(actions[..n]) + if actions[n].SendEvent? then [n] else []
  {
  }

  lemma {:induction false} SentUntil(actions: seq<Action>, s: Counter, k: nat)
    requires Execute(actions) == Some(s) && k < |s.sent|
    ensures |Sends(actions)| == |s.sent| && Sends(actions)[k] < |actions|
    ensures var upTo := Execute(actions[..Sends(actions)[k] + 1]);
            upTo.Some? && upTo.value.sent == s.sent[..k + 1] && upTo.value.taken <= s.taken
    decreases |actions|
  {
    SendsAreSent(actions, s);
    hide Sends, Execute, Next, Enabled;
    var n := |actions| - 1;
    var earlier := actions[..n];
    LastStep(actions, s);
    var before := Execute(earlier).value;
    SendsAreSent(earlier, before);
    SendsGrow(actions);
    if k < |before.sent| {
      SentUntil(earlier, before, k);
      assert earlier[..Sends(earlier)[k] + 1] == actions[..Sends(actions)[k] + 1];
      assert before.sent[..k + 1] == s.sent[..k + 1];
    } else {
      assert Sends(actions)[k] == n && actions[..n + 1] == actions && s.sent[..k + 1] == s.sent;
    }
  }

  /** The output is in the order that readers of a log rely on exactly when no thread overtakes another
      before the run's terminal event is out. */
  lemma {:induction false} OutputIsOrderedExactlyWhen(runId: RunId, actions: seq<Action>, s: Counter)
    requires Execute(actions) == Some(s) && s.taken <= U64_MAX
    ensures |Sends(actions)| == |s.sent| && UntilTerminal(runId, actions, s) <= |actions|
    ensures Ordered(Output(runId, s.sent)) <==> !Overtakes(actions[..UntilTerminal(runId, actions, s)])
  {
    hide Execute, Overtakes, Ascending, FirstTerminal, Sends, Wrap, LastTake;
    SendsAreSent(actions, s);
    var events := Output(runId, s.sent);
    var t, n := FirstTerminal(events), UntilTerminal(runId, actions, s);
    if t < |events| {
      SentUntil(actions, s, t);
      var upTo := Execute(actions[..n]).value;
      assert events[..t + 1] == Output(runId, upTo.sent);
      OutputRisesExactlyWhen(runId, actions[..n], upTo);
    } else {
      assert events[..|events|] == events && actions[..n] == actions;
      OutputRisesExactlyWhen(runId, actions, s);
    }
  }
}
