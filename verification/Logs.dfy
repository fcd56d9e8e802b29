/** Order facts about a run's log: where it first ends, what a checkpoint still has to see. */
module Logs {
  import opened Wrappers
  import opened Events
  import opened RunEvents

  /** The index of the first terminal event, or the length of a log that has none. */
  function FirstTerminal(log: seq<Event>): (t: nat)
    ensures t <= |log|
    ensures forall i :: 0 <= i < t ==> !IsTerminal(log[i])
    ensures t < |log| ==> IsTerminal(log[t])
    ensures t < |log| <==> HasTerminal(log)
  {
    if log == [] || IsTerminal(log[0]) then 0 else 1 + FirstTerminal(log[1..])
  }

  /** The length of the log up to and including its first terminal event. */
  function End(log: seq<Event>): (n: nat)
    ensures n <= |log|
  {
    if FirstTerminal(log) < |log| then FirstTerminal(log) + 1 else |log|
  }

  ghost predicate Increasing(events: seq<Event>) {
    forall i, j :: 0 <= i < j < |events| && events[i].seqNo.Some? && events[j].seqNo.Some?
      ==> events[i].seqNo.value < events[j].seqNo.value
  }

  ghost predicate Ascending(events: seq<Event>) {
    && Increasing(events)
    && forall i :: 0 <= i < |events| && events[i].seqNo.Some? ==> events[i].seqNo.value >= 1
  }

  /** Sequence numbers start at 1 and rise strictly up to the first terminal event, which has one.
      Nothing is said of what follows it. */
  ghost predicate Ordered(log: seq<Event>) {
    && Ascending(log[..End(log)])
    && (FirstTerminal(log) < |log| ==> log[FirstTerminal(log)].seqNo.Some?)
  }

  /** The checkpoint has not yet passed the terminal event. */
  ghost predicate BelowTerminal(after: Option<U64>, log: seq<Event>) {
    FirstTerminal(log) < |log| ==> IsAfter(log[FirstTerminal(log)], after)
  }

  /** What a stream that starts from the checkpoint owes its client. */
  function Target(log: seq<Event>, after: Option<U64>): seq<Event> {
    After(log[..End(log)], after)
  }

  function Floor(after: Option<U64>): U64 {
    if after.Some? then after.value else 0
  }

  /** The largest sequence number seen so far. */
  function Raise(last: U64, e: Event): U64 {
    if e.seqNo.Some? && e.seqNo.value > last then e.seqNo.value else last
  }

  function LastSeq(start: U64, events: seq<Event>): (last: U64)
    ensures start <= last
  {
    if events == [] then start
    else Raise(LastSeq(start, events[..|events| - 1]), events[|events| - 1])
  }

  lemma {:induction false} LastSeqIsMaximum(start: U64, events: seq<Event>)
    ensures forall e :: e in events && e.seqNo.Some? ==> e.seqNo.value <= LastSeq(start, events)
    ensures LastSeq(start, events) == start || exists e :: e in events && e.seqNo == Some(LastSeq(start, events))
  {
    if events != [] {
      LastSeqIsMaximum(start, events[..|events| - 1]);
      assert events == events[..|events| - 1] + [events[|events| - 1]];
    }
  }

  // ---------------------------------------------------------------- filtering

  lemma {:induction false} AfterConcat(a: seq<Event>, b: seq<Event>, after: Option<U64>)
    ensures After(a + b, after) == After(a, after) + After(b, after)
  {
    if b == [] {
      assert a + b == a;
    } else {
      assert (a + b)[..|a + b| - 1] == a + b[..|b| - 1];
      AfterConcat(a, b[..|b| - 1], after);
    }
  }

  lemma AfterStep(log: seq<Event>, k: nat, after: Option<U64>)
    requires k < |log|
    ensures After(log[..k + 1], after)
            == After(log[..k], after) + if IsAfter(log[k], after) then [log[k]] else []
  {
    assert log[..k + 1][..k] == log[..k];
  }

  lemma AfterSplit(log: seq<Event>, k: nat, after: Option<U64>)
    requires k <= |log|
    ensures After(log, after) == After(log[..k], after) + After(log[k..], after)
  {
    AfterConcat(log[..k], log[k..], after);
    assert log[..k] + log[k..] == log;
  }

  /** A prefix of a filtered log is the filtering of a prefix. */
  lemma {:induction false} PrefixOfAfter(p: seq<Event>, u: seq<Event>, after: Option<U64>) returns (k: nat)
    requires p <= After(u, after)
    ensures k <= |u| && p == After(u[..k], after)
  {
    if p == After(u, after) {
      k := |u|;
      assert u[..k] == u;
    } else {
      var w := u[..|u| - 1];
      k := PrefixOfAfter(p, w, after);
      assert w[..k] == u[..k];
    }
  }

  /** In an ordered log, filtering by the largest number already sent is filtering by position. */
  lemma {:induction false} CheckpointIsPosition(u: seq<Event>, pos: nat, k: nat, after: Option<U64>)
    requires Ascending(u) && pos <= |u| && k < |u|
    ensures IsAfter(u[k], Some(LastSeq(Floor(after), After(u[..pos], after)))) <==> k >= pos && IsAfter(u[k], after)
  {
    var sent := After(u[..pos], after);
    LastSeqIsMaximum(Floor(after), sent);
    AfterMembers(u[..pos], after);
    if k < pos {
      assert u[k] in u[..pos];
    }
  }

  lemma {:induction false} AfterAgrees(events: seq<Event>, a: Option<U64>, b: Option<U64>)
    requires forall i :: 0 <= i < |events| ==> (IsAfter(events[i], a) <==> IsAfter(events[i], b))
    ensures After(events, a) == After(events, b)
  {
    if events != [] {
      AfterAgrees(events[..|events| - 1], a, b);
    }
  }

  /** Raising a checkpoint past a sent prefix leaves exactly the rest to send. */
  lemma {:induction false} AfterCheckpoint(u: seq<Event>, pos: nat, after: Option<U64>, c: Option<U64>)
    requires Ascending(u) && pos <= |u|
    requires c == Some(LastSeq(Floor(after), After(u[..pos], after)))
    ensures After(u, after) == After(u[..pos], after) + After(u, c)
  {
    forall k | 0 <= k < |u|
      ensures IsAfter(u[k], c) <==> k >= pos && IsAfter(u[k], after)
    {
      CheckpointIsPosition(u, pos, k, after);
    }
    AfterSplit(u, pos, after);
    AfterSplit(u, pos, c);
    AfterAgrees(u[pos..], after, c);
    NothingAfter(u[..pos], c);
  }

  lemma {:induction false} NothingAfter(events: seq<Event>, c: Option<U64>)
    requires forall i :: 0 <= i < |events| ==> !IsAfter(events[i], c)
    ensures After(events, c) == []
  {
    if events != [] {
      NothingAfter(events[..|events| - 1], c);
    }
  }

  lemma {:induction false} AfterIsIncreasing(u: seq<Event>, after: Option<U64>)
    requires Increasing(u)
    ensures Increasing(After(u, after))
  {
    if u != [] {
      var w := u[..|u| - 1];
      AfterIsIncreasing(w, after);
      AfterMembers(w, after);
      forall e | e in After(w, after) && e.seqNo.Some? && u[|u| - 1].seqNo.Some?
        ensures e.seqNo.value < u[|u| - 1].seqNo.value
      {
        assert e in w;
      }
    }
  }

  // ---------------------------------------------------------------- growth

  lemma TerminalIsStable(log: seq<Event>, e: Event)
    ensures FirstTerminal(log) < |log| ==> FirstTerminal(log + [e]) == FirstTerminal(log)
    ensures FirstTerminal(log) == |log| ==>
              FirstTerminal(log + [e]) == if IsTerminal(e) then |log| else |log| + 1
  {
    var log' := log + [e];
    var t, t' := FirstTerminal(log), FirstTerminal(log');
    assert t < |log| ==> log'[t] == log[t];
    assert t' < |log| ==> log'[t'] == log[t'];
    assert log'[|log|] == e;
  }

  lemma OrderedPrefix(log: seq<Event>, e: Event)
    requires Ordered(log + [e])
    ensures Ordered(log)
  {
    TerminalIsStable(log, e);
    var u, u' := log[..End(log)], (log + [e])[..End(log + [e])];
    assert u <= u';
    assert forall i :: 0 <= i < |u| ==> u[i] == u'[i];
  }

  lemma BelowTerminalPrefix(after: Option<U64>, log: seq<Event>, e: Event)
    requires BelowTerminal(after, log + [e])
    ensures BelowTerminal(after, log)
  {
    TerminalIsStable(log, e);
  }

  lemma PrefixAfter(log: seq<Event>, m: nat, n: nat, after: Option<U64>)
    requires m <= n <= |log|
    ensures After(log[..m], after) <= After(log[..n], after)
  {
    AfterSplit(log[..n], m, after);
    assert log[..n][..m] == log[..m];
  }

  /** Growing the log only ever extends what is owed, and never past the first terminal event. */
  lemma TargetGrows(log: seq<Event>, e: Event, after: Option<U64>)
    ensures Target(log, after) <= Target(log + [e], after)
    ensures FirstTerminal(log) < |log| ==> Target(log, after) == Target(log + [e], after)
    ensures After(log[..FirstTerminal(log)], after)
            <= After((log + [e])[..FirstTerminal(log + [e])], after)
  {
    TerminalIsStable(log, e);
    var log', t, t' := log + [e], FirstTerminal(log), FirstTerminal(log + [e]);
    assert log'[..End(log)] == log[..End(log)];
    assert log'[..t] == log[..t];
    PrefixAfter(log', End(log), End(log'), after);
    PrefixAfter(log', t, t', after);
  }

  lemma {:induction false} NoTerminalBefore(log: seq<Event>, n: nat, after: Option<U64>, i: nat)
    requires n <= FirstTerminal(log) && i < |After(log[..n], after)|
    ensures !IsTerminal(After(log[..n], after)[i])
  {
    assert log[..n][..n - 1] == log[..n - 1];
    if i < |After(log[..n - 1], after)| {
      NoTerminalBefore(log, n - 1, after, i);
    }
  }

  /** The terminal event closes what is owed. */
  lemma {:induction false} TerminalIsOwed(log: seq<Event>, after: Option<U64>)
    requires FirstTerminal(log) < |log| && BelowTerminal(after, log)
    ensures Target(log, after) == After(log[..FirstTerminal(log)], after) + [log[FirstTerminal(log)]]
  {
    var t := FirstTerminal(log);
    assert log[..t + 1][..t] == log[..t];
  }
}
