/** The run-event store: one append-only log per run and the live subscribers of each run. */
module RunEvents {
  import opened Wrappers
  import opened Events

  const CHANNEL_CAPACITY := 64

  // ---------------------------------------------------------------- logs

  predicate IsAfter(e: Event, after: Option<U64>) {
    e.seqNo.Some? && (after.None? || e.seqNo.value > after.value)
  }

  /** The entries of a log whose sequence number lies above the checkpoint, in log order. */
  function After(log: seq<Event>, after: Option<U64>): (events: seq<Event>)
    ensures |events| <= |log|
  {
    if log == [] then []
    else
      var rest := After(log[..|log| - 1], after);
      var last := log[|log| - 1];
      if IsAfter(last, after) then rest + [last] else rest
  }

  lemma {:induction false} AfterMembers(log: seq<Event>, after: Option<U64>)
    ensures forall e :: e in After(log, after) <==> e in log && IsAfter(e, after)
  {
    if log != [] {
      AfterMembers(log[..|log| - 1], after);
      assert log == log[..|log| - 1] + [log[|log| - 1]];
    }
  }

  predicate HasTerminal(log: seq<Event>) {
    exists i :: 0 <= i < |log| && IsTerminal(log[i])
  }

  // ---------------------------------------------------------------- channels

  /** What a bounded channel looks like from outside: its queue and whether the receiver lives. */
  datatype Inbox = Inbox(queue: seq<Event>, open: bool)

  datatype SendOutcome = Accepted | Full | Closed

  function TrySendOutcome(inbox: Inbox): SendOutcome {
    if !inbox.open then Closed
    else if |inbox.queue| >= CHANNEL_CAPACITY then Full
    else Accepted
  }

  function TrySend(inbox: Inbox, e: Event): Inbox {
    if TrySendOutcome(inbox).Accepted? then inbox.(queue := inbox.queue + [e]) else inbox
  }

  class Channel {
    var queue: seq<Event>
    var open: bool

    constructor ()
      ensures View() == Inbox([], true)
    {
      queue, open := [], true;
    }

    function View(): Inbox
      reads this
    {
      Inbox(queue, open)
    }

    /** It can take one more event: its receiver lives and fewer than 64 events wait. */
    ghost predicate HasRoom()
      reads this
    {
      open && |queue| < 64
    }

    method Offer(e: Event) returns (outcome: SendOutcome)
      modifies this
      ensures open == old(open)
      ensures outcome == if !old(open) then Closed else if |old(queue)| < 64 then Accepted else Full
      ensures queue == old(queue) + if outcome.Accepted? then [e] else []
      ensures outcome == TrySendOutcome(old(View())) && View() == TrySend(old(View()), e)
    {
      if !open {
        return Closed;
      }
      if |queue| >= CHANNEL_CAPACITY {
        return Full;
      }
      queue := queue + [e];
      return Accepted;
    }
  }

  /** The senders whose channel would take one more event, in order. */
  ghost function Accepting(senders: seq<Channel>): seq<Channel>
    reads senders
  {
    if senders == [] then []
    else
      var last := senders[|senders| - 1];
      Accepting(senders[..|senders| - 1])
      + (if last.HasRoom() then [last] else [])
  }

  predicate Distinct(senders: seq<Channel>) {
    forall i, j :: 0 <= i < j < |senders| ==> senders[i] != senders[j]
  }

  /** The retain pass of a publish: offers the event to each sender once, in order. */
  method OfferAll(senders: seq<Channel>, e: Event) returns (kept: seq<Channel>)
    requires Distinct(senders)
    modifies senders
    ensures forall c :: c in senders ==> c.open == old(c.open) && c.queue == old(c.queue) + if old(c.HasRoom()) then [e] else []
    ensures kept == old(Accepting(senders))
    ensures forall c :: c in kept <==> c in senders && old(c.open && |c.queue| < 64)
    ensures Distinct(kept) && forall c :: c in kept ==> c in senders
  {
    kept := [];
    for i := 0 to |senders|
      invariant forall k :: 0 <= k < i ==>
                  senders[k].open == old(senders[k].open)
                  && senders[k].queue == old(senders[k].queue) + if old(senders[k].HasRoom()) then [e] else []
      invariant forall k :: i <= k < |senders| ==> unchanged(senders[k])
      invariant kept == old(Accepting(senders[..i]))
      invariant forall c :: c in kept <==> c in senders[..i] && old(c.open && |c.queue| < 64)
      invariant forall c :: c in kept ==> c in senders[..i]
      invariant Distinct(kept)
    {
      assert senders[..i + 1][..i] == senders[..i];
      assert senders[i] !in kept;
      var outcome := senders[i].Offer(e);
      if outcome.Accepted? {
        kept := kept + [senders[i]];
      }
    }
    assert senders[..|senders|] == senders;
  }

  // ---------------------------------------------------------------- the store

  predicate IsPlainChar(c: char) {
    'a' <= c <= 'z' || 'A' <= c <= 'Z' || '0' <= c <= '9' || c == '-' || c == '_' || c == '.'
  }

  /** The file name of a run's log. */
  function SanitizeRunId(runId: RunId): (name: string)
    ensures |name| == |runId|
    ensures forall i :: 0 <= i < |runId| ==> name[i] == if IsPlainChar(runId[i]) then runId[i] else '_'
  {
    if runId == "" then ""
    else
      var prefix := SanitizeRunId(runId[..|runId| - 1]);
      var c := runId[|runId| - 1];
      prefix + [if IsPlainChar(c) then c else '_']
  }

  /** A log's file name has letters, digits, '-', '_' and '.' and nothing else. */
  lemma {:induction false} FileNameIsPlain(runId: RunId)
    ensures forall c :: c in SanitizeRunId(runId) ==>
              'a' <= c <= 'z' || 'A' <= c <= 'Z' || '0' <= c <= '9' || c in "-_."
    ensures SanitizeRunId(runId) == runId <==> forall c :: c in runId ==>
              'a' <= c <= 'z' || 'A' <= c <= 'Z' || '0' <= c <= '9' || c in "-_."
  {
    var name := SanitizeRunId(runId);
    if SanitizeRunId(runId) != runId {
      var i :| 0 <= i < |runId| && name[i] != runId[i];
      assert runId[i] in runId;
    }
  }

  /** Ids of letters, digits, '-', '.' and ':' never share a log file. */
  lemma {:induction false} SanitizeIsInjective(a: RunId, b: RunId)
    requires forall c :: c in a + b ==>
               'a' <= c <= 'z' || 'A' <= c <= 'Z' || '0' <= c <= '9' || c == '-' || c == '.' || c == ':'
    requires SanitizeRunId(a) == SanitizeRunId(b)
    ensures a == b
  {
    forall i | 0 <= i < |a|
      ensures a[i] == b[i]
    {
      assert a[i] in a + b && b[i] in a + b;
    }
  }

  class RunEventStore {
    var files: map<string, seq<Event>>
    var subscribers: map<RunId, seq<Channel>>

    ghost predicate Valid()
      reads this
    {
      && (forall r :: r in subscribers ==> Distinct(subscribers[r]))
      && (forall a, b, c ::
            a in subscribers && b in subscribers && c in subscribers[a] && c in subscribers[b] ==> a == b)
    }

    function LogOf(runId: RunId): seq<Event>
      reads this`files
    {
      var name := SanitizeRunId(runId);
      if name in files then files[name] else []
    }

    function Senders(runId: RunId): seq<Channel>
      reads this`subscribers
    {
      if runId in subscribers then subscribers[runId] else []
    }

    constructor ()
      ensures Valid()
      ensures forall r :: LogOf(r) == [] && Senders(r) == []
    {
      files, subscribers := map[], map[];
    }

    method Append(runId: RunId, e: Event)
      modifies this`files
      ensures LogOf(runId) == old(LogOf(runId)) + [e]
      ensures forall r :: SanitizeRunId(r) != SanitizeRunId(runId) ==> LogOf(r) == old(LogOf(r))
    {
      files := files[SanitizeRunId(runId) := LogOf(runId) + [e]];
    }

    /** Every subscriber of the run is offered the event; one that is full or gone is dropped for
        good, and a terminal event drops them all. */
    method Publish(runId: RunId, e: Event)
      requires Valid()
      modifies this`subscribers, Senders(runId)
      ensures Valid()
      ensures forall c :: c in old(Senders(runId)) ==>
                c.open == old(c.open) && c.queue == old(c.queue) + if old(c.open && |c.queue| < 64) then [e] else []
      ensures Senders(runId) == if IsTerminal(e) then [] else old(Accepting(Senders(runId)))
      ensures e.kind.Finish? || e.kind.Error? ==> Senders(runId) == []
      ensures !e.kind.Finish? && !e.kind.Error? ==>
                forall c :: c in Senders(runId) <==> c in old(Senders(runId)) && old(c.open && |c.queue| < 64)
      ensures forall r :: r != runId ==> Senders(r) == old(Senders(r))
    {
      if runId !in subscribers {
        return;
      }
      var kept := OfferAll(subscribers[runId], e);
      subscribers := subscribers[runId := kept];
      if IsTerminal(e) {
        subscribers := subscribers - {runId};
      }
    }

    method AppendAndPublish(runId: RunId, e: Event)
      requires Valid()
      modifies this, Senders(runId)
      ensures Valid()
      ensures LogOf(runId) == old(LogOf(runId)) + [e]
      ensures forall r :: SanitizeRunId(r) != SanitizeRunId(runId) ==> LogOf(r) == old(LogOf(r))
      ensures forall c :: c in old(Senders(runId)) ==>
                c.open == old(c.open) && c.queue == old(c.queue) + if old(c.open && |c.queue| < 64) then [e] else []
      ensures Senders(runId) == if IsTerminal(e) then [] else old(Accepting(Senders(runId)))
      ensures e.kind.Finish? || e.kind.Error? ==> Senders(runId) == []
      ensures !e.kind.Finish? && !e.kind.Error? ==>
                forall c :: c in Senders(runId) <==> c in old(Senders(runId)) && old(c.open && |c.queue| < 64)
      ensures forall r :: r != runId ==> Senders(r) == old(Senders(r))
    {
      Append(runId, e);
      Publish(runId, e);
    }

    method Subscribe(runId: RunId) returns (receiver: Channel)
      requires Valid()
      modifies this`subscribers
      ensures Valid() && fresh(receiver) && receiver.View() == Inbox([], true)
      ensures Senders(runId) == old(Senders(runId)) + [receiver]
      ensures forall r :: r != runId ==> Senders(r) == old(Senders(r))
    {
      receiver := new Channel();
      subscribers := subscribers[runId := Senders(runId) + [receiver]];
    }

    method LoadAfter(runId: RunId, after: Option<U64>) returns (events: seq<Event>)
      ensures events == After(LogOf(runId), after)
    {
      var log := LogOf(runId);
      events := [];
      for i := 0 to |log|
        invariant events == After(log[..i], after)
      {
        assert log[..i + 1][..i] == log[..i];
        if IsAfter(log[i], after) {
          events := events + [log[i]];
        }
      }
      assert log[..|log|] == log;
    }

    method LogHasTerminal(runId: RunId) returns (found: bool)
      ensures found <==> HasTerminal(LogOf(runId))
    {
      var log := LogOf(runId);
      for i := 0 to |log|
        invariant !HasTerminal(log[..i])
      {
        if IsTerminal(log[i]) {
          return true;
        }
      }
      assert log[..|log|] == log;
      return false;
    }
  }
}
