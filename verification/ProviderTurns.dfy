/** One provider turn inside agent-core: cumulative snapshots of messages come in, events go out,
    and the turn's messages are the last snapshot of each. */
module ProviderTurns {
  import opened Wrappers
  import opened Events
  import opened Text

  // ---------------------------------------------------------------- numbering

  /** A 64-bit counter wraps around. */
  function Wrap(n: nat): U64 {
    n % (U64_MAX + 1)
  }

  lemma WrapAdd(a: nat, b: nat)
    ensures Wrap(Wrap(a) + b) == Wrap(a + b)
  {
  }

  lemma FitsUnwrapped(n: U64)
    ensures Wrap(n) == n
  {
  }

  /** The part of a run's context that numbers and sends events, as one thread sees it that is alone with
      it. The counter starts at 1. */
  class RunContext {
    const runId: RunId
    var nextSeq: U64
    var output: seq<Event>

    constructor (runId: RunId)
      ensures this.runId == runId && nextSeq == 1 && output == []
    {
      this.runId, nextSeq, output := runId, 1, [];
    }

    /** All that was sent since these moments of the output and the counter. */
    ghost predicate HasSent(before: seq<Event>, from: U64, kinds: seq<Kind>)
      reads this
    {
      output == before + Numbered(runId, from, kinds) && nextSeq == Wrap(from + |kinds|)
    }

    method NextSeq() returns (n: U64)
      modifies this`nextSeq
      ensures n == old(nextSeq) && nextSeq == Wrap(n + 1)
    {
      n := nextSeq;
      nextSeq := Wrap(nextSeq + 1);
    }

    method Send(kind: Kind)
      modifies this
      ensures output == old(output) + [Event(Some(runId), Some(old(nextSeq)), kind)]
      ensures nextSeq == Wrap(old(nextSeq) + 1)
    {
      var n := NextSeq();
      output := output + [Event(Some(runId), Some(n), kind)];
    }
  }

  /** These kinds, numbered from `from` on. */
  function Numbered(runId: RunId, from: U64, kinds: seq<Kind>): (events: seq<Event>)
    ensures |events| == |kinds|
  {
    if kinds == [] then []
    else Numbered(runId, from, kinds[..|kinds| - 1])
         + [Event(Some(runId), Some(Wrap(from + |kinds| - 1)), kinds[|kinds| - 1])]
  }

  /** A fresh run's events are numbered 1, 2, 3, … until the counter would wrap. */
  lemma {:induction false} NumberedFromOne(runId: RunId, kinds: seq<Kind>)
    requires |kinds| <= U64_MAX
    ensures forall i :: 0 <= i < |kinds| ==>
              Numbered(runId, 1, kinds)[i].seqNo == Some(i + 1) && Numbered(runId, 1, kinds)[i].kind == kinds[i]
  {
    if kinds != [] {
      NumberedFromOne(runId, kinds[..|kinds| - 1]);
    }
  }

  // ---------------------------------------------------------------- emitting

  function TextParts(content: seq<ContentBlock>): seq<string> {
    if content == [] then []
    else
      (match content[0]
       case Text(text) => [text]
       case Thinking(text) => [text]
       case _ => [])
      + TextParts(content[1..])
  }

  function TextContent(m: Message): string {
    Join(TextParts(m.content), "\n")
  }

  predicate HasToolRequest(m: Message) {
    exists i :: 0 <= i < |m.content| && m.content[i].ToolRequest?
  }

  predicate HasToolBlock(m: Message) {
    exists i :: 0 <= i < |m.content| && (m.content[i].ToolRequest? || m.content[i].ToolResponse?)
  }

  function StreamedText(streamed: map<string, string>, id: string): string {
    if id in streamed then streamed[id] else ""
  }

  /** What one snapshot adds to the stream: a delta when it extends the text streamed so far, the
      whole message when it says something else, and the whole message again when tools are in it. */
  function SnapshotEvents(streamed: map<string, string>, m: Message, deltas: bool): seq<Kind> {
    if !deltas then [MessageSent(Some(m))]
    else
      var current, previous := TextContent(m), StreamedText(streamed, m.id);
      (if previous < current then [MessageDelta(Some(m.id), Some(current[|previous|..]))]
       else if current != "" && current != previous then [MessageSent(Some(m))]
       else [])
      + (if HasToolBlock(m) then [MessageSent(Some(m))] else [])
  }

  /** The text of a message is that of its texts and thoughts, one below the other. */
  lemma {:induction false} TextPartsAre(block: ContentBlock, rest: seq<ContentBlock>)
    ensures TextParts([]) == []
    ensures TextParts([block] + rest)
            == (match block
                case Text(text) => [text]
                case Thinking(text) => [text]
                case ToolRequest(_, _, _) => []
                case ToolResponse(_, _, _) => []) + TextParts(rest)
    ensures TextContent(Message("", Assistant, [block] + rest)) == Join(TextParts([block] + rest), "\n")
  {
    assert ([block] + rest)[1..] == rest;
  }

  /** What a snapshot sends: the rest of a text that has grown, the whole message when its text has become
      another or there is a tool request or response in it, and always that when deltas are off. */
  lemma {:induction false} SnapshotSends(streamed: map<string, string>, m: Message)
    ensures SnapshotEvents(streamed, m, false) == [MessageSent(Some(m))]
    ensures var was, now, events := StreamedText(streamed, m.id), TextContent(m), SnapshotEvents(streamed, m, true);
            var hasTools := exists i :: 0 <= i < |m.content| && (m.content[i].ToolRequest? || m.content[i].ToolResponse?);
            && (MessageSent(Some(m)) in events <==> hasTools || (now != "" && !(was <= now)))
            && (forall e :: e in events && e.MessageDelta? ==>
                  e.messageId == Some(m.id) && e.delta.Some? && e.delta.value != "" && was + e.delta.value == now)
            && ((exists e :: e in events && e.MessageDelta?) <==> was < now)
            && (forall e :: e in events ==> e.MessageDelta? || e == MessageSent(Some(m)))
  {
    hide TextContent, StreamedText;
    var was, now, events := StreamedText(streamed, m.id), TextContent(m), SnapshotEvents(streamed, m, true);
    if was < now {
      assert events[0].MessageDelta?;
    }
    if HasToolBlock(m) {
      assert events[|events| - 1] == MessageSent(Some(m));
    }
  }

  /** The text counted as streamed: the last one that was not empty. */
  function AfterSnapshot(streamed: map<string, string>, m: Message, deltas: bool): map<string, string> {
    if !deltas then streamed
    else streamed[m.id := if TextContent(m) != "" then TextContent(m) else StreamedText(streamed, m.id)]
  }

  function StreamedAfter(snapshots: seq<Message>, deltas: bool): map<string, string> {
    if snapshots == [] then map[]
    else AfterSnapshot(StreamedAfter(snapshots[..|snapshots| - 1], deltas), snapshots[|snapshots| - 1], deltas)
  }

  function TurnEvents(snapshots: seq<Message>, deltas: bool): seq<Kind> {
    if snapshots == [] then []
    else
      var before := snapshots[..|snapshots| - 1];
      TurnEvents(before, deltas) + SnapshotEvents(StreamedAfter(before, deltas), snapshots[|snapshots| - 1], deltas)
  }

  lemma {:induction false} NumberedConcat(runId: RunId, from: U64, a: seq<Kind>, b: seq<Kind>)
    ensures Numbered(runId, from, a + b)
            == Numbered(runId, from, a) + Numbered(runId, Wrap(from + |a|), b)
  {
    if b == [] {
      assert a + b == a;
    } else {
      assert (a + b)[..|a + b| - 1] == a + b[..|b| - 1];
      NumberedConcat(runId, from, a, b[..|b| - 1]);
      WrapAdd(from + |a|, |b| - 1);
      hide Wrap;
    }
  }

  /** What is sent later goes behind what was sent before. */
  lemma NumberedMore(runId: RunId, from: U64, a: seq<Kind>, b: seq<Kind>)
    ensures Numbered(runId, from, a) + Numbered(runId, Wrap(from + |a|), b) == Numbered(runId, from, a + b)
    ensures Wrap(Wrap(from + |a|) + |b|) == Wrap(from + |a + b|)
  {
    hide Numbered, Wrap;
    NumberedConcat(runId, from, a, b);
    WrapAdd(from + |a|, |b|);
  }

  lemma NumberedNoneOrOne(runId: RunId, from: U64, kind: Kind)
    ensures Numbered(runId, from, []) == [] && Wrap(from) == from
    ensures Numbered(runId, from, [kind]) == [Event(Some(runId), Some(from), kind)]
  {
    assert [kind][..0] == [];
  }

  // ---------------------------------------------------------------- a whole turn

  /** One item of the provider's stream, with the cancel flag as it stands when the item arrives. */
  datatype Chunk = Snapshot(m: Message) | UsageOnly | StreamFailed(retryable: bool)

  datatype StreamItem = StreamItem(cancelled: bool, chunk: Chunk)

  datatype TurnError = CancelledTurn | ProviderFailure(retryable: bool)

  predicate EndsTurn(item: StreamItem) {
    item.cancelled || item.chunk.StreamFailed?
  }

  /** The snapshots taken in before the stream ends or is cut short. */
  function SeenSnapshots(items: seq<StreamItem>): seq<Message> {
    if items == [] || EndsTurn(items[0]) then []
    else (if items[0].chunk.Snapshot? then [items[0].chunk.m] else []) + SeenSnapshots(items[1..])
  }

  function StreamError(items: seq<StreamItem>): Option<TurnError> {
    if items == [] then None
    else if items[0].cancelled then Some(CancelledTurn)
    else if items[0].chunk.StreamFailed? then Some(ProviderFailure(items[0].chunk.retryable))
    else StreamError(items[1..])
  }

  /** Message ids in the order they first appeared. */
  function FirstIds(snapshots: seq<Message>): seq<string> {
    if snapshots == [] then []
    else
      var ids := FirstIds(snapshots[..|snapshots| - 1]);
      var id := snapshots[|snapshots| - 1].id;
      if id in ids then ids else ids + [id]
  }

  /** The last snapshot of a message. */
  function Latest(snapshots: seq<Message>, id: string): Option<Message> {
    if snapshots == [] then None
    else if snapshots[|snapshots| - 1].id == id then Some(snapshots[|snapshots| - 1])
    else Latest(snapshots[..|snapshots| - 1], id)
  }

  lemma {:induction false} FirstIdsAreDistinct(snapshots: seq<Message>)
    ensures forall i, j :: 0 <= i < j < |FirstIds(snapshots)| ==> FirstIds(snapshots)[i] != FirstIds(snapshots)[j]
  {
    if snapshots != [] {
      FirstIdsAreDistinct(snapshots[..|snapshots| - 1]);
    }
  }

  lemma {:induction false} LatestIsListed(snapshots: seq<Message>, id: string)
    ensures id in FirstIds(snapshots) <==> Latest(snapshots, id).Some?
    ensures Latest(snapshots, id).Some? ==> Latest(snapshots, id).value.id == id
  {
    if snapshots != [] {
      LatestIsListed(snapshots[..|snapshots| - 1], id);
    }
  }

  /** The last snapshots of these messages, in this order. */
  function LatestOf(snapshots: seq<Message>, ids: seq<string>): (messages: seq<Message>)
    requires forall id :: id in ids ==> Latest(snapshots, id).Some?
    ensures |messages| == |ids|
    ensures forall i :: 0 <= i < |ids| ==> Some(messages[i]) == Latest(snapshots, ids[i])
  {
    if ids == [] then []
    else
      var n := |ids| - 1;
      assert ids[n] in ids;
      LatestOf(snapshots, ids[..n]) + [Latest(snapshots, ids[n]).value]
  }

  /** The messages of a turn: the last snapshot of each, in order of first appearance. */
  function LastSnapshots(snapshots: seq<Message>): seq<Message> {
    assert forall id :: id in FirstIds(snapshots) ==> Latest(snapshots, id).Some? by {
      forall id | id in FirstIds(snapshots)
        ensures Latest(snapshots, id).Some?
      {
        LatestIsListed(snapshots, id);
      }
    }
    LatestOf(snapshots, FirstIds(snapshots))
  }

  predicate AnyToolRequest(snapshots: seq<Message>) {
    exists i :: 0 <= i < |snapshots| && HasToolRequest(snapshots[i])
  }

  datatype ProviderTurn = ProviderTurn(messages: seq<Message>, hasToolRequests: bool)

  lemma {:induction false} SeenPrefix(items: seq<StreamItem>, k: nat)
    requires k <= |items| && forall i :: 0 <= i < k ==> !EndsTurn(items[i])
    ensures SeenSnapshots(items) == SeenSnapshots(items[..k]) + SeenSnapshots(items[k..])
    ensures StreamError(items) == StreamError(items[k..])
    decreases k
  {
    if k == 0 {
      assert items[0..] == items;
    } else {
      SeenPrefix(items[1..], k - 1);
      assert items[..k][1..] == items[1..][..k - 1];
      assert items[1..][k - 1..] == items[k..];
    }
  }

  lemma SeenOneMore(items: seq<StreamItem>, k: nat)
    requires k < |items| && forall i :: 0 <= i <= k ==> !EndsTurn(items[i])
    ensures SeenSnapshots(items[..k + 1])
            == SeenSnapshots(items[..k]) + if items[k].chunk.Snapshot? then [items[k].chunk.m] else []
  {
    SeenPrefix(items[..k + 1], k);
    assert items[..k + 1][..k] == items[..k];
    assert items[..k + 1][k..] == [items[k]];
    assert SeenSnapshots([items[k]][1..]) == [];
  }

  // ---------------------------------------------------------------- the turn in place

  lemma AnyToolRequestGrows(seen: seq<Message>, m: Message)
    ensures AnyToolRequest(seen + [m]) <==> AnyToolRequest(seen) || HasToolRequest(m)
  {
    var more := seen + [m];
    assert more[|seen|] == m;
    assert forall i :: 0 <= i < |seen| ==> more[i] == seen[i];
  }

  lemma OneMore(seen: seq<Message>, m: Message, deltas: bool)
    ensures StreamedAfter(seen + [m], deltas) == AfterSnapshot(StreamedAfter(seen, deltas), m, deltas)
    ensures FirstIds(seen + [m]) == FirstIds(seen) + if m.id in FirstIds(seen) then [] else [m.id]
    ensures forall id :: Latest(seen + [m], id) == if id == m.id then Some(m) else Latest(seen, id)
  {
    hide AfterSnapshot;
    var more := seen + [m];
    assert more[..|more| - 1] == seen && more[|more| - 1] == m;
  }

  lemma SendMore(runId: RunId, from: U64, seen: seq<Message>, m: Message, deltas: bool)
    ensures var sent, more := TurnEvents(seen, deltas), SnapshotEvents(StreamedAfter(seen, deltas), m, deltas);
            && TurnEvents(seen + [m], deltas) == sent + more
            && Numbered(runId, from, sent + more)
               == Numbered(runId, from, sent) + Numbered(runId, Wrap(from + |sent|), more)
            && Wrap(Wrap(from + |sent|) + |more|) == Wrap(from + |sent + more|)
  {
    hide Numbered, Wrap, SnapshotEvents, StreamedAfter;
    assert (seen + [m])[..|seen|] == seen;
    var sent, more := TurnEvents(seen, deltas), SnapshotEvents(StreamedAfter(seen, deltas), m, deltas);
    NumberedConcat(runId, from, sent, more);
    WrapAdd(from + |sent|, |more|);
  }

  /** The local state of a running turn: the text streamed for each message, the messages in order
      of appearance and their last snapshots. `seen` are the snapshots taken in so far, `before` and
      `from` the events and the counter of the run's context as the turn found them. */
  class TurnState {
    const context: RunContext
    const deltas: bool
    var streamedText: map<string, string>
    var order: seq<string>
    var latest: map<string, Message>
    var hasToolRequests: bool
    ghost var seen: seq<Message>
    ghost const before: seq<Event>
    ghost const from: U64

    ghost predicate Valid()
      reads this
    {
      && streamedText == StreamedAfter(seen, deltas)
      && order == FirstIds(seen)
      && (forall id :: id in latest <==> id in order)
      && (forall id :: id in order ==> Some(latest[id]) == Latest(seen, id))
      && (hasToolRequests <==> AnyToolRequest(seen))
    }

    /** All that was sent since the turn began is the events of the snapshots seen. */
    ghost predicate Sent()
      reads this, context
    {
      context.HasSent(before, from, TurnEvents(seen, deltas))
    }

    constructor (context: RunContext, deltas: bool)
      ensures Valid() && Sent() && this.context == context && this.deltas == deltas && seen == []
      ensures before == context.output && from == context.nextSeq
    {
      this.context, this.deltas := context, deltas;
      streamedText, order, latest, hasToolRequests, seen := map[], [], map[], false, [];
      before, from := context.output, context.nextSeq;
      FitsUnwrapped(context.nextSeq);
    }

    method EmitProviderMessage(m: Message)
      modifies this`streamedText, context
      ensures streamedText == AfterSnapshot(old(streamedText), m, deltas)
      ensures context.output == old(context.output)
                + Numbered(context.runId, old(context.nextSeq), SnapshotEvents(old(streamedText), m, deltas))
      ensures context.nextSeq == Wrap(old(context.nextSeq) + |SnapshotEvents(old(streamedText), m, deltas)|)
    {
      hide Wrap, TextContent, HasToolBlock, Numbered;
      ghost var start, sent := context.nextSeq, context.output;
      NumberedNoneOrOne(context.runId, start, MessageSent(Some(m)));
      if !deltas {
        context.Send(MessageSent(Some(m)));
        return;
      }
      var current := TextContent(m);
      var previous := StreamedText(streamedText, m.id);
      streamedText := streamedText[m.id := previous];
      ghost var first: seq<Kind> := [];
      if previous < current {
        var delta := MessageDelta(Some(m.id), Some(current[|previous|..]));
        NumberedNoneOrOne(context.runId, start, delta);
        context.Send(delta);
        streamedText := streamedText[m.id := current];
        first := [delta];
      } else if current != "" && current != previous {
        context.Send(MessageSent(Some(m)));
        streamedText := streamedText[m.id := current];
        first := [MessageSent(Some(m))];
      }
      assert context.output == sent + Numbered(context.runId, start, first) && context.nextSeq == Wrap(start + |first|);
      if HasToolBlock(m) {
        NumberedNoneOrOne(context.runId, context.nextSeq, MessageSent(Some(m)));
        NumberedConcat(context.runId, start, first, [MessageSent(Some(m))]);
        WrapAdd(start + |first|, 1);
        context.Send(MessageSent(Some(m)));
      } else {
        assert first + [] == first;
      }
    }

    /** Makes a snapshot its message's latest. */
    method Record(m: Message, ghost streamedBefore: map<string, string>)
      requires streamedBefore == StreamedAfter(seen, deltas)
      requires streamedText == AfterSnapshot(streamedBefore, m, deltas)
      requires order == FirstIds(seen)
      requires forall id :: id in latest <==> id in order
      requires forall id :: id in order ==> Some(latest[id]) == Latest(seen, id)
      requires hasToolRequests <==> AnyToolRequest(seen)
      modifies this
      ensures Valid() && seen == old(seen) + [m]
    {
      hide AfterSnapshot, HasToolRequest, AnyToolRequest, StreamedAfter, FirstIds, Latest;
      OneMore(seen, m, deltas);
      AnyToolRequestGrows(seen, m);
      hasToolRequests := hasToolRequests || HasToolRequest(m);
      if m.id !in latest {
        order := order + [m.id];
      }
      latest := latest[m.id := m];
      seen := seen + [m];
    }

    /** Takes in one snapshot: emits what it adds and makes it its message's latest. */
    method Take(m: Message)
      requires Valid() && Sent()
      modifies this, context
      ensures Valid() && Sent() && seen == old(seen) + [m]
    {
      hide Wrap, Numbered, SnapshotEvents, AfterSnapshot, AnyToolRequest, TurnEvents, StreamedAfter, FirstIds, Latest;
      SendMore(context.runId, from, seen, m, deltas);
      ghost var sent, streamed := TurnEvents(seen, deltas), streamedText;
      ghost var added := SnapshotEvents(streamed, m, deltas);
      EmitProviderMessage(m);
      assert context.output == before + Numbered(context.runId, from, sent + added);
      Record(m, streamed);
      assert TurnEvents(seen, deltas) == sent + added;
    }

    /** The turn's messages, each taken out of the table as it is listed. */
    method Messages() returns (messages: seq<Message>)
      requires Valid()
      modifies this`latest
      ensures messages == LastSnapshots(seen)
    {
      hide StreamedAfter, FirstIds, Latest, AnyToolRequest, LastSnapshots;
      FirstIdsAreDistinct(seen);
      messages := [];
      ghost var were := latest;
      for i := 0 to |order|
        invariant |messages| == i && forall j :: 0 <= j < i ==> messages[j] == were[order[j]]
        invariant forall j :: i <= j < |order| ==> order[j] in latest && latest[order[j]] == were[order[j]]
      {
        messages := messages + [latest[order[i]]];
        latest := latest - {order[i]};
      }
      ListedIsLatest(seen, order, were, messages);
    }
  }

  lemma CutShort(items: seq<StreamItem>, k: nat)
    requires k < |items| && EndsTurn(items[k]) && forall i :: 0 <= i < k ==> !EndsTurn(items[i])
    ensures SeenSnapshots(items) == SeenSnapshots(items[..k])
    ensures StreamError(items) == if items[k].cancelled then Some(CancelledTurn)
                                  else Some(ProviderFailure(items[k].chunk.retryable))
  {
    SeenPrefix(items, k);
    assert items[k..][0] == items[k];
  }

  lemma ListedIsLatest(seen: seq<Message>, order: seq<string>, latest: map<string, Message>, messages: seq<Message>)
    requires order == FirstIds(seen) && |messages| == |order|
    requires forall id :: id in order ==> id in latest && Some(latest[id]) == Latest(seen, id)
    requires forall i :: 0 <= i < |order| ==> order[i] in latest && messages[i] == latest[order[i]]
    ensures messages == LastSnapshots(seen)
  {
    hide FirstIds, Latest;
    assert forall i :: 0 <= i < |order| ==> order[i] in order;
  }

  lemma NothingSeen(items: seq<StreamItem>)
    ensures SeenSnapshots(items[..0]) == []
  {
  }

  lemma SeenAll(items: seq<StreamItem>)
    requires forall i :: 0 <= i < |items| ==> !EndsTurn(items[i])
    ensures SeenSnapshots(items[..|items|]) == SeenSnapshots(items) && StreamError(items) == None
  {
    assert items[..|items|] == items;
    SeenPrefix(items, |items|);
  }

  method RunProviderTurn(context: RunContext, items: seq<StreamItem>, deltas: bool)
      returns (r: Result<ProviderTurn, TurnError>)
    modifies context
    ensures r == match StreamError(items)
                 case Some(error) => Err(error)
                 case None => Ok(ProviderTurn(LastSnapshots(SeenSnapshots(items)), AnyToolRequest(SeenSnapshots(items))))
    ensures var sent := TurnEvents(SeenSnapshots(items), deltas);
            && context.output == old(context.output) + Numbered(context.runId, old(context.nextSeq), sent)
            && context.nextSeq == Wrap(old(context.nextSeq) + |sent|)
  {
    var turn := new TurnState(context, deltas);
    NothingSeen(items);
    hide Wrap, Numbered, TurnEvents, AnyToolRequest, LastSnapshots, SeenSnapshots, StreamError, FirstIds, Latest, StreamedAfter;
    for k := 0 to |items|
      invariant fresh(turn) && turn.Valid() && turn.Sent()
      invariant forall i :: 0 <= i < k ==> !EndsTurn(items[i])
      invariant turn.seen == SeenSnapshots(items[..k])
    {
      if items[k].cancelled {
        CutShort(items, k);
        return Err(CancelledTurn);
      }
      if items[k].chunk.StreamFailed? {
        CutShort(items, k);
        return Err(ProviderFailure(items[k].chunk.retryable));
      }
      SeenOneMore(items, k);
      if items[k].chunk.Snapshot? {
        turn.Take(items[k].chunk.m);
      }
    }
    SeenAll(items);
    var hasToolRequests := turn.hasToolRequests;
    var messages := turn.Messages();
    return Ok(ProviderTurn(messages, hasToolRequests));
  }
}
