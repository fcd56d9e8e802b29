/** The two ends of the delta codec together: agent-core turns cumulative snapshots into deltas and
    full messages, the server folds them back into its stored conversation. */
module Codec {
  import opened Wrappers
  import opened Events
  import opened Conversations
  import opened ProviderTurns

  // ---------------------------------------------------------------- what a provider streams

  predicate TextFirst(m: Message) {
    m.content != [] && m.content[0].Text?
  }

  predicate ToolsFirst(m: Message) {
    m.content != [] && m.content[0].ToolRequest?
  }

  /** A snapshot is one text block, possibly empty, or what has accumulated so far: a text if there
      is any, then tool requests. */
  predicate IsSnapshot(m: Message) {
    && m.id != "" && m.role.Assistant?
    && (TextFirst(m) || ToolsFirst(m))
    && (forall i :: 1 <= i < |m.content| ==> m.content[i].ToolRequest?)
    && (|m.content| > 1 ==> m.content[0] != Text(""))
  }

  predicate IsEmptyText(m: Message) {
    m.content == [Text("")]
  }

  /** The snapshots of a turn whose message ids are new to the conversation; a message that shows an
      empty text is a plain text message throughout. */
  predicate IsStream(conversation: seq<Message>, snapshots: seq<Message>) {
    && (forall i :: 0 <= i < |snapshots| ==> IsSnapshot(snapshots[i]) && IndexOf(conversation, snapshots[i].id).None?)
    && (forall i, j :: 0 <= i < |snapshots| && 0 <= j < |snapshots| ==>
          snapshots[i].id == snapshots[j].id && IsEmptyText(snapshots[i]) ==> TextFirst(snapshots[j]))
  }

  /** Snapshot `j` shows tool requests alone where an earlier one of the same message had text. */
  predicate DropsTextAt(snapshots: seq<Message>, j: nat)
    requires j < |snapshots|
  {
    ToolsFirst(snapshots[j])
    && exists i :: 0 <= i < j && snapshots[i].id == snapshots[j].id && TextContent(snapshots[i]) != ""
  }

  predicate DropsText(snapshots: seq<Message>) {
    exists j :: 0 <= j < |snapshots| && DropsTextAt(snapshots, j)
  }

  lemma {:induction false} SnapshotText(m: Message)
    requires IsSnapshot(m)
    ensures TextContent(m) == if TextFirst(m) then m.content[0].text else ""
    ensures HasToolBlock(m) <==> ToolsFirst(m) || |m.content| > 1
  {
    NoTextParts(m.content, 1);
    if |m.content| > 1 {
      assert m.content[1].ToolRequest?;
    }
  }

  lemma {:induction false} NoTextParts(content: seq<ContentBlock>, from: nat)
    requires from <= |content| && forall i :: from <= i < |content| ==> content[i].ToolRequest?
    ensures TextParts(content[from..]) == []
    decreases |content| - from
  {
    if from < |content| {
      NoTextParts(content, from + 1);
      assert content[from..][1..] == content[from + 1..];
    }
  }

  // ---------------------------------------------------------------- lookups

  lemma {:induction false} IndexOfPrefix(a: seq<Message>, b: seq<Message>, id: string)
    requires a <= b
    ensures IndexOf(a, id).Some? ==> IndexOf(b, id) == IndexOf(a, id)
    ensures IndexOf(a, id).None? && IndexOf(b, id).Some? ==> |a| <= IndexOf(b, id).value
  {
  }

  lemma {:induction false} IndexOfAdded(conversation: seq<Message>, m: Message, id: string)
    ensures IndexOf(conversation + [m], id)
            == if IndexOf(conversation, id).Some? then IndexOf(conversation, id)
               else if m.id == id then Some(|conversation|) else None
  {
    hide IndexOf;
    var more := conversation + [m];
    IndexOfPrefix(conversation, more, id);
    assert more[|conversation|] == m;
  }

  lemma {:induction false} IndexOfReplaced(conversation: seq<Message>, at: nat, m: Message, id: string)
    requires at < |conversation| && conversation[at].id == m.id
    ensures IndexOf(conversation[at := m], id) == IndexOf(conversation, id)
  {
    hide IndexOf;
    var other := conversation[at := m];
    assert forall i :: 0 <= i < |conversation| ==> other[i].id == conversation[i].id;
    var x, y := IndexOf(conversation, id), IndexOf(other, id);
    if x.Some? && y.Some? {
      assert conversation[x.value].id == id && other[y.value].id == id;
    }
  }

  lemma {:induction false} PersistConcat(conversation: seq<Message>, a: seq<Kind>, b: seq<Kind>)
    ensures PersistAll(conversation, a + b) == PersistAll(PersistAll(conversation, a), b)
  {
    hide Persist;
    if b == [] {
      assert a + b == a;
    } else {
      assert (a + b)[..|a + b| - 1] == a + b[..|b| - 1];
      PersistConcat(conversation, a, b[..|b| - 1]);
    }
  }

  // ---------------------------------------------------------------- what the server holds

  /** `base` is untouched, and every later message is the only one with its id. */
  predicate OnceEach(base: seq<Message>, conversation: seq<Message>) {
    && base <= conversation
    && forall i :: |base| <= i < |conversation| ==> IndexOf(conversation, conversation[i].id) == Some(i)
  }

  /** A streamed message as stored: it begins with the text streamed for it, or there is none yet
      and it begins with a tool request. */
  predicate Mirrors(m: Message, streamed: map<string, string>, toolIds: set<string>) {
    && m.role.Assistant? && m.content != [] && m.id in streamed
    && if streamed[m.id] != "" then m.content[0] == Text(streamed[m.id])
       else m.id in toolIds && forall i :: 0 <= i < |m.content| ==> m.content[i].ToolRequest?
  }

  predicate Stored(base: seq<Message>, conversation: seq<Message>, streamed: map<string, string>, toolIds: set<string>) {
    && OnceEach(base, conversation)
    && (forall i :: |base| <= i < |conversation| ==> Mirrors(conversation[i], streamed, toolIds))
    && (forall id :: id in streamed && streamed[id] != "" ==> IndexOf(conversation, id).Some?)
    && (forall id :: id in toolIds ==> IndexOf(conversation, id).Some?)
  }

  /** The ids of messages that have begun with a tool request. */
  function ToolIds(snapshots: seq<Message>): set<string> {
    if snapshots == [] then {}
    else ToolIds(snapshots[..|snapshots| - 1])
         + if ToolsFirst(snapshots[|snapshots| - 1]) then {snapshots[|snapshots| - 1].id} else {}
  }

  /** Puts `m` in the place of the message with its id, or at the end. */
  function Place(conversation: seq<Message>, m: Message): seq<Message> {
    var at := IndexOf(conversation, m.id);
    if at.Some? then conversation[at.value := m] else conversation + [m]
  }

  lemma {:induction false} PlacedIndex(conversation: seq<Message>, m: Message, id: string)
    ensures IndexOf(Place(conversation, m), id)
            == if id == m.id && IndexOf(conversation, id).None? then Some(|conversation|) else IndexOf(conversation, id)
  {
    hide IndexOf;
    var at := IndexOf(conversation, m.id);
    if at.Some? {
      IndexOfReplaced(conversation, at.value, m, id);
    } else {
      IndexOfAdded(conversation, m, id);
    }
  }

  lemma {:induction false} PlaceKeepsOnce(base: seq<Message>, conversation: seq<Message>, m: Message)
    requires OnceEach(base, conversation) && IndexOf(base, m.id).None?
    ensures OnceEach(base, Place(conversation, m))
  {
    hide IndexOf;
    var placed := Place(conversation, m);
    IndexOfPrefix(base, conversation, m.id);
    forall i | |base| <= i < |placed|
      ensures IndexOf(placed, placed[i].id) == Some(i)
    {
      PlacedIndex(conversation, m, placed[i].id);
      if i < |conversation| {
        assert placed[i].id == conversation[i].id;
      }
    }
  }

  lemma {:induction false} PlaceKeepsStored(base: seq<Message>, conversation: seq<Message>, m: Message,
                         streamed: map<string, string>, toolIds: set<string>, text: string, moreIds: set<string>)
    requires Stored(base, conversation, streamed, toolIds) && IndexOf(base, m.id).None?
    requires toolIds <= moreIds <= toolIds + {m.id} && Mirrors(m, streamed[m.id := text], moreIds)
    ensures Stored(base, Place(conversation, m), streamed[m.id := text], moreIds)
  {
    hide IndexOf;
    var placed, at := Place(conversation, m), IndexOf(conversation, m.id);
    PlaceKeepsOnce(base, conversation, m);
    forall id
      ensures id in streamed[m.id := text] && streamed[m.id := text][id] != "" ==> IndexOf(placed, id).Some?
      ensures id in moreIds ==> IndexOf(placed, id).Some?
    {
      PlacedIndex(conversation, m, id);
    }
    forall i | |base| <= i < |placed|
      ensures Mirrors(placed[i], streamed[m.id := text], moreIds)
    {
      if placed[i].id != m.id {
        assert placed[i] == conversation[i];
      } else {
        assert IndexOf(placed, m.id) == Some(i);
      }
    }
  }

  // ---------------------------------------------------------------- one snapshot

  /** The text step: a delta or a full message brings the stored text up to the snapshot's. */
  lemma {:induction false} TextStep(base: seq<Message>, conversation: seq<Message>, streamed: map<string, string>, toolIds: set<string>, m: Message)
    requires Stored(base, conversation, streamed, toolIds) && IndexOf(base, m.id).None? && IsSnapshot(m)
    ensures var before, now := StreamedText(streamed, m.id), TextContent(m);
            var updated := streamed[m.id := if now != "" then now else before];
            if before < now then Stored(base, Persist(conversation, MessageDelta(Some(m.id), Some(now[|before|..]))), updated, toolIds)
            else if now != "" && now != before then Stored(base, Persist(conversation, MessageSent(Some(m))), updated, toolIds)
            else Stored(base, conversation, updated, toolIds)
  {
    hide IndexOf, TextContent, Stored, Persist;
    var before, now := StreamedText(streamed, m.id), TextContent(m);
    if before < now {
      TextGrows(base, conversation, streamed, toolIds, m.id, now[|before|..]);
      assert before + now[|before|..] == now;
    } else if now != "" && now != before {
      TextChanges(base, conversation, streamed, toolIds, m);
    } else {
      SameStreamed(base, conversation, streamed, toolIds, m.id);
    }
  }

  lemma {:induction false} TextGrows(base: seq<Message>, conversation: seq<Message>, streamed: map<string, string>, toolIds: set<string>,
                  id: string, delta: string)
    requires Stored(base, conversation, streamed, toolIds) && IndexOf(base, id).None? && delta != ""
    ensures Stored(base, Persist(conversation, MessageDelta(Some(id), Some(delta))),
                   streamed[id := StreamedText(streamed, id) + delta], toolIds)
  {
    hide IndexOf, OnceEach;
    var at := IndexOf(conversation, id);
    IndexOfInTail(base, conversation, id);
    var grown := if at.Some? then AppendDelta(conversation[at.value], delta) else Message(id, Assistant, [Text(delta)]);
    if at.Some? {
      GrownText(conversation[at.value], streamed, toolIds, delta);
    }
    PlaceKeepsStored(base, conversation, grown, streamed, toolIds, StreamedText(streamed, id) + delta, toolIds);
    assert Persist(conversation, MessageDelta(Some(id), Some(delta))) == Place(conversation, grown);
  }

  lemma {:induction false} TextChanges(base: seq<Message>, conversation: seq<Message>, streamed: map<string, string>, toolIds: set<string>, m: Message)
    requires Stored(base, conversation, streamed, toolIds) && IndexOf(base, m.id).None? && IsSnapshot(m)
    requires TextContent(m) != "" && StreamedText(streamed, m.id) != ""
    ensures Stored(base, Persist(conversation, MessageSent(Some(m))), streamed[m.id := TextContent(m)], toolIds)
  {
    hide IndexOf, OnceEach, TextContent;
    SnapshotText(m);
    var at := IndexOf(conversation, m.id);
    IndexOfInTail(base, conversation, m.id);
    PlaceKeepsStored(base, conversation, m, streamed, toolIds, TextContent(m), toolIds);
    assert SameKind(conversation[at.value], m);
  }

  lemma {:induction false} IndexOfInTail(base: seq<Message>, conversation: seq<Message>, id: string)
    requires OnceEach(base, conversation) && IndexOf(base, id).None?
    ensures IndexOf(conversation, id).Some? ==> |base| <= IndexOf(conversation, id).value
  {
    IndexOfPrefix(base, conversation, id);
  }

  lemma {:induction false} SameStreamed(base: seq<Message>, conversation: seq<Message>, streamed: map<string, string>, toolIds: set<string>, id: string)
    requires Stored(base, conversation, streamed, toolIds)
    ensures Stored(base, conversation, streamed[id := StreamedText(streamed, id)], toolIds)
  {
    hide IndexOf;
  }

  lemma {:induction false} GrownText(m: Message, streamed: map<string, string>, toolIds: set<string>, delta: string)
    requires Mirrors(m, streamed, toolIds) && delta != ""
    ensures var grown, text := AppendDelta(m, delta), streamed[m.id] + delta;
            grown.id == m.id && Mirrors(grown, streamed[m.id := text], toolIds)
  {
  }

  /** The tool step: the snapshot is sent whole and takes the place of what is stored for it. */
  lemma {:induction false} ToolStep(base: seq<Message>, conversation: seq<Message>, streamed: map<string, string>, toolIds: set<string>, m: Message)
    requires Stored(base, conversation, streamed, toolIds) && IndexOf(base, m.id).None? && IsSnapshot(m)
    requires m.id in streamed && (if TextFirst(m) then |m.content| > 1 && streamed[m.id] == TextContent(m) else streamed[m.id] == "")
    ensures Stored(base, Persist(conversation, MessageSent(Some(m))), streamed,
                   toolIds + if ToolsFirst(m) then {m.id} else {})
  {
    hide IndexOf, OnceEach, TextContent;
    SnapshotText(m);
    var at := IndexOf(conversation, m.id);
    IndexOfInTail(base, conversation, m.id);
    PlaceKeepsStored(base, conversation, m, streamed, toolIds, streamed[m.id], toolIds + if ToolsFirst(m) then {m.id} else {});
    assert streamed[m.id := streamed[m.id]] == streamed;
    assert at.Some? ==> SameKind(conversation[at.value], m);
  }

  lemma {:induction false} PersistOneOrTwo(conversation: seq<Message>, a: Kind, b: Kind)
    ensures PersistAll(conversation, []) == conversation
    ensures PersistAll(conversation, [a]) == Persist(conversation, a)
    ensures PersistAll(conversation, [a] + [b]) == Persist(Persist(conversation, a), b)
  {
    hide Persist;
    assert ([a] + [b])[..1] == [a];
    assert [a][..0] == [];
  }

  lemma {:induction false} SnapshotStep(base: seq<Message>, conversation: seq<Message>, streamed: map<string, string>, toolIds: set<string>, m: Message)
    requires Stored(base, conversation, streamed, toolIds) && IndexOf(base, m.id).None? && IsSnapshot(m)
    requires ToolsFirst(m) ==> StreamedText(streamed, m.id) == ""
    ensures Stored(base, PersistAll(conversation, SnapshotEvents(streamed, m, true)), AfterSnapshot(streamed, m, true),
                   toolIds + if ToolsFirst(m) then {m.id} else {})
  {
    hide IndexOf, OnceEach, TextContent, Persist, Stored, HasToolBlock, PersistAll;
    SnapshotText(m);
    TextStep(base, conversation, streamed, toolIds, m);
    var before, now, whole := StreamedText(streamed, m.id), TextContent(m), MessageSent(Some(m));
    var first := if before < now then MessageDelta(Some(m.id), Some(now[|before|..])) else whole;
    var told := before < now || (now != "" && now != before);
    var updated := AfterSnapshot(streamed, m, true);
    PersistOneOrTwo(conversation, first, whole);
    PersistOneOrTwo(conversation, whole, whole);
    var afterText := if told then Persist(conversation, first) else conversation;
    assert Stored(base, afterText, updated, toolIds);
    if HasToolBlock(m) {
      ToolStep(base, afterText, updated, toolIds, m);
      assert SnapshotEvents(streamed, m, true) == if told then [first] + [whole] else [whole];
    } else {
      assert SnapshotEvents(streamed, m, true) == if told then [first] else [];
      assert toolIds + {} == toolIds;
    }
  }

  // ---------------------------------------------------------------- a turn that drops its text

  /** Messages are only added, and a stored one keeps its id. */
  predicate Extends(before: seq<Message>, after: seq<Message>) {
    |before| <= |after| && forall i :: 0 <= i < |before| ==> after[i].id == before[i].id
  }

  lemma {:induction false} PersistExtends(conversation: seq<Message>, kind: Kind)
    ensures Extends(conversation, Persist(conversation, kind))
  {
    hide IndexOf, FirstText;
    if kind.Finish? {
      MergeAllExtends(conversation, kind.messages);
    }
  }

  lemma {:induction false} MergeAllExtends(conversation: seq<Message>, messages: seq<Message>)
    ensures Extends(conversation, MergeAll(conversation, messages))
  {
    hide IndexOf, SameKind;
    if messages != [] {
      MergeAllExtends(conversation, messages[..|messages| - 1]);
    }
  }

  lemma {:induction false} PersistAllExtends(conversation: seq<Message>, kinds: seq<Kind>)
    ensures Extends(conversation, PersistAll(conversation, kinds))
  {
    hide Persist;
    if kinds != [] {
      PersistAllExtends(conversation, kinds[..|kinds| - 1]);
      PersistExtends(PersistAll(conversation, kinds[..|kinds| - 1]), kinds[|kinds| - 1]);
    }
  }

  /** Some later message repeats an id. */
  predicate Repeats(base: seq<Message>, conversation: seq<Message>) {
    exists i :: |base| <= i < |conversation| && IndexOf(conversation, conversation[i].id) != Some(i)
  }

  lemma {:induction false} RepeatsForGood(base: seq<Message>, conversation: seq<Message>, kinds: seq<Kind>)
    requires Repeats(base, conversation)
    ensures Repeats(base, PersistAll(conversation, kinds))
  {
    hide IndexOf, PersistAll;
    PersistAllExtends(conversation, kinds);
    var after := PersistAll(conversation, kinds);
    var i :| |base| <= i < |conversation| && IndexOf(conversation, conversation[i].id) != Some(i);
    var first := IndexOf(conversation, conversation[i].id);
    assert after[i].id == conversation[i].id == after[first.value].id;
    assert IndexOf(after, after[i].id).Some?;
    assert conversation[i].id == conversation[i].id;
    assert IndexOf(after, after[i].id) != Some(i);
  }

  lemma {:induction false} DropStep(base: seq<Message>, conversation: seq<Message>, streamed: map<string, string>, toolIds: set<string>, m: Message)
    requires Stored(base, conversation, streamed, toolIds) && IndexOf(base, m.id).None? && IsSnapshot(m)
    requires ToolsFirst(m) && StreamedText(streamed, m.id) != ""
    ensures Repeats(base, PersistAll(conversation, SnapshotEvents(streamed, m, true)))
  {
    hide IndexOf, TextContent, HasToolBlock;
    SnapshotText(m);
    var at, more := IndexOf(conversation, m.id), conversation + [m];
    IndexOfInTail(base, conversation, m.id);
    assert !SameKind(conversation[at.value], m);
    assert SnapshotEvents(streamed, m, true) == [MessageSent(Some(m))];
    PersistOneOrTwo(conversation, MessageSent(Some(m)), MessageSent(Some(m)));
    IndexOfAdded(conversation, m, m.id);
    assert more[|conversation|] == m;
  }

  // ---------------------------------------------------------------- a whole turn

  lemma {:induction false} StreamedIsLatestText(snapshots: seq<Message>, id: string)
    ensures StreamedText(StreamedAfter(snapshots, true), id) != "" <==>
            exists i :: 0 <= i < |snapshots| && snapshots[i].id == id && TextContent(snapshots[i]) != ""
    ensures forall i :: 0 <= i < |snapshots| && snapshots[i].id == id && TextContent(snapshots[i]) != ""
                        && (forall j :: i < j < |snapshots| && snapshots[j].id == id ==> TextContent(snapshots[j]) == "")
                        ==> StreamedText(StreamedAfter(snapshots, true), id) == TextContent(snapshots[i])
    ensures id in StreamedAfter(snapshots, true) <==> id in FirstIds(snapshots)
  {
    hide TextContent;
    if snapshots != [] {
      var n := |snapshots| - 1;
      var before := snapshots[..n];
      StreamedIsLatestText(before, id);
      assert forall i :: 0 <= i < n ==> before[i] == snapshots[i];
    }
  }

  lemma {:induction false} StreamPrefix(base: seq<Message>, snapshots: seq<Message>, n: nat)
    requires IsStream(base, snapshots) && n <= |snapshots|
    ensures IsStream(base, snapshots[..n])
    ensures DropsText(snapshots[..n]) ==> DropsText(snapshots)
    ensures n + 1 == |snapshots| && DropsText(snapshots) ==> DropsText(snapshots[..n]) || DropsTextAt(snapshots, n)
  {
    hide IndexOf, TextContent, IsSnapshot;
    var part := snapshots[..n];
    assert forall i :: 0 <= i < n ==> part[i] == snapshots[i];
    assert forall j :: 0 <= j < n ==> (DropsTextAt(part, j) <==> DropsTextAt(snapshots, j));
  }

  lemma {:induction false} NothingStreamed(base: seq<Message>)
    ensures Stored(base, base, map[], {})
  {
  }

  lemma {:induction false} TurnGrows(base: seq<Message>, before: seq<Message>, m: Message)
    ensures var streamed := StreamedAfter(before, true);
            && PersistAll(base, TurnEvents(before + [m], true))
               == PersistAll(PersistAll(base, TurnEvents(before, true)), SnapshotEvents(streamed, m, true))
            && StreamedAfter(before + [m], true) == AfterSnapshot(streamed, m, true)
            && ToolIds(before + [m]) == ToolIds(before) + if ToolsFirst(m) then {m.id} else {}
  {
    hide SnapshotEvents, AfterSnapshot, PersistAll;
    assert (before + [m])[..|before|] == before;
    PersistConcat(base, TurnEvents(before, true), SnapshotEvents(StreamedAfter(before, true), m, true));
  }

  lemma {:induction false} TurnStored(base: seq<Message>, snapshots: seq<Message>)
    requires IsStream(base, snapshots)
    ensures var stored := PersistAll(base, TurnEvents(snapshots, true));
            if DropsText(snapshots) then Repeats(base, stored)
            else Stored(base, stored, StreamedAfter(snapshots, true), ToolIds(snapshots))
  {
    hide IndexOf, TextContent, SnapshotEvents, AfterSnapshot, Persist, IsSnapshot, Stored, Repeats;
    if snapshots == [] {
      NothingStreamed(base);
    } else {
      var n := |snapshots| - 1;
      TurnStored(base, snapshots[..n]) by {
        StreamPrefix(base, snapshots, n);
      }
      SnapshotStored(base, snapshots, n, PersistAll(base, TurnEvents(snapshots[..n], true)));
      TurnGrows(base, snapshots[..n], snapshots[n]);
      assert snapshots[..n] + [snapshots[n]] == snapshots;
    }
  }

  /** The last snapshot of a turn, on top of what the ones before it left. */
  lemma {:induction false} SnapshotStored(base: seq<Message>, snapshots: seq<Message>, n: nat, stored: seq<Message>)
    requires IsStream(base, snapshots) && n + 1 == |snapshots|
    requires if DropsText(snapshots[..n]) then Repeats(base, stored)
             else Stored(base, stored, StreamedAfter(snapshots[..n], true), ToolIds(snapshots[..n]))
    ensures var streamed, m := StreamedAfter(snapshots[..n], true), snapshots[n];
            var after := PersistAll(stored, SnapshotEvents(streamed, m, true));
            if DropsText(snapshots) then Repeats(base, after)
            else Stored(base, after, AfterSnapshot(streamed, m, true),
                        ToolIds(snapshots[..n]) + if ToolsFirst(m) then {m.id} else {})
  {
    hide IndexOf, TextContent, SnapshotEvents, AfterSnapshot, Persist, IsSnapshot, Stored, Repeats, StreamedAfter, ToolIds, PersistAll,
      DropsText;
    var before, m := snapshots[..n], snapshots[n];
    var streamed := StreamedAfter(before, true);
    StreamPrefix(base, snapshots, n);
    StreamedIsLatestText(before, m.id);
    assert forall i :: 0 <= i < n ==> before[i] == snapshots[i];
    if DropsText(before) {
      RepeatsForGood(base, stored, SnapshotEvents(streamed, m, true));
    } else if DropsTextAt(snapshots, n) {
      DropStep(base, stored, streamed, ToolIds(before), m);
      DropsAtLast(snapshots, n);
    } else {
      SnapshotStep(base, stored, streamed, ToolIds(before), m);
    }
  }

  lemma {:induction false} DropsAtLast(snapshots: seq<Message>, n: nat)
    requires n < |snapshots| && DropsTextAt(snapshots, n)
    ensures DropsText(snapshots)
  {
  }

  // ---------------------------------------------------------------- main results

  /** The text a conversation shows for an id. */
  function ServerText(conversation: seq<Message>, id: string): string {
    var at := IndexOf(conversation, id);
    if at.None? then ""
    else
      var content := conversation[at.value].content;
      var text := FirstText(content);
      if text.None? then "" else content[text.value].text
  }

  /** After every snapshot the server shows the text the emitter counts as streamed, which is the
      snapshot's message's latest text that was not empty, whatever it replaced; what was stored
      before the turn is untouched. */
  lemma {:induction false} ServerMirrorsEmitter(base: seq<Message>, snapshots: seq<Message>, k: nat, id: string)
    requires IsStream(base, snapshots) && !DropsText(snapshots) && k <= |snapshots| && IndexOf(base, id).None?
    ensures var stored := PersistAll(base, TurnEvents(snapshots[..k], true));
            && base <= stored
            && ServerText(stored, id) == StreamedText(StreamedAfter(snapshots[..k], true), id)
            && forall i :: 0 <= i < k && snapshots[i].id == id && TextContent(snapshots[i]) != ""
                           && (forall j :: i < j < k && snapshots[j].id == id ==> TextContent(snapshots[j]) == "")
                           ==> ServerText(stored, id) == TextContent(snapshots[i])
  {
    hide TurnEvents, StreamedAfter, TextContent, IsStream, DropsText, PersistAll, IndexOf;
    var part := snapshots[..k];
    StreamPrefix(base, snapshots, k);
    TurnStored(base, part);
    StreamedIsLatestText(part, id);
    var stored := PersistAll(base, TurnEvents(part, true));
    StoredText(base, stored, StreamedAfter(part, true), ToolIds(part), id);
    assert forall i :: 0 <= i < k ==> part[i] == snapshots[i];
  }

  lemma {:induction false} StoredText(base: seq<Message>, conversation: seq<Message>, streamed: map<string, string>, toolIds: set<string>, id: string)
    requires Stored(base, conversation, streamed, toolIds) && IndexOf(base, id).None?
    ensures ServerText(conversation, id) == StreamedText(streamed, id)
  {
    hide IndexOf;
    IndexOfInTail(base, conversation, id);
    var at := IndexOf(conversation, id);
    if at.Some? {
      assert Mirrors(conversation[at.value], streamed, toolIds);
    }
  }

  /** A finish list that fits these snapshots: the last snapshot of some of their messages, and
      messages that were never streamed, each id once and none of them stored before. */
  predicate Lists(base: seq<Message>, snapshots: seq<Message>, messages: seq<Message>) {
    && (forall i :: 0 <= i < |messages| ==> messages[i].id != "" && IndexOf(base, messages[i].id).None?)
    && (forall i :: 0 <= i < |messages| ==> IndexOf(messages, messages[i].id) == Some(i))
    && (forall i :: 0 <= i < |messages| && messages[i].id in FirstIds(snapshots)
          ==> Some(messages[i]) == Latest(snapshots, messages[i].id))
  }

  /** One that lists all of their messages. */
  predicate Finishes(base: seq<Message>, snapshots: seq<Message>, messages: seq<Message>) {
    && Lists(base, snapshots, messages)
    && (forall id :: id in FirstIds(snapshots) ==> IndexOf(messages, id).Some?)
  }

  /** The message stored under this id, after `base`, is `m`. */
  predicate IsStoredAs(base: seq<Message>, conversation: seq<Message>, m: Message) {
    var at := IndexOf(conversation, m.id);
    at.Some? && |base| <= at.value && conversation[at.value] == m
  }

  /** The conversation is what it was, followed by exactly these messages, each once. */
  predicate HoldsOnce(base: seq<Message>, conversation: seq<Message>, messages: seq<Message>) {
    && OnceEach(base, conversation)
    && (forall i :: |base| <= i < |conversation| ==> conversation[i] in messages)
    && (forall i :: 0 <= i < |messages| ==> IsStoredAs(base, conversation, messages[i]))
  }

  lemma {:induction false} LatestShows(base: seq<Message>, snapshots: seq<Message>, id: string)
    requires IsStream(base, snapshots) && Latest(snapshots, id).Some?
    ensures var m := Latest(snapshots, id).value;
            && m.id == id && IsSnapshot(m)
            && (TextContent(m) != "" ==> StreamedText(StreamedAfter(snapshots, true), id) == TextContent(m))
            && (ToolsFirst(m) && !DropsText(snapshots) ==> StreamedText(StreamedAfter(snapshots, true), id) == "")
            && (IsEmptyText(m) ==> id !in ToolIds(snapshots))
  {
    hide TextContent, IsSnapshot, IndexOf;
    var i := LatestAt(snapshots, id);
    StreamedIsLatestText(snapshots, id);
    ToolIdsAre(snapshots, id);
    SnapshotText(snapshots[i]);
    if ToolsFirst(snapshots[i]) && !DropsText(snapshots) {
      assert !DropsTextAt(snapshots, i);
    }
  }

  /** `i` is where a message was last seen. */
  predicate IsLastOf(snapshots: seq<Message>, id: string, i: nat) {
    i < |snapshots| && snapshots[i].id == id && forall j :: i < j < |snapshots| ==> snapshots[j].id != id
  }

  lemma {:induction false} LatestAt(snapshots: seq<Message>, id: string) returns (i: nat)
    requires Latest(snapshots, id).Some?
    ensures IsLastOf(snapshots, id, i) && snapshots[i] == Latest(snapshots, id).value
  {
    i := |snapshots| - 1;
    if snapshots[i].id != id {
      var before := snapshots[..i];
      i := LatestAt(before, id);
      assert forall j :: 0 <= j < |before| ==> before[j] == snapshots[j];
    }
  }

  lemma {:induction false} ToolIdsAre(snapshots: seq<Message>, id: string)
    ensures id in ToolIds(snapshots) ==> exists i :: 0 <= i < |snapshots| && snapshots[i].id == id && ToolsFirst(snapshots[i])
  {
    if snapshots != [] {
      var n := |snapshots| - 1;
      ToolIdsAre(snapshots[..n], id);
      assert forall j :: 0 <= j < n ==> snapshots[..n][j] == snapshots[j];
    }
  }

  /** A stored message and the last snapshot of it are of one kind, so the second replaces the first. */
  lemma {:induction false} SameKindAtFinish(base: seq<Message>, snapshots: seq<Message>, stored: Message, m: Message)
    requires IsStream(base, snapshots) && !DropsText(snapshots)
    requires stored.id == m.id && Mirrors(stored, StreamedAfter(snapshots, true), ToolIds(snapshots))
    requires Some(m) == Latest(snapshots, m.id)
    ensures SameKind(stored, m)
  {
    hide IsStream, DropsText, StreamedAfter, ToolIds, Latest, TextContent;
    LatestShows(base, snapshots, m.id);
    SnapshotText(m);
  }

  /** One of the first `k` messages listed. */
  predicate IsDone(messages: seq<Message>, k: nat, m: Message) {
    var at := IndexOf(messages, m.id);
    at.Some? && at.value < k && messages[at.value] == m
  }

  /** Half-way through the finish list: what is not yet replaced still mirrors the stream. */
  predicate Finishing(base: seq<Message>, conversation: seq<Message>, streamed: map<string, string>, toolIds: set<string>,
                      messages: seq<Message>, k: nat)
    requires k <= |messages|
  {
    && OnceEach(base, conversation)
    && (forall i :: |base| <= i < |conversation| ==>
          IsDone(messages, k, conversation[i]) || Mirrors(conversation[i], streamed, toolIds))
    && (forall i :: 0 <= i < k ==> IsStoredAs(base, conversation, messages[i]))
  }

  lemma {:induction false} PlacedIsStored(base: seq<Message>, conversation: seq<Message>, m: Message, other: Message)
    requires OnceEach(base, conversation) && IndexOf(base, m.id).None?
    requires other == m || (other.id != m.id && IsStoredAs(base, conversation, other))
    ensures IsStoredAs(base, Place(conversation, m), other)
  {
    hide IndexOf;
    IndexOfInTail(base, conversation, m.id);
    PlacedIndex(conversation, m, other.id);
  }

  lemma {:induction false} PlacedEntry(base: seq<Message>, conversation: seq<Message>, m: Message, i: nat)
    requires OnceEach(base, conversation) && IndexOf(base, m.id).None? && |base| <= i < |Place(conversation, m)|
    ensures Place(conversation, m)[i] == m || (i < |conversation| && Place(conversation, m)[i] == conversation[i])
  {
    hide IndexOf;
  }

  lemma {:induction false} FinishPlaced(base: seq<Message>, conversation: seq<Message>, streamed: map<string, string>, toolIds: set<string>,
                     messages: seq<Message>, k: nat)
    requires k < |messages| && Finishing(base, conversation, streamed, toolIds, messages, k)
    requires IndexOf(base, messages[k].id).None?
    requires forall i :: 0 <= i < |messages| ==> IndexOf(messages, messages[i].id) == Some(i)
    ensures Finishing(base, Place(conversation, messages[k]), streamed, toolIds, messages, k + 1)
  {
    hide IndexOf, Mirrors, Place, IsStoredAs, OnceEach;
    var m := messages[k];
    var placed := Place(conversation, m);
    PlaceKeepsOnce(base, conversation, m);
    forall i | |base| <= i < |placed|
      ensures IsDone(messages, k + 1, placed[i]) || Mirrors(placed[i], streamed, toolIds)
    {
      PlacedEntry(base, conversation, m, i);
    }
    forall i | 0 <= i < k + 1
      ensures IsStoredAs(base, placed, messages[i])
    {
      PlacedIsStored(base, conversation, m, messages[i]);
    }
  }

  lemma {:induction false} FinishStep(base: seq<Message>, conversation: seq<Message>, snapshots: seq<Message>, messages: seq<Message>, k: nat)
    requires IsStream(base, snapshots) && !DropsText(snapshots) && Lists(base, snapshots, messages) && k < |messages|
    requires Finishing(base, conversation, StreamedAfter(snapshots, true), ToolIds(snapshots), messages, k)
    ensures Finishing(base, Merge(conversation, messages[k]), StreamedAfter(snapshots, true), ToolIds(snapshots), messages, k + 1)
  {
    hide IsStream, DropsText, StreamedAfter, ToolIds, Latest, TextContent, IndexOf, FirstIds, SameKind, Mirrors;
    var m := messages[k];
    var at := IndexOf(conversation, m.id);
    IndexOfInTail(base, conversation, m.id);
    if at.Some? {
      var e := conversation[at.value];
      assert IndexOf(messages, m.id) == Some(k);
      assert Mirrors(e, StreamedAfter(snapshots, true), ToolIds(snapshots));
      MirrorsIsListed(e, snapshots);
      SameKindAtFinish(base, snapshots, e, m);
    }
    FinishPlaced(base, conversation, StreamedAfter(snapshots, true), ToolIds(snapshots), messages, k);
  }

  lemma {:induction false} MirrorsIsListed(m: Message, snapshots: seq<Message>)
    requires Mirrors(m, StreamedAfter(snapshots, true), ToolIds(snapshots))
    ensures m.id in FirstIds(snapshots)
  {
    StreamedIsLatestText(snapshots, m.id);
  }

  lemma {:induction false} FinishPart(base: seq<Message>, conversation: seq<Message>, snapshots: seq<Message>,
                                      messages: seq<Message>, k: nat)
    requires IsStream(base, snapshots) && !DropsText(snapshots) && Lists(base, snapshots, messages) && k <= |messages|
    requires Stored(base, conversation, StreamedAfter(snapshots, true), ToolIds(snapshots))
    ensures Finishing(base, MergeAll(conversation, messages[..k]), StreamedAfter(snapshots, true), ToolIds(snapshots), messages, k)
  {
    hide IsStream, DropsText, StreamedAfter, ToolIds, Lists, Mirrors, IndexOf, Merge;
    if k > 0 {
      FinishPart(base, conversation, snapshots, messages, k - 1);
      FinishStep(base, MergeAll(conversation, messages[..k - 1]), snapshots, messages, k - 1);
      assert messages[..k][..k - 1] == messages[..k - 1];
    }
  }

  /** A turn and its finish leave every message stored once, in its final form, exactly when no
      message drops its text for tool requests; one that does is stored more than once for good. */
  lemma {:induction false} StoredOnceExactlyWhen(base: seq<Message>, snapshots: seq<Message>, messages: seq<Message>)
    requires IsStream(base, snapshots) && Finishes(base, snapshots, messages)
    ensures HoldsOnce(base, PersistAll(base, TurnEvents(snapshots, true) + [Finish(messages)]), messages)
            <==> !DropsText(snapshots)
  {
    hide IsStream, DropsText, StreamedAfter, ToolIds, Mirrors, IndexOf, MergeAll, TurnEvents, PersistAll, Repeats, Stored, Lists;
    TurnStored(base, snapshots);
    var stored := PersistAll(base, TurnEvents(snapshots, true));
    PersistConcat(base, TurnEvents(snapshots, true), [Finish(messages)]);
    PersistOneOrTwo(stored, Finish(messages), Finish(messages));
    if DropsText(snapshots) {
      RepeatsForGood(base, stored, [Finish(messages)]);
      RepeatsIsNotOnce(base, MergeAll(stored, messages));
    } else {
      FinishPart(base, stored, snapshots, messages, |messages|);
      assert messages[..|messages|] == messages;
      AllFinished(base, MergeAll(stored, messages), snapshots, messages);
    }
  }

  lemma {:induction false} RepeatsIsNotOnce(base: seq<Message>, conversation: seq<Message>)
    requires Repeats(base, conversation)
    ensures !OnceEach(base, conversation)
  {
  }

  lemma {:induction false} AllFinished(base: seq<Message>, conversation: seq<Message>, snapshots: seq<Message>, messages: seq<Message>)
    requires Finishes(base, snapshots, messages)
    requires Finishing(base, conversation, StreamedAfter(snapshots, true), ToolIds(snapshots), messages, |messages|)
    ensures HoldsOnce(base, conversation, messages)
  {
    hide StreamedAfter, ToolIds, Mirrors, IndexOf, FirstIds, Latest;
    forall i | |base| <= i < |conversation|
      ensures conversation[i] in messages
    {
      var e := conversation[i];
      if Mirrors(e, StreamedAfter(snapshots, true), ToolIds(snapshots)) {
        MirrorsIsListed(e, snapshots);
        assert IsStoredAs(base, conversation, messages[IndexOf(messages, e.id).value]);
      }
    }
  }

  lemma {:induction false} EveryIdNamed(base: seq<Message>, snapshots: seq<Message>, k: nat)
    requires IsStream(base, snapshots) && k < |snapshots|
    ensures snapshots[k].id != "" && IndexOf(base, snapshots[k].id).None?
  {
    assert IsSnapshot(snapshots[k]);
  }

  /** A turn's own messages are such a finish list. */
  lemma {:induction false} TurnFinishes(base: seq<Message>, snapshots: seq<Message>)
    requires IsStream(base, snapshots)
    ensures Finishes(base, snapshots, LastSnapshots(snapshots))
  {
    hide IndexOf, IsSnapshot, FirstIds, Latest;
    var ids, messages := FirstIds(snapshots), LastSnapshots(snapshots);
    FirstIdsAreDistinct(snapshots);
    forall i | 0 <= i < |ids|
      ensures messages[i].id == ids[i] && Some(messages[i]) == Latest(snapshots, ids[i])
      ensures ids[i] != "" && IndexOf(base, ids[i]).None?
    {
      LatestIsListed(snapshots, ids[i]);
      var k := LatestAt(snapshots, ids[i]);
      assert IsSnapshot(snapshots[k]) && snapshots[k] == messages[i];
      EveryIdNamed(base, snapshots, k);
    }
    forall i | 0 <= i < |messages|
      ensures IndexOf(messages, messages[i].id) == Some(i)
    {
      var at := IndexOf(messages, messages[i].id);
      assert messages[i].id == ids[i];
      assert at.Some?;
      assert messages[at.value].id == ids[at.value];
    }
    forall id | id in ids
      ensures IndexOf(messages, id).Some?
    {
      var i :| 0 <= i < |ids| && ids[i] == id;
      assert messages[i].id == id;
    }
  }

  /** Text that disappears while a tool call shows up: the conversation keeps both, and the finish adds it
      once more. The provider interface allows such snapshots; the providers in the repository, which
      only ever add to a text, do not make them. */
  lemma {:induction false} DroppedTextIsRepeated()
    ensures var shown := Message("m", Assistant, [Text("Let me look.")]);
            var dropped := Message("m", Assistant, [ToolRequest("t", "read", "{}")]);
            && IsStream([], [shown, dropped])
            && PersistAll([], TurnEvents([shown, dropped], true) + [Finish([dropped])]) == [shown, dropped, dropped]
  {
    hide PersistAll, Persist, TurnEvents, IsStream;
    var shown := Message("m", Assistant, [Text("Let me look.")]);
    var dropped := Message("m", Assistant, [ToolRequest("t", "read", "{}")]);
    var delta, whole, finish := MessageDelta(Some("m"), Some("Let me look.")), MessageSent(Some(dropped)), Finish([dropped]);
    DroppedTextEvents();
    DroppedTextPersisted();
    PersistConcat([], [delta] + [whole], [finish]);
    PersistOneOrTwo([], delta, whole);
    PersistOneOrTwo([shown, dropped], finish, finish);
  }

  lemma {:induction false} DroppedTextPersisted()
    ensures var shown := Message("m", Assistant, [Text("Let me look.")]);
            var dropped := Message("m", Assistant, [ToolRequest("t", "read", "{}")]);
            && Persist([], MessageDelta(Some("m"), Some("Let me look."))) == [shown]
            && Persist([shown], MessageSent(Some(dropped))) == [shown, dropped]
            && Persist([shown, dropped], Finish([dropped])) == [shown, dropped, dropped]
  {
    var dropped := Message("m", Assistant, [ToolRequest("t", "read", "{}")]);
    assert [dropped][..0] == [];
  }

  lemma {:induction false} DroppedTextEvents()
    ensures var shown := Message("m", Assistant, [Text("Let me look.")]);
            var dropped := Message("m", Assistant, [ToolRequest("t", "read", "{}")]);
            && IsStream([], [shown, dropped])
            && TurnEvents([shown, dropped], true)
               == [MessageDelta(Some("m"), Some("Let me look."))] + [MessageSent(Some(dropped))]
  {
    hide TextContent, HasToolBlock;
    var shown := Message("m", Assistant, [Text("Let me look.")]);
    var dropped := Message("m", Assistant, [ToolRequest("t", "read", "{}")]);
    SnapshotText(shown);
    SnapshotText(dropped);
    assert [shown, dropped][..1] == [shown] && [shown][..0] == [];
    assert TurnEvents([], true) == [] && StreamedAfter([], true) == map[];
    assert TurnEvents([shown], true) == [MessageDelta(Some("m"), Some("Let me look."))];
    assert StreamedAfter([shown], true) == map["m" := "Let me look."];
  }
}
