/** The order in which a whole run comes to stand in the stored session: what it has shown first, in the
    order in which it was first visible, and behind it the rest of what the finish lists. */
module RunOrder {
  import opened Wrappers
  import opened Events
  import opened Conversations
  import opened ProviderTurns
  import opened Codec
  import opened RunPieces
  import opened RunStorage

  function Ids(messages: seq<Message>): (ids: seq<string>)
    ensures |ids| == |messages|
    ensures forall i :: 0 <= i < |messages| ==> ids[i] == messages[i].id
  {
    seq(|messages|, i requires 0 <= i < |messages| => messages[i].id)
  }

  function AddId(ids: seq<string>, id: string): seq<string> {
    if id in ids then ids else ids + [id]
  }

  /** These ids, and then those of `more` that are new, in their order. */
  function AddIds(ids: seq<string>, more: seq<string>): seq<string> {
    if more == [] then ids else AddId(AddIds(ids, more[..|more| - 1]), more[|more| - 1])
  }

  predicate ShowsSomething(m: Message) {
    TextContent(m) != "" || ToolsFirst(m)
  }

  /** The ids of all visible messages in the order in which they were first visible. */
  function VisibleIds(shown: seq<Message>): seq<string> {
    if shown == [] then []
    else
      var m := shown[|shown| - 1];
      var ids := VisibleIds(shown[..|shown| - 1]);
      if ShowsSomething(m) then AddId(ids, m.id) else ids
  }

  lemma {:induction false} VisibleIdsAre(shown: seq<Message>, id: string)
    ensures id in VisibleIds(shown) <==> IsVisible(shown, id)
  {
    hide TextContent;
    if shown != [] {
      var n := |shown| - 1;
      VisibleIdsAre(shown[..n], id);
      assert forall i :: 0 <= i < n ==> shown[..n][i] == shown[i];
    }
  }

  lemma {:induction false} AddIdsExtends(ids: seq<string>, more: seq<string>)
    ensures ids <= AddIds(ids, more)
  {
    if more != [] {
      AddIdsExtends(ids, more[..|more| - 1]);
    }
  }

  lemma {:induction false} AddIdsHas(ids: seq<string>, more: seq<string>, id: string)
    ensures id in AddIds(ids, more) <==> id in ids || id in more
  {
    if more != [] {
      var n := |more| - 1;
      AddIdsHas(ids, more[..n], id);
      assert more == more[..n] + [more[n]];
    }
  }

  predicate AreDifferent(ids: seq<string>) {
    forall i, j :: 0 <= i < j < |ids| ==> ids[i] != ids[j]
  }

  /** Nothing moves when what stands in front is a beginning of the list. */
  lemma {:induction false} AddIdsToBeginning(ids: seq<string>, more: seq<string>)
    requires ids <= more && AreDifferent(more)
    ensures AddIds(ids, more) == more
    decreases |more|
  {
    if |ids| < |more| {
      AddIdsToBeginning(ids, more[..|more| - 1]);
      assert more == more[..|more| - 1] + [more[|more| - 1]];
    } else {
      NothingToAdd(ids, more);
    }
  }

  lemma {:induction false} NothingToAdd(ids: seq<string>, more: seq<string>)
    requires forall i :: 0 <= i < |more| ==> more[i] in ids
    ensures AddIds(ids, more) == ids
  {
    if more != [] {
      NothingToAdd(ids, more[..|more| - 1]);
    }
  }

  // ---------------------------------------------------------------- one event

  /** The ids of what stands behind `base`. */
  function TailIds(base: seq<Message>, conversation: seq<Message>): seq<string> {
    if |base| <= |conversation| then Ids(conversation)[|base|..] else []
  }

  /** An event that adds to one message, or adds the message. */
  predicate IsAbout(kind: Kind, id: string) {
    && id != ""
    && ((kind.MessageSent? && kind.message.Some? && kind.message.value.id == id)
        || (kind.MessageDelta? && kind.messageId == Some(id) && kind.delta.Some? && kind.delta.value != ""))
  }

  lemma {:induction false} PersistKeepsIds(conversation: seq<Message>, kind: Kind, id: string)
    requires IsAbout(kind, id)
    ensures Ids(Persist(conversation, kind)) == Ids(conversation) || Ids(Persist(conversation, kind)) == Ids(conversation) + [id]
    ensures IndexOf(conversation, id).None? ==> Ids(Persist(conversation, kind)) == Ids(conversation) + [id]
  {
    hide IndexOf, SameKind;
  }

  lemma {:induction false} RepeatedAtEnd(base: seq<Message>, conversation: seq<Message>, longer: seq<Message>, id: string)
    requires |base| <= |conversation| && Ids(longer) == Ids(conversation) + [id] && IndexOf(conversation, id).Some?
    ensures Repeats(base, longer)
  {
    hide IndexOf;
    var n, at := |conversation|, IndexOf(conversation, id).value;
    assert Ids(longer)[n] == id == longer[n].id;
    assert Ids(longer)[at] == id == longer[at].id;
    assert IndexOf(longer, longer[n].id) != Some(n);
  }

  lemma {:induction false} EventAddsId(base: seq<Message>, conversation: seq<Message>, kind: Kind, id: string)
    requires Extends(base, conversation) && IndexOf(base, id).None? && IsAbout(kind, id)
    requires !Repeats(base, Persist(conversation, kind))
    ensures TailIds(base, Persist(conversation, kind)) == AddId(TailIds(base, conversation), id)
  {
    hide IndexOf, Persist, Repeats;
    var n, after := |base|, Persist(conversation, kind);
    PersistKeepsIds(conversation, kind, id);
    TailHas(base, conversation, id);
    if Ids(after) != Ids(conversation) {
      if IndexOf(conversation, id).Some? {
        RepeatedAtEnd(base, conversation, after, id);
      }
      assert (Ids(conversation) + [id])[n..] == Ids(conversation)[n..] + [id];
    }
  }

  lemma {:induction false} TailHas(base: seq<Message>, conversation: seq<Message>, id: string)
    requires Extends(base, conversation) && IndexOf(base, id).None?
    ensures id in TailIds(base, conversation) <==> IndexOf(conversation, id).Some?
  {
    hide IndexOf;
    var n, at := |base|, IndexOf(conversation, id);
    if at.Some? {
      assert at.value >= n;
      assert TailIds(base, conversation)[at.value - n] == id;
    }
  }

  // ---------------------------------------------------------------- one snapshot

  /** What one snapshot sends is about its message, and it sends something if something new is to be
      seen, and only then. */
  lemma {:induction false} SnapshotIsAbout(before: seq<Message>, m: Message)
    requires IsSnapshot(m)
    ensures var events := SnapshotEvents(StreamedAfter(before, true), m, true);
            && |events| <= 2
            && (forall i :: 0 <= i < |events| ==> IsAbout(events[i], m.id))
            && (events != [] ==> ShowsSomething(m))
            && (events == [] && ShowsSomething(m) ==> IsVisible(before, m.id))
  {
    hide TextContent, HasToolBlock, StreamedAfter;
    SnapshotText(m);
    StreamedIsLatestText(before, m.id);
  }

  lemma {:induction false} EventsAddId(base: seq<Message>, conversation: seq<Message>, events: seq<Kind>, id: string)
    requires |events| <= 2 && forall i :: 0 <= i < |events| ==> IsAbout(events[i], id)
    requires Extends(base, conversation) && IndexOf(base, id).None? && !Repeats(base, PersistAll(conversation, events))
    ensures TailIds(base, PersistAll(conversation, events))
            == if events == [] then TailIds(base, conversation) else AddId(TailIds(base, conversation), id)
  {
    hide IndexOf, IsAbout, Repeats, Persist, TailIds, PersistAll;
    if events == [] {
      PersistOneOrTwo(conversation, Error, Error);
    } else {
      PersistOneOrTwo(conversation, events[0], events[|events| - 1]);
      var first := Persist(conversation, events[0]);
      PersistExtends(conversation, events[0]);
      if |events| == 1 {
        assert events == [events[0]];
        EventAddsId(base, conversation, events[0], id);
      } else {
        assert events == [events[0]] + [events[1]];
        PersistOneOrTwo(first, events[1], events[1]);
        if Repeats(base, first) {
          RepeatsForGood(base, first, [events[1]]);
        }
        EventAddsId(base, conversation, events[0], id);
        EventAddsId(base, first, events[1], id);
      }
    }
  }

  // ---------------------------------------------------------------- a whole run

  lemma {:induction false} AttemptOrder(base: seq<Message>, conversation: seq<Message>, shown: seq<Message>, snapshots: seq<Message>)
    requires IsStream(base, shown + snapshots) && Extends(base, conversation) && TailIds(base, conversation) == VisibleIds(shown)
    requires !Repeats(base, PersistAll(conversation, TurnEvents(snapshots, true)))
    ensures TailIds(base, PersistAll(conversation, TurnEvents(snapshots, true))) == VisibleIds(shown + snapshots)
    decreases |snapshots|
  {
    hide IndexOf, SnapshotEvents, StreamedAfter, IsStream, PersistAll, Repeats, Persist, IsSnapshot, IsAbout, ShowsSomething, TailIds,
      Extends;
    if snapshots == [] {
      PersistOneOrTwo(conversation, Error, Error);
      assert shown + snapshots == shown;
    } else {
      var n := |snapshots| - 1;
      var before, m, all := snapshots[..n], snapshots[n], shown + snapshots;
      var events := SnapshotEvents(StreamedAfter(before, true), m, true);
      var stored := PersistAll(conversation, TurnEvents(before, true));
      assert all[..|shown| + n] == shown + before && all[|shown| + n] == m;
      StreamPrefix(base, all, |shown| + n);
      PersistConcat(conversation, TurnEvents(before, true), events);
      if Repeats(base, stored) {
        RepeatsForGood(base, stored, events);
      }
      AttemptOrder(base, conversation, shown, before);
      StaysExtended(base, conversation, TurnEvents(before, true));
      SnapshotOfStream(base, all, |shown| + n);
      SnapshotIsAbout(before, m);
      EventsAddId(base, stored, events, m.id);
      VisibleIdsAre(shown + before, m.id);
      if IsVisible(before, m.id) {
        VisibleLater(shown, before, m.id);
      }
    }
  }

  lemma {:induction false} SnapshotOfStream(base: seq<Message>, shown: seq<Message>, n: nat)
    requires IsStream(base, shown) && n < |shown|
    ensures IsSnapshot(shown[n]) && IndexOf(base, shown[n].id).None?
  {
  }

  lemma {:induction false} StaysExtended(base: seq<Message>, conversation: seq<Message>, kinds: seq<Kind>)
    requires Extends(base, conversation)
    ensures Extends(base, PersistAll(conversation, kinds))
  {
    PersistAllExtends(conversation, kinds);
  }

  lemma {:induction false} VisibleLater(shown: seq<Message>, before: seq<Message>, id: string)
    requires IsVisible(before, id)
    ensures IsVisible(shown + before, id)
  {
    hide TextContent;
    var i :| 0 <= i < |before| && before[i].id == id && (TextContent(before[i]) != "" || ToolsFirst(before[i]));
    assert (shown + before)[|shown| + i] == before[i];
  }

  lemma {:induction false} ListOrder(base: seq<Message>, conversation: seq<Message>, shown: seq<Message>, m: Message)
    requires IsStream(base, shown + [m]) && IsListMessage(m) && Extends(base, conversation)
    requires TailIds(base, conversation) == VisibleIds(shown) && !Repeats(base, PersistAll(conversation, [MessageSent(Some(m))]))
    ensures TailIds(base, PersistAll(conversation, [MessageSent(Some(m))])) == VisibleIds(shown + [m])
  {
    hide IndexOf, IsStream, PersistAll, Repeats, Persist, TailIds, TextContent;
    assert (shown + [m])[..|shown|] == shown && (shown + [m])[|shown|] == m;
    SnapshotOfStream(base, shown + [m], |shown|);
    SnapshotText(m);
    EventsAddId(base, conversation, [MessageSent(Some(m))], m.id);
  }

  lemma {:induction false} RunOrdered(base: seq<Message>, pieces: seq<Piece>)
    requires IsRun(base, pieces) && !Repeats(base, PersistAll(base, RunKinds(pieces, true)))
    ensures TailIds(base, PersistAll(base, RunKinds(pieces, true))) == VisibleIds(Shown(pieces))
  {
    hide IndexOf, PersistAll, Shown, RunKinds, IsStream, IsListMessage, TurnEvents, Repeats, AreApart, VisibleIds, TailIds;
    if pieces == [] {
      NothingOrdered(base);
    } else {
      var n := |pieces| - 1;
      var before, p := pieces[..n], pieces[n];
      assert before + [p] == pieces;
      ShownGrows(before, p);
      RunPrefix(base, pieces, n);
      var stored := PersistAll(base, RunKinds(before, true));
      PersistConcat(base, RunKinds(before, true), PieceKinds(p, true));
      if Repeats(base, stored) {
        RepeatsForGood(base, stored, PieceKinds(p, true));
      }
      RunOrdered(base, before);
      StaysExtended(base, base, RunKinds(before, true));
      match p {
        case Streamed(snapshots) => AttemptOrder(base, stored, Shown(before), snapshots);
        case Listed(m) => ListOrder(base, stored, Shown(before), m);
      }
    }
  }

  lemma {:induction false} NothingOrdered(base: seq<Message>)
    ensures TailIds(base, PersistAll(base, RunKinds([], true))) == VisibleIds(Shown([])) == []
  {
  }

  // ---------------------------------------------------------------- the finish

  lemma {:induction false} FinishOrder(base: seq<Message>, conversation: seq<Message>, messages: seq<Message>)
    requires Extends(base, conversation) && !Repeats(base, MergeAll(conversation, messages))
    requires forall i :: 0 <= i < |messages| ==> messages[i].id != "" && IndexOf(base, messages[i].id).None?
    ensures TailIds(base, MergeAll(conversation, messages)) == AddIds(TailIds(base, conversation), Ids(messages))
  {
    hide IndexOf, Merge, Repeats, TailIds, AddId, Extends;
    if messages != [] {
      var n := |messages| - 1;
      var before, m := MergeAll(conversation, messages[..n]), messages[n];
      var kind := MessageSent(Some(m));
      assert Persist(before, kind) == MergeAll(conversation, messages);
      if Repeats(base, before) {
        RepeatsForGood(base, before, [kind]);
        PersistOneOrTwo(before, kind, kind);
      }
      FinishOrder(base, conversation, messages[..n]);
      MergedExtends(base, conversation, messages[..n]);
      EventAddsId(base, before, kind, m.id);
      assert Ids(messages)[..n] == Ids(messages[..n]);
    }
  }

  lemma {:induction false} MergedExtends(base: seq<Message>, conversation: seq<Message>, messages: seq<Message>)
    requires Extends(base, conversation)
    ensures Extends(base, MergeAll(conversation, messages))
  {
    MergeAllExtends(conversation, messages);
  }

  lemma {:induction false} OnceIsNoRepeat(base: seq<Message>, conversation: seq<Message>)
    requires OnceEach(base, conversation)
    ensures !Repeats(base, conversation)
  {
    hide IndexOf;
  }

  /** A run that drops no text is stored in this order: everything that was visible, as it first appeared,
      and then the other messages of the finish, as they are listed. */
  lemma {:induction false} RunIsStoredInOrder(base: seq<Message>, pieces: seq<Piece>, messages: seq<Message>)
    requires IsRun(base, pieces) && Lists(base, Shown(pieces), messages) && !DropsText(Shown(pieces))
    ensures TailIds(base, PersistAll(base, RunKinds(pieces, true) + [Finish(messages)]))
            == AddIds(VisibleIds(Shown(pieces)), Ids(messages))
  {
    hide IndexOf, PersistAll, Persist, MergeAll, Shown, RunKinds, IsRun, DropsText, Repeats, OnceEach, TailIds, VisibleIds, AddIds, IsVisible,
      IsStoredAs, IsLeftOver, Latest, FirstIds;
    var kinds, finish := RunKinds(pieces, true), Finish(messages);
    var stored := PersistAll(base, kinds);
    RunIsStoredExactlyWhen(base, pieces, messages);
    PersistConcat(base, kinds, [finish]);
    PersistOneOrTwo(stored, finish, finish);
    FinishIsMerge(stored, messages);
    OnceIsNoRepeat(base, MergeAll(stored, messages));
    if Repeats(base, stored) {
      RepeatsForGood(base, stored, [finish]);
    }
    RunOrdered(base, pieces);
    StaysExtended(base, base, kinds);
    FinishOrder(base, stored, messages);
  }

  lemma {:induction false} FinishIsMerge(conversation: seq<Message>, messages: seq<Message>)
    ensures Persist(conversation, Finish(messages)) == MergeAll(conversation, messages)
  {
  }

  // ---------------------------------------------------------------- the order of the list

  lemma {:induction false} ListIsDifferent(base: seq<Message>, shown: seq<Message>, messages: seq<Message>)
    requires Lists(base, shown, messages)
    ensures AreDifferent(Ids(messages))
  {
    hide IndexOf, FirstIds, Latest;
    forall i, j | 0 <= i < j < |messages|
      ensures Ids(messages)[i] != Ids(messages)[j]
    {
      assert IndexOf(messages, messages[i].id) == Some(i) && IndexOf(messages, messages[j].id) == Some(j);
    }
  }

  lemma {:induction false} ListedBehind(base: seq<Message>, shown: seq<Message>, messages: seq<Message>)
    requires Lists(base, shown, messages)
    ensures HoldsOnce(base, base + messages, messages) && TailIds(base, base + messages) == Ids(messages)
  {
    hide IndexOf, FirstIds, Latest;
    var all := base + messages;
    assert Ids(all)[|base|..] == Ids(messages);
    forall i | 0 <= i < |messages|
      ensures IndexOf(all, messages[i].id) == Some(|base| + i) && all[|base| + i] == messages[i]
    {
      assert all[|base| + i] == messages[i];
      var at := IndexOf(all, messages[i].id);
      assert at.Some?;
      assert at.value >= |base|;
      assert messages[at.value - |base|] == all[at.value];
      assert IndexOf(messages, messages[i].id) == Some(i);
    }
  }

  lemma {:induction false} SameIdsSameMessages(base: seq<Message>, conversation: seq<Message>, messages: seq<Message>)
    requires HoldsOnce(base, conversation, messages) && TailIds(base, conversation) == Ids(messages) && AreDifferent(Ids(messages))
    ensures conversation == base + messages
  {
    hide IndexOf;
    var n := |base|;
    forall i | 0 <= i < |messages|
      ensures n + i < |conversation| && conversation[n + i] == messages[i]
    {
      assert TailIds(base, conversation)[i] == conversation[n + i].id == messages[i].id;
      assert conversation[n + i] in messages;
      var j :| 0 <= j < |messages| && messages[j] == conversation[n + i];
      assert Ids(messages)[j] == Ids(messages)[i];
    }
  }

  /** A run is stored just as its finish lists it exactly when no attempt drops a text and the list begins
      with all that was visible, in the order in which it first appeared. */
  lemma {:induction false} StoredInListOrderExactlyWhen(base: seq<Message>, pieces: seq<Piece>, messages: seq<Message>)
    requires IsRun(base, pieces) && Lists(base, Shown(pieces), messages)
    ensures PersistAll(base, RunKinds(pieces, true) + [Finish(messages)]) == base + messages
            <==> !DropsText(Shown(pieces)) && VisibleIds(Shown(pieces)) <= Ids(messages)
  {
    hide IndexOf, PersistAll, Shown, RunKinds, IsRun, DropsText, TailIds, VisibleIds, AddIds, IsVisible, HoldsOnce, Lists, AreDifferent,
      Ids;
    var shown, after := Shown(pieces), PersistAll(base, RunKinds(pieces, true) + [Finish(messages)]);
    RunIsStoredOnceExactlyWhen(base, pieces, messages);
    ListedBehind(base, shown, messages);
    ListIsDifferent(base, shown, messages);
    if !DropsText(shown) {
      RunIsStoredInOrder(base, pieces, messages);
      AddIdsExtends(VisibleIds(shown), Ids(messages));
      if VisibleIds(shown) <= Ids(messages) {
        AddIdsToBeginning(VisibleIds(shown), Ids(messages));
        BeginningIsListed(shown, messages);
        SameIdsSameMessages(base, after, messages);
      }
    }
  }

  lemma {:induction false} BeginningIsListed(shown: seq<Message>, messages: seq<Message>)
    requires VisibleIds(shown) <= Ids(messages)
    ensures ListsAllVisible(shown, messages)
  {
    hide IndexOf, IsVisible, VisibleIds;
    forall id | IsVisible(shown, id)
      ensures IndexOf(messages, id).Some?
    {
      VisibleIdsAre(shown, id);
      var i :| 0 <= i < |VisibleIds(shown)| && VisibleIds(shown)[i] == id;
      assert Ids(messages)[i] == id;
    }
  }

  /** Everything that was visible stands before everything that only the finish brings, in whatever order
      the run produced them. */
  lemma {:induction false} VisibleStandsFirst(base: seq<Message>, pieces: seq<Piece>, messages: seq<Message>, id: string, other: string)
    requires IsRun(base, pieces) && Lists(base, Shown(pieces), messages) && !DropsText(Shown(pieces))
    requires IsVisible(Shown(pieces), id) && !IsVisible(Shown(pieces), other) && IndexOf(messages, other).Some?
    ensures var after := PersistAll(base, RunKinds(pieces, true) + [Finish(messages)]);
            && IndexOf(after, id).Some? && IndexOf(after, other).Some?
            && IndexOf(after, id).value < IndexOf(after, other).value
  {
    hide IndexOf, PersistAll, Shown, RunKinds, IsRun, DropsText, VisibleIds, AddIds, IsVisible, Lists;
    var shown, after := Shown(pieces), PersistAll(base, RunKinds(pieces, true) + [Finish(messages)]);
    var ids := VisibleIds(shown);
    RunIsStoredExactlyWhen(base, pieces, messages);
    RunIsStoredInOrder(base, pieces, messages);
    AddIdsExtends(ids, Ids(messages));
    VisibleIdsAre(shown, id);
    VisibleIdsAre(shown, other);
    ListedIsNew(base, shown, messages, other);
    StandsAt(base, after, ids, id, other);
  }

  lemma {:induction false} ListedIsNew(base: seq<Message>, shown: seq<Message>, messages: seq<Message>, id: string)
    requires Lists(base, shown, messages) && IndexOf(messages, id).Some?
    ensures IndexOf(base, id).None? && messages[IndexOf(messages, id).value].id == id
  {
    hide IndexOf, FirstIds, Latest;
  }

  lemma {:induction false} StandsAt(base: seq<Message>, conversation: seq<Message>, ids: seq<string>, id: string, other: string)
    requires OnceEach(base, conversation) && ids <= TailIds(base, conversation) && id in ids && other !in ids
    requires IndexOf(base, other).None? && IndexOf(conversation, other).Some?
    ensures IndexOf(conversation, id).Some? && IndexOf(conversation, id).value < IndexOf(conversation, other).value
  {
    hide IndexOf;
    var n, at := |base|, IndexOf(conversation, other).value;
    var i :| 0 <= i < |ids| && ids[i] == id;
    assert conversation[n + i].id == TailIds(base, conversation)[i] == id;
    assert IndexOf(conversation, conversation[n + i].id) == Some(n + i);
    IndexOfInTail(base, conversation, other);
    assert at >= n && TailIds(base, conversation)[at - n] == other;
  }
}
