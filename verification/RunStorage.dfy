/** A whole run in the stored conversation: every attempt's stream, failed ones included, the task
    list in between, and the finish. */
module RunStorage {
  import opened Wrappers
  import opened Events
  import opened Conversations
  import opened ProviderTurns
  import opened Codec
  import opened RunPieces

  /** A task-list message is one text that is not empty. */
  predicate IsListMessage(m: Message) {
    IsSnapshot(m) && |m.content| == 1 && TextFirst(m) && m.content[0] != Text("")
  }

  /** The pieces of a run whose ids are its own. */
  predicate IsRun(base: seq<Message>, pieces: seq<Piece>) {
    && IsStream(base, Shown(pieces))
    && AreApart(pieces)
    && (forall i :: 0 <= i < |pieces| && pieces[i].Listed? ==> IsListMessage(pieces[i].message))
  }

  /** What the server holds of the messages shown so far. */
  predicate IsKept(base: seq<Message>, conversation: seq<Message>, shown: seq<Message>) {
    if DropsText(shown) then Repeats(base, conversation)
    else Stored(base, conversation, StreamedAfter(shown, true), ToolIds(shown))
  }

  // ---------------------------------------------------------------- one more attempt

  lemma {:induction false} StreamedApart(shown: seq<Message>, snapshots: seq<Message>, id: string)
    requires id !in IdsOf(shown)
    ensures StreamedText(StreamedAfter(shown + snapshots, true), id) == StreamedText(StreamedAfter(snapshots, true), id)
  {
    hide TextContent;
    if snapshots == [] {
      assert shown + snapshots == shown;
      NotStreamed(shown, id);
    } else {
      var n := |snapshots| - 1;
      assert (shown + snapshots)[..|shown| + n] == shown + snapshots[..n];
      StreamedApart(shown, snapshots[..n], id);
    }
  }

  lemma {:induction false} NotStreamed(shown: seq<Message>, id: string)
    requires id !in IdsOf(shown)
    ensures StreamedText(StreamedAfter(shown, true), id) == ""
  {
    hide TextContent;
    StreamedIsLatestText(shown, id);
    assert forall i :: 0 <= i < |shown| ==> shown[i].id in IdsOf(shown);
  }

  lemma {:induction false} SameEvents(a: map<string, string>, b: map<string, string>, m: Message)
    requires StreamedText(a, m.id) == StreamedText(b, m.id)
    ensures SnapshotEvents(a, m, true) == SnapshotEvents(b, m, true)
  {
    hide TextContent, HasToolBlock;
  }

  /** An attempt streams on from an empty record of its own, which for its own ids is the same. */
  lemma {:induction false} StreamMore(base: seq<Message>, conversation: seq<Message>, shown: seq<Message>, snapshots: seq<Message>)
    requires IsStream(base, shown + snapshots) && IdsOf(shown) !! IdsOf(snapshots) && IsKept(base, conversation, shown)
    ensures IsKept(base, PersistAll(conversation, TurnEvents(snapshots, true)), shown + snapshots)
    decreases |snapshots|
  {
    hide IndexOf, SnapshotEvents, StreamedAfter, IsStream, IsKept, PersistAll, DropsText, IdsOf, Persist;
    if snapshots == [] {
      PersistOneOrTwo(conversation, Error, Error);
      assert shown + snapshots == shown;
    } else {
      var n := |snapshots| - 1;
      var before, m := snapshots[..n], snapshots[n];
      var all := shown + snapshots;
      assert all[..|shown| + n] == shown + before && all[|shown| + n] == m;
      StreamPrefix(base, all, |shown| + n);
      IdsConcat(before, [m]);
      assert snapshots == before + [m];
      StreamMore(base, conversation, shown, before);
      var stored := PersistAll(conversation, TurnEvents(before, true));
      PersistConcat(conversation, TurnEvents(before, true), SnapshotEvents(StreamedAfter(before, true), m, true));
      OwnId(m);
      StreamedApart(shown, before, m.id);
      SameEvents(StreamedAfter(before, true), StreamedAfter(shown + before, true), m);
      KeptSnapshot(base, all, |shown| + n, stored);
    }
  }

  lemma {:induction false} OwnId(m: Message)
    ensures IdsOf([m]) == {m.id}
  {
    assert [m][0] == m;
  }

  lemma {:induction false} KeptSnapshot(base: seq<Message>, shown: seq<Message>, n: nat, stored: seq<Message>)
    requires IsStream(base, shown) && n + 1 == |shown| && IsKept(base, stored, shown[..n])
    ensures IsKept(base, PersistAll(stored, SnapshotEvents(StreamedAfter(shown[..n], true), shown[n], true)), shown)
  {
    hide IndexOf, SnapshotEvents, IsStream, PersistAll, DropsText, Stored, Repeats, AfterSnapshot;
    SnapshotStored(base, shown, n, stored);
  }

  // ---------------------------------------------------------------- the task list shown

  /** The task list replaces what its tool call has shown of it, or is added. */
  lemma {:induction false} ListMore(base: seq<Message>, conversation: seq<Message>, shown: seq<Message>, m: Message)
    requires IsStream(base, shown + [m]) && IsListMessage(m) && IsKept(base, conversation, shown)
    requires forall i :: 0 <= i < |shown| && shown[i].id == m.id ==> TextFirst(shown[i])
    ensures IsKept(base, PersistAll(conversation, [MessageSent(Some(m))]), shown + [m])
  {
    hide IndexOf, IsStream, PersistAll, DropsText, Stored, Repeats, StreamedAfter, ToolIds, IsSnapshot;
    var all := shown + [m];
    assert all[..|shown|] == shown && all[|shown|] == m;
    StreamPrefix(base, all, |shown|);
    PersistOneOrTwo(conversation, MessageSent(Some(m)), MessageSent(Some(m)));
    if DropsText(shown) {
      RepeatsForGood(base, conversation, [MessageSent(Some(m))]);
    } else {
      NewIdInStream(base, all, |shown|);
      NotAmongTools(shown, m.id);
      ListStored(base, conversation, StreamedAfter(shown, true), ToolIds(shown), m);
      GrowsByText(shown, m);
    }
  }

  lemma {:induction false} NewIdInStream(base: seq<Message>, shown: seq<Message>, n: nat)
    requires IsStream(base, shown) && n < |shown|
    ensures IndexOf(base, shown[n].id).None? && shown[n].id != ""
  {
    assert IsSnapshot(shown[n]);
  }

  lemma {:induction false} NotAmongTools(shown: seq<Message>, id: string)
    requires forall i :: 0 <= i < |shown| && shown[i].id == id ==> TextFirst(shown[i])
    ensures id !in ToolIds(shown)
  {
    hide ToolIds;
    ToolIdsAre(shown, id);
  }

  lemma {:induction false} GrowsByText(shown: seq<Message>, m: Message)
    requires IsListMessage(m)
    ensures StreamedAfter(shown + [m], true) == StreamedAfter(shown, true)[m.id := m.content[0].text]
    ensures ToolIds(shown + [m]) == ToolIds(shown)
  {
    hide TextContent;
    SnapshotText(m);
    assert (shown + [m])[..|shown|] == shown;
  }

  lemma {:induction false} ListStored(base: seq<Message>, conversation: seq<Message>, streamed: map<string, string>, toolIds: set<string>, m: Message)
    requires Stored(base, conversation, streamed, toolIds) && IndexOf(base, m.id).None? && m.id !in toolIds
    requires IsListMessage(m)
    ensures Stored(base, Persist(conversation, MessageSent(Some(m))), streamed[m.id := m.content[0].text], toolIds)
  {
    hide IndexOf, OnceEach;
    var at := IndexOf(conversation, m.id);
    IndexOfInTail(base, conversation, m.id);
    PlaceKeepsStored(base, conversation, m, streamed, toolIds, m.content[0].text, toolIds);
    assert at.Some? ==> SameKind(conversation[at.value], m);
  }

  // ---------------------------------------------------------------- a whole run

  lemma {:induction false} RunIsKept(base: seq<Message>, pieces: seq<Piece>)
    requires IsRun(base, pieces)
    ensures IsKept(base, PersistAll(base, RunKinds(pieces, true)), Shown(pieces))
  {
    hide IndexOf, IsKept, PersistAll, Shown, RunKinds, IsStream, IsListMessage, TurnEvents, IdsOf;
    if pieces == [] {
      NothingKept(base);
    } else {
      var n := |pieces| - 1;
      var before, p := pieces[..n], pieces[n];
      assert before + [p] == pieces;
      ShownGrows(before, p);
      RunPrefix(base, pieces, n);
      RunIsKept(base, before);
      var stored := PersistAll(base, RunKinds(before, true));
      PersistConcat(base, RunKinds(before, true), PieceKinds(p, true));
      ApartFromBefore(pieces, n);
      match p {
        case Streamed(snapshots) => StreamMore(base, stored, Shown(before), snapshots);
        case Listed(m) => ListMore(base, stored, Shown(before), m);
      }
    }
  }

  lemma {:induction false} NothingKept(base: seq<Message>)
    ensures Shown([]) == [] && RunKinds([], true) == [] && IsKept(base, PersistAll(base, []), [])
  {
    NothingStreamed(base);
  }

  lemma {:induction false} RunPrefix(base: seq<Message>, pieces: seq<Piece>, n: nat)
    requires IsRun(base, pieces) && n + 1 == |pieces|
    ensures IsRun(base, pieces[..n])
  {
    hide IndexOf, IsStream, IsListMessage, Shown, IdsOf;
    var before := pieces[..n];
    assert before + [pieces[n]] == pieces;
    ShownGrows(before, pieces[n]);
    assert Shown(pieces)[..|Shown(before)|] == Shown(before);
    StreamPrefix(base, Shown(pieces), |Shown(before)|);
  }

  /** A stream shares no id with what was shown before; a task list shares it with task lists only. */
  lemma {:induction false} ApartFromBefore(pieces: seq<Piece>, n: nat)
    requires n + 1 == |pieces| && AreApart(pieces)
    requires forall i :: 0 <= i < |pieces| && pieces[i].Listed? ==> IsListMessage(pieces[i].message)
    ensures pieces[n].Streamed? ==> IdsOf(Shown(pieces[..n])) !! IdsOf(pieces[n].snapshots)
    ensures pieces[n].Listed? ==>
              forall i :: 0 <= i < |Shown(pieces[..n])| && Shown(pieces[..n])[i].id == pieces[n].message.id
                ==> TextFirst(Shown(pieces[..n])[i])
  {
    hide Shown, IdsOf, IsListMessage;
    var before, p := pieces[..n], pieces[n];
    if p.Streamed? {
      forall id | id in IdsOf(Shown(before))
        ensures id !in IdsOf(p.snapshots)
      {
        ShownIds(before, id);
        var k :| 0 <= k < n && id in IdsOf(ShownBy(before[k]));
        assert before[k] == pieces[k];
      }
    } else {
      forall i | 0 <= i < |Shown(before)| && Shown(before)[i].id == p.message.id
        ensures TextFirst(Shown(before)[i])
      {
        var k := ShownFrom(before, i);
        assert before[k] == pieces[k];
        MemberId(ShownBy(pieces[k]), Shown(before)[i]);
        OwnId(p.message);
        ListIsText(pieces[k]);
      }
    }
  }

  lemma {:induction false} MemberId(messages: seq<Message>, m: Message)
    requires m in messages
    ensures m.id in IdsOf(messages)
  {
  }

  lemma {:induction false} ListIsText(p: Piece)
    requires p.Listed? ==> IsListMessage(p.message)
    ensures p.Listed? ==> forall m :: m in ShownBy(p) ==> TextFirst(m)
  {
  }

  // ---------------------------------------------------------------- the finish

  /** A message of which a stream showed text or a tool request. */
  predicate IsVisible(shown: seq<Message>, id: string) {
    exists i :: 0 <= i < |shown| && shown[i].id == id && (TextContent(shown[i]) != "" || ToolsFirst(shown[i]))
  }

  lemma {:induction false} VisibleIsStreamed(shown: seq<Message>, id: string)
    ensures IsVisible(shown, id) <==> StreamedText(StreamedAfter(shown, true), id) != "" || id in ToolIds(shown)
  {
    hide TextContent, StreamedAfter;
    StreamedIsLatestText(shown, id);
    ToolIdsAre(shown, id);
    ToolIdsAll(shown, id);
  }

  lemma {:induction false} ToolIdsAll(shown: seq<Message>, id: string)
    ensures forall i :: 0 <= i < |shown| && shown[i].id == id && ToolsFirst(shown[i]) ==> id in ToolIds(shown)
  {
    if shown != [] {
      var n := |shown| - 1;
      ToolIdsAll(shown[..n], id);
      assert forall i :: 0 <= i < n ==> shown[..n][i] == shown[i];
    }
  }

  ghost predicate ListsAllVisible(shown: seq<Message>, messages: seq<Message>) {
    forall id :: IsVisible(shown, id) ==> IndexOf(messages, id).Some?
  }

  /** A message that stays in the conversation although the finish does not list it: it begins as it
      was last shown. */
  predicate IsLeftOver(m: Message, shown: seq<Message>, messages: seq<Message>) {
    IndexOf(messages, m.id).None? && Mirrors(m, StreamedAfter(shown, true), ToolIds(shown))
  }

  /** The conversation is what it was, then every listed message in its final form and every other one
      that was visible, each once. */
  ghost predicate HoldsRun(base: seq<Message>, conversation: seq<Message>, shown: seq<Message>, messages: seq<Message>) {
    && OnceEach(base, conversation)
    && (forall i :: 0 <= i < |messages| ==> IsStoredAs(base, conversation, messages[i]))
    && (forall i :: |base| <= i < |conversation| ==>
          conversation[i] in messages || IsLeftOver(conversation[i], shown, messages))
    && (forall id :: IsVisible(shown, id) ==> IndexOf(conversation, id).Some?)
  }

  lemma {:induction false} FinishedRun(base: seq<Message>, conversation: seq<Message>, shown: seq<Message>, messages: seq<Message>)
    requires Lists(base, shown, messages)
    requires Finishing(base, conversation, StreamedAfter(shown, true), ToolIds(shown), messages, |messages|)
    requires forall id :: IsVisible(shown, id) ==> IndexOf(conversation, id).Some?
    ensures HoldsRun(base, conversation, shown, messages)
  {
    hide StreamedAfter, ToolIds, Mirrors, IndexOf, FirstIds, Latest, IsVisible;
    forall i | |base| <= i < |conversation|
      ensures conversation[i] in messages || IsLeftOver(conversation[i], shown, messages)
    {
      var e := conversation[i];
      if Mirrors(e, StreamedAfter(shown, true), ToolIds(shown)) && IndexOf(messages, e.id).Some? {
        assert IsStoredAs(base, conversation, messages[IndexOf(messages, e.id).value]);
      }
    }
  }

  lemma {:induction false} VisibleIsKept(base: seq<Message>, conversation: seq<Message>, shown: seq<Message>, later: seq<Message>)
    requires Stored(base, conversation, StreamedAfter(shown, true), ToolIds(shown)) && Extends(conversation, later)
    ensures forall id :: IsVisible(shown, id) ==> IndexOf(later, id).Some?
  {
    hide StreamedAfter, ToolIds, IndexOf, IsVisible, Mirrors, OnceEach;
    forall id | IsVisible(shown, id)
      ensures IndexOf(later, id).Some?
    {
      VisibleIsStreamed(shown, id);
      var at := IndexOf(conversation, id);
      assert at.Some?;
      assert later[at.value].id == conversation[at.value].id;
    }
  }

  /** A whole run and its finish: every listed message is stored once in its final form, and whatever
      else was visible, of attempts that failed or as the task list, stays once as it was last shown,
      exactly when no attempt drops a text for tool requests. */
  lemma {:induction false} RunIsStoredExactlyWhen(base: seq<Message>, pieces: seq<Piece>, messages: seq<Message>)
    requires IsRun(base, pieces) && Lists(base, Shown(pieces), messages)
    ensures HoldsRun(base, PersistAll(base, RunKinds(pieces, true) + [Finish(messages)]), Shown(pieces), messages)
            <==> !DropsText(Shown(pieces))
  {
    hide DropsText, StreamedAfter, ToolIds, Mirrors, IndexOf, MergeAll, RunKinds, PersistAll, Repeats, Stored, Lists, Shown,
      AreApart, IsListMessage, IsVisible, IsLeftOver, IsStream;
    var shown := Shown(pieces);
    RunIsKept(base, pieces);
    var stored := PersistAll(base, RunKinds(pieces, true));
    PersistConcat(base, RunKinds(pieces, true), [Finish(messages)]);
    PersistOneOrTwo(stored, Finish(messages), Finish(messages));
    if DropsText(shown) {
      RepeatsForGood(base, stored, [Finish(messages)]);
      RepeatsIsNotOnce(base, MergeAll(stored, messages));
    } else {
      FinishPart(base, stored, shown, messages, |messages|);
      assert messages[..|messages|] == messages;
      MergeAllExtends(stored, messages);
      VisibleIsKept(base, stored, shown, MergeAll(stored, messages));
      FinishedRun(base, MergeAll(stored, messages), shown, messages);
    }
  }

  /** And it holds the listed messages and nothing else exactly when, besides, everything that was
      visible is listed. */
  lemma {:induction false} RunIsStoredOnceExactlyWhen(base: seq<Message>, pieces: seq<Piece>, messages: seq<Message>)
    requires IsRun(base, pieces) && Lists(base, Shown(pieces), messages)
    ensures HoldsOnce(base, PersistAll(base, RunKinds(pieces, true) + [Finish(messages)]), messages)
            <==> !DropsText(Shown(pieces)) && ListsAllVisible(Shown(pieces), messages)
  {
    hide DropsText, IndexOf, RunKinds, PersistAll, Lists, Shown, AreApart, IsListMessage, IsVisible, IsStream, Repeats;
    var shown, conversation := Shown(pieces), PersistAll(base, RunKinds(pieces, true) + [Finish(messages)]);
    RunIsStoredExactlyWhen(base, pieces, messages);
    if DropsText(shown) {
      RunIsKept(base, pieces);
      PersistConcat(base, RunKinds(pieces, true), [Finish(messages)]);
      RepeatsForGood(base, PersistAll(base, RunKinds(pieces, true)), [Finish(messages)]);
      RepeatsIsNotOnce(base, conversation);
    } else {
      VisibleIsNew(base, shown);
      LeftOversExactlyWhen(base, conversation, shown, messages);
    }
  }

  lemma {:induction false} VisibleIsNew(base: seq<Message>, shown: seq<Message>)
    requires IsStream(base, shown)
    ensures forall id :: IsVisible(shown, id) ==> IndexOf(base, id).None?
  {
    hide IndexOf, TextContent, IsSnapshot;
  }

  lemma {:induction false} LeftOversExactlyWhen(base: seq<Message>, conversation: seq<Message>, shown: seq<Message>, messages: seq<Message>)
    requires HoldsRun(base, conversation, shown, messages)
    requires forall id :: IsVisible(shown, id) ==> IndexOf(base, id).None?
    ensures HoldsOnce(base, conversation, messages) <==> ListsAllVisible(shown, messages)
  {
    hide IndexOf, IsVisible, StreamedAfter, ToolIds;
    if HoldsOnce(base, conversation, messages) {
      forall id | IsVisible(shown, id)
        ensures IndexOf(messages, id).Some?
      {
        var at := IndexOf(conversation, id);
        IndexOfInTail(base, conversation, id);
        assert conversation[at.value] in messages;
      }
    } else if ListsAllVisible(shown, messages) {
      forall i | |base| <= i < |conversation|
        ensures conversation[i] in messages
      {
        if IsLeftOver(conversation[i], shown, messages) {
          LeftOverIsVisible(conversation[i], shown, messages);
        }
      }
    }
  }

  lemma {:induction false} LeftOverIsVisible(m: Message, shown: seq<Message>, messages: seq<Message>)
    requires IsLeftOver(m, shown, messages)
    ensures IsVisible(shown, m.id)
  {
    hide IndexOf, IsVisible, StreamedAfter, ToolIds;
    VisibleIsStreamed(shown, m.id);
  }

  // ---------------------------------------------------------------- a run that is cut off

  /** What a run has shown when it is cut off: whole pieces, and the beginning of one more stream. */
  predicate IsCut(cut: seq<Piece>, pieces: seq<Piece>) {
    || cut <= pieces
    || (&& 0 < |cut| <= |pieces| && cut[..|cut| - 1] == pieces[..|cut| - 1]
        && cut[|cut| - 1].Streamed? && pieces[|cut| - 1].Streamed?
        && cut[|cut| - 1].snapshots <= pieces[|cut| - 1].snapshots)
  }

  lemma {:induction false} ShownOfPrefix(pieces: seq<Piece>, k: nat)
    requires k <= |pieces|
    ensures Shown(pieces[..k]) <= Shown(pieces)
    decreases |pieces|
  {
    if k < |pieces| {
      ShownOfPrefix(pieces[..|pieces| - 1], k);
      assert pieces[..|pieces| - 1][..k] == pieces[..k];
    } else {
      assert pieces[..k] == pieces;
    }
  }

  lemma {:induction false} ShownOfCut(cut: seq<Piece>, pieces: seq<Piece>)
    requires IsCut(cut, pieces)
    ensures Shown(cut) <= Shown(pieces)
  {
    hide Shown;
    if cut <= pieces {
      ShownOfPrefix(pieces, |cut|);
      assert cut == pieces[..|cut|];
    } else {
      var n := |cut| - 1;
      var before := pieces[..n];
      ShownGrows(before, cut[n]);
      ShownGrows(before, pieces[n]);
      assert cut == before + [cut[n]] && pieces[..n + 1] == before + [pieces[n]];
      ShownOfPrefix(pieces, n + 1);
    }
  }

  lemma {:induction false} CutIsRun(base: seq<Message>, cut: seq<Piece>, pieces: seq<Piece>)
    requires IsRun(base, pieces) && IsCut(cut, pieces)
    ensures IsRun(base, cut) && (DropsText(Shown(cut)) ==> DropsText(Shown(pieces)))
  {
    hide IndexOf, IsStream, IsListMessage, Shown, DropsText;
    ShownOfCut(cut, pieces);
    assert Shown(cut) == Shown(pieces)[..|Shown(cut)|];
    StreamPrefix(base, Shown(pieces), |Shown(cut)|);
    forall i | 0 <= i < |cut|
      ensures IdsOf(ShownBy(cut[i])) <= IdsOf(ShownBy(pieces[i])) && cut[i].Listed? == pieces[i].Listed?
      ensures cut[i].Listed? ==> cut[i] == pieces[i]
    {
      if cut <= pieces || i < |cut| - 1 {
        assert cut[i] == pieces[i];
      }
    }
  }

  lemma {:induction false} NothingListed(base: seq<Message>, shown: seq<Message>)
    ensures Lists(base, shown, [])
  {
  }

  /** A run that is cut off anywhere leaves what it had shown until then, each message once as it was last
      shown, exactly when none of that drops a text; and it does not if the whole run would not have. */
  lemma {:induction false} CutRunIsStoredExactlyWhen(base: seq<Message>, cut: seq<Piece>, pieces: seq<Piece>)
    requires IsRun(base, pieces) && IsCut(cut, pieces)
    ensures HoldsRun(base, PersistAll(base, RunKinds(cut, true) + [Finish([])]), Shown(cut), []) <==> !DropsText(Shown(cut))
    ensures !DropsText(Shown(pieces)) ==> !DropsText(Shown(cut))
  {
    hide IsRun, IsCut, DropsText, HoldsRun, Lists, Shown, RunKinds, PersistAll;
    CutIsRun(base, cut, pieces);
    NothingListed(base, Shown(cut));
    RunIsStoredExactlyWhen(base, cut, []);
  }
}
