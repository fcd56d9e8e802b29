/** The codec with message deltas switched off: every snapshot is sent whole, and the server merges
    it by id and kind. */
module WholeMessages {
  import opened Wrappers
  import opened Events
  import opened Conversations
  import opened ProviderTurns
  import opened Codec

  /** Messages whose ids are new to the conversation. */
  predicate AreNew(base: seq<Message>, snapshots: seq<Message>) {
    forall i :: 0 <= i < |snapshots| ==> snapshots[i].id != "" && IndexOf(base, snapshots[i].id).None?
  }

  /** Snapshot `j` is of another kind than an earlier one of the same message. */
  predicate ChangesKindAt(snapshots: seq<Message>, j: nat)
    requires j < |snapshots|
  {
    exists i :: 0 <= i < j && snapshots[i].id == snapshots[j].id && !SameKind(snapshots[i], snapshots[j])
  }

  predicate ChangesKind(snapshots: seq<Message>) {
    exists j :: 0 <= j < |snapshots| && ChangesKindAt(snapshots, j)
  }

  /** The conversation holds the last snapshot of every message, once. */
  predicate HoldsLatest(base: seq<Message>, conversation: seq<Message>, snapshots: seq<Message>) {
    && OnceEach(base, conversation)
    && (forall i :: |base| <= i < |conversation| ==> Latest(snapshots, conversation[i].id) == Some(conversation[i]))
    && (forall i :: 0 <= i < |snapshots| ==> IndexOf(conversation, snapshots[i].id).Some?)
  }

  lemma WholeTurnGrows(base: seq<Message>, before: seq<Message>, m: Message)
    ensures PersistAll(base, TurnEvents(before + [m], false)) == Merge(PersistAll(base, TurnEvents(before, false)), m)
  {
    hide PersistAll, Merge;
    assert (before + [m])[..|before|] == before;
    PersistConcat(base, TurnEvents(before, false), [MessageSent(Some(m))]);
    PersistOneOrTwo(PersistAll(base, TurnEvents(before, false)), MessageSent(Some(m)), MessageSent(Some(m)));
  }

  lemma ChangesKindPrefix(snapshots: seq<Message>, n: nat)
    requires n + 1 == |snapshots|
    ensures ChangesKind(snapshots) <==> ChangesKind(snapshots[..n]) || ChangesKindAt(snapshots, n)
  {
    hide SameKind;
    var before := snapshots[..n];
    assert forall i :: 0 <= i < n ==> before[i] == snapshots[i];
    assert forall j :: 0 <= j < n ==> (ChangesKindAt(before, j) <==> ChangesKindAt(snapshots, j));
  }

  /** All snapshots of a message being of one kind, so is the last one. */
  lemma {:induction false} LatestHasTheKind(snapshots: seq<Message>, n: nat)
    requires n + 1 == |snapshots| && !ChangesKind(snapshots[..n]) && Latest(snapshots[..n], snapshots[n].id).Some?
    ensures ChangesKindAt(snapshots, n) <==> !SameKind(Latest(snapshots[..n], snapshots[n].id).value, snapshots[n])
  {
    hide Latest, ChangesKind;
    var before, m := snapshots[..n], snapshots[n];
    var k := LatestAt(before, m.id);
    assert forall i :: 0 <= i < n ==> before[i] == snapshots[i];
    if ChangesKindAt(snapshots, n) {
      var i :| 0 <= i < n && snapshots[i].id == m.id && !SameKind(snapshots[i], m);
      if i < k {
        KeepsKind(before, i, k);
      }
    } else {
      assert SameKind(snapshots[k], m);
    }
  }

  lemma KeepsKind(snapshots: seq<Message>, i: nat, j: nat)
    requires !ChangesKind(snapshots) && i < j < |snapshots| && snapshots[i].id == snapshots[j].id
    ensures SameKind(snapshots[i], snapshots[j])
  {
    assert !ChangesKindAt(snapshots, j);
  }

  lemma WholeStep(base: seq<Message>, conversation: seq<Message>, snapshots: seq<Message>, n: nat)
    requires n + 1 == |snapshots| && AreNew(base, snapshots)
    requires HoldsLatest(base, conversation, snapshots[..n]) && !ChangesKind(snapshots[..n])
    ensures if ChangesKindAt(snapshots, n) then Repeats(base, Merge(conversation, snapshots[n]))
            else HoldsLatest(base, Merge(conversation, snapshots[n]), snapshots)
  {
    hide IndexOf, SameKind, ChangesKind, ChangesKindAt, Latest;
    var before, m := snapshots[..n], snapshots[n];
    var at := IndexOf(conversation, m.id);
    IndexOfInTail(base, conversation, m.id);
    NeverSeen(snapshots, n);
    if at.Some? {
      assert Latest(before, m.id) == Some(conversation[at.value]);
      LatestHasTheKind(snapshots, n);
    } else {
      assert !ChangesKindAt(snapshots, n) by {
        NewHasNoKind(conversation, snapshots, n);
      }
    }
    if ChangesKindAt(snapshots, n) {
      IndexOfAdded(conversation, m, m.id);
      assert (conversation + [m])[|conversation|] == m;
    } else {
      assert Merge(conversation, m) == Place(conversation, m);
      PlacedHoldsLatest(base, conversation, snapshots, n);
    }
  }

  lemma NeverSeen(snapshots: seq<Message>, n: nat)
    requires n + 1 == |snapshots|
    ensures snapshots[..n] + [snapshots[n]] == snapshots
    ensures forall id :: Latest(snapshots, id) == if id == snapshots[n].id then Some(snapshots[n]) else Latest(snapshots[..n], id)
  {
    assert snapshots[..n] + [snapshots[n]] == snapshots;
    OneMore(snapshots[..n], snapshots[n], false);
  }

  lemma NewHasNoKind(conversation: seq<Message>, snapshots: seq<Message>, n: nat)
    requires n + 1 == |snapshots| && IndexOf(conversation, snapshots[n].id).None?
    requires forall i :: 0 <= i < n ==> IndexOf(conversation, snapshots[..n][i].id).Some?
    ensures !ChangesKindAt(snapshots, n)
  {
    hide IndexOf, SameKind;
    assert forall i :: 0 <= i < n ==> snapshots[..n][i] == snapshots[i];
  }

  lemma PlacedHoldsLatest(base: seq<Message>, conversation: seq<Message>, snapshots: seq<Message>, n: nat)
    requires n + 1 == |snapshots| && AreNew(base, snapshots) && HoldsLatest(base, conversation, snapshots[..n])
    ensures HoldsLatest(base, Place(conversation, snapshots[n]), snapshots)
  {
    hide IndexOf, Latest;
    var m := snapshots[n];
    var placed := Place(conversation, m);
    PlaceKeepsOnce(base, conversation, m);
    NeverSeen(snapshots, n);
    forall i | |base| <= i < |placed|
      ensures Latest(snapshots, placed[i].id) == Some(placed[i])
    {
      PlacedEntry(base, conversation, m, i);
      PlacedIndex(conversation, m, m.id);
      assert IndexOf(placed, placed[i].id) == Some(i);
    }
    forall i | 0 <= i <= n
      ensures IndexOf(placed, snapshots[i].id).Some?
    {
      PlacedIndex(conversation, m, snapshots[i].id);
      if i < n {
        assert snapshots[..n][i] == snapshots[i];
      }
    }
  }

  lemma {:induction false} WholeTurnStored(base: seq<Message>, snapshots: seq<Message>)
    requires AreNew(base, snapshots)
    ensures var stored := PersistAll(base, TurnEvents(snapshots, false));
            if ChangesKind(snapshots) then Repeats(base, stored) else HoldsLatest(base, stored, snapshots)
  {
    hide IndexOf, ChangesKind, ChangesKindAt, HoldsLatest, Repeats, Merge;
    if snapshots == [] {
      NothingSent(base);
    } else {
      var n := |snapshots| - 1;
      var before := snapshots[..n];
      WholeTurnStored(base, before);
      var stored := PersistAll(base, TurnEvents(before, false));
      WholeTurnGrows(base, before, snapshots[n]);
      assert before + [snapshots[n]] == snapshots;
      ChangesKindPrefix(snapshots, n);
      if ChangesKind(before) {
        RepeatsForGood(base, stored, [MessageSent(Some(snapshots[n]))]);
        PersistOneOrTwo(stored, MessageSent(Some(snapshots[n])), MessageSent(Some(snapshots[n])));
      } else {
        WholeStep(base, stored, snapshots, n);
      }
    }
  }

  lemma NothingSent(base: seq<Message>)
    ensures PersistAll(base, TurnEvents([], false)) == base && !ChangesKind([]) && HoldsLatest(base, base, [])
  {
  }

  // ---------------------------------------------------------------- the finish

  /** Half-way through the finish list, nothing that was stored has changed. */
  predicate WholeFinishing(base: seq<Message>, conversation: seq<Message>, snapshots: seq<Message>, messages: seq<Message>, k: nat)
    requires k <= |messages|
  {
    && OnceEach(base, conversation)
    && (forall i :: |base| <= i < |conversation| ==>
          IsDone(messages, k, conversation[i]) || Latest(snapshots, conversation[i].id) == Some(conversation[i]))
    && (forall i :: 0 <= i < k ==> IsStoredAs(base, conversation, messages[i]))
  }

  lemma WholeFinishStep(base: seq<Message>, conversation: seq<Message>, snapshots: seq<Message>, messages: seq<Message>, k: nat)
    requires Finishes(base, snapshots, messages) && k < |messages|
    requires WholeFinishing(base, conversation, snapshots, messages, k)
    ensures WholeFinishing(base, Merge(conversation, messages[k]), snapshots, messages, k + 1)
  {
    hide IndexOf, Latest, FirstIds, SameKind, OnceEach, IsStoredAs;
    var m := messages[k];
    var at := IndexOf(conversation, m.id);
    IndexOfInTail(base, conversation, m.id);
    assert IndexOf(messages, m.id) == Some(k);
    if at.Some? {
      LatestIsListed(snapshots, m.id);
      assert conversation[at.value] == m;
      KindOfItself(m);
    }
    var placed := Place(conversation, m);
    assert placed == Merge(conversation, m);
    PlaceKeepsOnce(base, conversation, m);
    forall i | |base| <= i < |placed|
      ensures IsDone(messages, k + 1, placed[i]) || Latest(snapshots, placed[i].id) == Some(placed[i])
    {
      PlacedEntry(base, conversation, m, i);
    }
    forall i | 0 <= i < k + 1
      ensures IsStoredAs(base, placed, messages[i])
    {
      PlacedIsStored(base, conversation, m, messages[i]);
    }
  }

  lemma KindOfItself(m: Message)
    ensures SameKind(m, m)
  {
  }

  lemma {:induction false} WholeFinishPart(base: seq<Message>, conversation: seq<Message>, snapshots: seq<Message>,
                                           messages: seq<Message>, k: nat)
    requires Finishes(base, snapshots, messages) && k <= |messages| && HoldsLatest(base, conversation, snapshots)
    ensures WholeFinishing(base, MergeAll(conversation, messages[..k]), snapshots, messages, k)
  {
    hide Finishes, IndexOf, Merge, Latest;
    if k > 0 {
      WholeFinishPart(base, conversation, snapshots, messages, k - 1);
      WholeFinishStep(base, MergeAll(conversation, messages[..k - 1]), snapshots, messages, k - 1);
      assert messages[..k][..k - 1] == messages[..k - 1];
    }
  }

  lemma WholeAllFinished(base: seq<Message>, conversation: seq<Message>, snapshots: seq<Message>, messages: seq<Message>)
    requires Finishes(base, snapshots, messages) && WholeFinishing(base, conversation, snapshots, messages, |messages|)
    ensures HoldsOnce(base, conversation, messages)
  {
    hide IndexOf, FirstIds, Latest;
    forall i | |base| <= i < |conversation|
      ensures conversation[i] in messages
    {
      var e := conversation[i];
      if Latest(snapshots, e.id) == Some(e) {
        LatestIsListed(snapshots, e.id);
        assert IsStoredAs(base, conversation, messages[IndexOf(messages, e.id).value]);
      }
    }
  }

  /** Without deltas, a turn and its finish leave every message stored once, in its final form,
      exactly when no message changes its kind from one snapshot to another. */
  lemma {:induction false} WholeStoredOnceExactlyWhen(base: seq<Message>, snapshots: seq<Message>, messages: seq<Message>)
    requires AreNew(base, snapshots) && Finishes(base, snapshots, messages)
    ensures HoldsOnce(base, PersistAll(base, TurnEvents(snapshots, false) + [Finish(messages)]), messages)
            <==> !ChangesKind(snapshots)
  {
    hide AreNew, Finishes, IndexOf, MergeAll, TurnEvents, PersistAll, Repeats, ChangesKind, HoldsLatest;
    WholeTurnStored(base, snapshots);
    var stored := PersistAll(base, TurnEvents(snapshots, false));
    PersistConcat(base, TurnEvents(snapshots, false), [Finish(messages)]);
    PersistOneOrTwo(stored, Finish(messages), Finish(messages));
    if ChangesKind(snapshots) {
      RepeatsForGood(base, stored, [Finish(messages)]);
      RepeatsIsNotOnce(base, MergeAll(stored, messages));
    } else {
      WholeFinishPart(base, stored, snapshots, messages, |messages|);
      assert messages[..|messages|] == messages;
      WholeAllFinished(base, MergeAll(stored, messages), snapshots, messages);
    }
  }

  /** The two ways to emit differ: where tool requests come first and text joins them later, deltas
      keep one message and whole messages do not. */
  lemma {:induction false} LateTextNeedsDeltas(base: seq<Message>, id: string, text: string, request: ContentBlock)
    requires id != "" && IndexOf(base, id).None? && text != "" && request.ToolRequest?
    ensures var snapshots := [Message(id, Assistant, [request]), Message(id, Assistant, [Text(text), request])];
            IsStream(base, snapshots) && !DropsText(snapshots) && ChangesKind(snapshots)
  {
    hide IndexOf, TextContent;
    var first, second := Message(id, Assistant, [request]), Message(id, Assistant, [Text(text), request]);
    var snapshots := [first, second];
    SnapshotText(first);
    assert !DropsTextAt(snapshots, 0) && !DropsTextAt(snapshots, 1);
    assert !SameKind(snapshots[0], snapshots[1]);
    assert ChangesKindAt(snapshots, 1);
  }
}
