/** What a whole run shows of itself: the snapshots of every attempt at a provider turn, and between
    them the task list, each time it changes. */
module RunPieces {
  import opened Wrappers
  import opened Events
  import opened ProviderTurns

  datatype Piece = Streamed(snapshots: seq<Message>) | Listed(message: Message)

  function ShownBy(p: Piece): seq<Message> {
    match p
    case Streamed(snapshots) => snapshots
    case Listed(message) => [message]
  }

  function Shown(pieces: seq<Piece>): seq<Message> {
    if pieces == [] then [] else Shown(pieces[..|pieces| - 1]) + ShownBy(pieces[|pieces| - 1])
  }

  function PieceKinds(p: Piece, deltas: bool): seq<Kind> {
    match p
    case Streamed(snapshots) => TurnEvents(snapshots, deltas)
    case Listed(message) => [MessageSent(Some(message))]
  }

  function RunKinds(pieces: seq<Piece>, deltas: bool): seq<Kind> {
    if pieces == [] then []
    else RunKinds(pieces[..|pieces| - 1], deltas) + PieceKinds(pieces[|pieces| - 1], deltas)
  }

  function IdsOf(messages: seq<Message>): set<string> {
    set i | 0 <= i < |messages| :: messages[i].id
  }

  /** No attempt reuses an id; the task list of one tool call may be shown again. */
  predicate AreApart(pieces: seq<Piece>) {
    forall i, j :: 0 <= i < j < |pieces| ==>
      IdsOf(ShownBy(pieces[i])) !! IdsOf(ShownBy(pieces[j])) || (pieces[i].Listed? && pieces[j].Listed?)
  }

  /** The kinds a stored conversation depends on. */
  predicate IsStored(kind: Kind) {
    kind.MessageSent? || kind.MessageDelta? || kind.Finish?
  }

  function Effective(kinds: seq<Kind>): seq<Kind> {
    if kinds == [] then []
    else Effective(kinds[..|kinds| - 1]) + if IsStored(kinds[|kinds| - 1]) then [kinds[|kinds| - 1]] else []
  }

  lemma {:induction false} EffectiveConcat(a: seq<Kind>, b: seq<Kind>)
    ensures Effective(a + b) == Effective(a) + Effective(b)
  {
    if b == [] {
      assert a + b == a;
    } else {
      assert (a + b)[..|a + b| - 1] == a + b[..|b| - 1];
      EffectiveConcat(a, b[..|b| - 1]);
    }
  }

  lemma {:induction false} AllEffective(kinds: seq<Kind>)
    requires forall i :: 0 <= i < |kinds| ==> IsStored(kinds[i])
    ensures Effective(kinds) == kinds
  {
    if kinds != [] {
      AllEffective(kinds[..|kinds| - 1]);
    }
  }

  lemma {:induction false} NoneEffective(kinds: seq<Kind>)
    requires forall i :: 0 <= i < |kinds| ==> !IsStored(kinds[i])
    ensures Effective(kinds) == []
  {
    if kinds != [] {
      NoneEffective(kinds[..|kinds| - 1]);
    }
  }

  lemma {:induction false} TurnEventsAreStored(snapshots: seq<Message>, deltas: bool)
    ensures forall i :: 0 <= i < |TurnEvents(snapshots, deltas)| ==> IsStored(TurnEvents(snapshots, deltas)[i])
  {
    hide TextContent, HasToolBlock, StreamedAfter;
    if snapshots != [] {
      TurnEventsAreStored(snapshots[..|snapshots| - 1], deltas);
    }
  }

  lemma ShownGrows(pieces: seq<Piece>, p: Piece)
    ensures Shown(pieces + [p]) == Shown(pieces) + ShownBy(p)
    ensures RunKinds(pieces + [p], true) == RunKinds(pieces, true) + PieceKinds(p, true)
  {
    hide PieceKinds;
    assert (pieces + [p])[..|pieces|] == pieces;
  }

  /** Where a shown message comes from. */
  lemma {:induction false} ShownFrom(pieces: seq<Piece>, i: nat) returns (k: nat)
    requires i < |Shown(pieces)|
    ensures k < |pieces| && Shown(pieces)[i] in ShownBy(pieces[k])
  {
    var n := |pieces| - 1;
    if i < |Shown(pieces[..n])| {
      k := ShownFrom(pieces[..n], i);
    } else {
      k := n;
      assert Shown(pieces)[i] == ShownBy(pieces[n])[i - |Shown(pieces[..n])|];
    }
  }

  lemma {:induction false} ShownIds(pieces: seq<Piece>, id: string)
    ensures id in IdsOf(Shown(pieces)) <==> exists k :: 0 <= k < |pieces| && id in IdsOf(ShownBy(pieces[k]))
  {
    hide ShownBy;
    if pieces != [] {
      var n := |pieces| - 1;
      ShownIds(pieces[..n], id);
      IdsConcat(Shown(pieces[..n]), ShownBy(pieces[n]));
      assert forall k :: 0 <= k < n ==> pieces[..n][k] == pieces[k];
    }
  }

  lemma IdsConcat(a: seq<Message>, b: seq<Message>)
    ensures IdsOf(a + b) == IdsOf(a) + IdsOf(b)
  {
    var all := a + b;
    assert forall i :: 0 <= i < |a| ==> all[i] == a[i];
    assert forall i :: 0 <= i < |b| ==> all[|a| + i] == b[i];
  }

  /** The last snapshot of a message whose id a later part does not have. */
  lemma {:induction false} LatestApart(a: seq<Message>, b: seq<Message>, id: string)
    ensures id !in IdsOf(b) ==> Latest(a + b, id) == Latest(a, id)
    ensures id !in IdsOf(a) ==> Latest(a + b, id) == Latest(b, id)
  {
    if b == [] {
      assert a + b == a;
      NoLatest(a, id);
    } else {
      var n := |b| - 1;
      assert (a + b)[..|a + b| - 1] == a + b[..n];
      LatestApart(a, b[..n], id);
      assert b[n].id in IdsOf(b);
      assert IdsOf(b[..n]) <= IdsOf(b) by {
        IdsConcat(b[..n], [b[n]]);
        assert b == b[..n] + [b[n]];
      }
    }
  }

  lemma {:induction false} NoLatest(messages: seq<Message>, id: string)
    ensures id in IdsOf(messages) <==> Latest(messages, id).Some?
  {
    if messages != [] {
      var n := |messages| - 1;
      NoLatest(messages[..n], id);
      IdsConcat(messages[..n], [messages[n]]);
      assert messages == messages[..n] + [messages[n]];
      assert IdsOf([messages[n]]) == {messages[n].id} by {
        assert [messages[n]][0] == messages[n];
      }
    }
  }
}
