/** How the server folds core events into a stored conversation. */
module Conversations {
  import opened Wrappers
  import opened Events

  datatype BlockKind = TextKind | ToolRequestKind | ToolResponseKind | ThinkingKind

  function KindOf(block: ContentBlock): BlockKind {
    match block
    case Text(_) => TextKind
    case ToolRequest(_, _, _) => ToolRequestKind
    case ToolResponse(_, _, _) => ToolResponseKind
    case Thinking(_) => ThinkingKind
  }

  function FirstKind(m: Message): Option<BlockKind> {
    if m.content == [] then None else Some(KindOf(m.content[0]))
  }

  predicate SameKind(a: Message, b: Message) {
    a.role == b.role && FirstKind(a) == FirstKind(b)
  }

  /** The first message with this id. */
  function IndexOf(conversation: seq<Message>, id: string): (index: Option<nat>)
    ensures index.Some? ==> index.value < |conversation| && conversation[index.value].id == id
                            && forall i :: 0 <= i < index.value ==> conversation[i].id != id
    ensures index.None? ==> forall i :: 0 <= i < |conversation| ==> conversation[i].id != id
  {
    if conversation == [] then None
    else if conversation[0].id == id then Some(0)
    else
      var rest := IndexOf(conversation[1..], id);
      if rest.Some? then Some(rest.value + 1) else None
  }

  /** The first text block of a message. */
  function FirstText(content: seq<ContentBlock>): (index: Option<nat>)
    ensures index.Some? ==> index.value < |content| && content[index.value].Text?
                            && forall i :: 0 <= i < index.value ==> !content[i].Text?
    ensures index.None? ==> forall i :: 0 <= i < |content| ==> !content[i].Text?
  {
    if content == [] then None
    else if content[0].Text? then Some(0)
    else
      var rest := FirstText(content[1..]);
      if rest.Some? then Some(rest.value + 1) else None
  }

  function AppendDelta(m: Message, delta: string): Message {
    var at := FirstText(m.content);
    if at.Some? then m.(content := m.content[at.value := Text(m.content[at.value].text + delta)])
    else m.(content := [Text(delta)] + m.content)
  }

  /** What is not text in a message. */
  function NotText(content: seq<ContentBlock>): seq<ContentBlock> {
    if content == [] then []
    else NotText(content[..|content| - 1]) + if content[|content| - 1].Text? then [] else [content[|content| - 1]]
  }

  /** All that a message's text blocks say, one after the other. */
  function SaidText(content: seq<ContentBlock>): string {
    if content == [] then ""
    else SaidText(content[..|content| - 1]) + if content[|content| - 1].Text? then content[|content| - 1].text else ""
  }

  lemma {:induction false} NotTextConcat(a: seq<ContentBlock>, b: seq<ContentBlock>)
    ensures NotText(a + b) == NotText(a) + NotText(b) && SaidText(a + b) == SaidText(a) + SaidText(b)
  {
    if b == [] {
      assert a + b == a;
    } else {
      assert (a + b)[..|a + b| - 1] == a + b[..|b| - 1];
      NotTextConcat(a, b[..|b| - 1]);
    }
  }

  lemma {:induction false} OneBlock(block: ContentBlock)
    ensures NotText([block]) == (if block.Text? then [] else [block]) && SaidText([block]) == if block.Text? then block.text else ""
  {
    assert [block][..0] == [];
  }

  /** A delta adds its text and takes nothing away: what is not text stays, in its order, and a message with
      at most one text block says what it said and then the delta. */
  lemma {:induction false} DeltaOnlyAdds(m: Message, delta: string)
    ensures var grown := AppendDelta(m, delta);
            && grown.id == m.id && grown.role == m.role
            && NotText(grown.content) == NotText(m.content)
            && ((forall i, j :: 0 <= i < j < |m.content| ==> !(m.content[i].Text? && m.content[j].Text?))
                ==> SaidText(grown.content) == SaidText(m.content) + delta)
  {
    hide NotText, SaidText, FirstText;
    var at := FirstText(m.content);
    if at.Some? {
      TextGrows(m.content, at.value, delta);
    } else {
      NotTextConcat([Text(delta)], m.content);
      OneBlock(Text(delta));
      NothingSaid(m.content);
      assert [] + NotText(m.content) == NotText(m.content);
    }
  }

  lemma {:induction false} TextGrows(content: seq<ContentBlock>, k: nat, delta: string)
    requires k < |content| && content[k].Text?
    ensures var grown := content[k := Text(content[k].text + delta)];
            && NotText(grown) == NotText(content)
            && ((forall i :: k < i < |content| ==> !content[i].Text?) ==> SaidText(grown) == SaidText(content) + delta)
  {
    hide NotText, SaidText;
    var a, b, was, now := content[..k], content[k + 1..], content[k], Text(content[k].text + delta);
    assert content == a + [was] + b && content[k := now] == a + [now] + b;
    NotTextConcat(a + [was], b);
    NotTextConcat(a, [was]);
    NotTextConcat(a + [now], b);
    NotTextConcat(a, [now]);
    OneBlock(was);
    OneBlock(now);
    if forall i :: k < i < |content| ==> !content[i].Text? {
      NothingSaid(b);
      assert SaidText(a) + (was.text + delta) + "" == SaidText(a) + was.text + "" + delta;
    }
  }

  lemma {:induction false} NothingSaid(content: seq<ContentBlock>)
    requires forall i :: 0 <= i < |content| ==> !content[i].Text?
    ensures SaidText(content) == ""
  {
    if content != [] {
      NothingSaid(content[..|content| - 1]);
    }
  }

  function ApplyDelta(conversation: seq<Message>, id: string, delta: string): seq<Message> {
    var at := IndexOf(conversation, id);
    if at.Some? then conversation[at.value := AppendDelta(conversation[at.value], delta)]
    else conversation + [Message(id, Assistant, [Text(delta)])]
  }

  /** A message replaces the first one with its id when they are of the same kind; a message of
      another kind, or without an id, is added. */
  function Merge(conversation: seq<Message>, m: Message): seq<Message> {
    var at := if m.id == "" then None else IndexOf(conversation, m.id);
    if at.Some? && SameKind(conversation[at.value], m) then conversation[at.value := m]
    else conversation + [m]
  }

  function MergeAll(conversation: seq<Message>, messages: seq<Message>): seq<Message> {
    if messages == [] then conversation
    else Merge(MergeAll(conversation, messages[..|messages| - 1]), messages[|messages| - 1])
  }

  function Persist(conversation: seq<Message>, kind: Kind): seq<Message> {
    match kind
    case MessageSent(Some(m)) => Merge(conversation, m)
    case MessageDelta(Some(id), Some(delta)) =>
      if delta == "" then conversation else ApplyDelta(conversation, id, delta)
    case Finish(messages) => MergeAll(conversation, messages)
    case _ => conversation
  }

  function PersistAll(conversation: seq<Message>, kinds: seq<Kind>): seq<Message> {
    if kinds == [] then conversation
    else Persist(PersistAll(conversation, kinds[..|kinds| - 1]), kinds[|kinds| - 1])
  }

  /** A stored conversation, edited in place. */
  class Conversation {
    var messages: seq<Message>

    constructor (messages: seq<Message>)
      ensures this.messages == messages
    {
      this.messages := messages;
    }

    method Find(id: string) returns (at: Option<nat>)
      ensures at == IndexOf(messages, id)
    {
      for i := 0 to |messages|
        invariant forall k :: 0 <= k < i ==> messages[k].id != id
      {
        if messages[i].id == id {
          return Some(i);
        }
      }
      return None;
    }

    method AppendTextDelta(at: nat, delta: string)
      requires at < |messages|
      modifies this
      ensures messages == old(messages)[at := AppendDelta(old(messages)[at], delta)]
    {
      var m := messages[at];
      for i := 0 to |m.content|
        invariant messages == old(messages)
        invariant forall k :: 0 <= k < i ==> !m.content[k].Text?
      {
        if m.content[i].Text? {
          messages := messages[at := m.(content := m.content[i := Text(m.content[i].text + delta)])];
          return;
        }
      }
      messages := messages[at := m.(content := [Text(delta)] + m.content)];
    }

    method ApplyMessageDelta(id: string, delta: string)
      modifies this
      ensures messages == ApplyDelta(old(messages), id, delta)
    {
      var at := Find(id);
      if at.Some? {
        AppendTextDelta(at.value, delta);
        return;
      }
      messages := messages + [Message(id, Assistant, [Text(delta)])];
    }

    method MergeMessage(m: Message)
      modifies this
      ensures messages == Merge(old(messages), m)
    {
      if m.id != "" {
        var at := Find(m.id);
        if at.Some? && SameKind(messages[at.value], m) {
          messages := messages[at.value := m];
          return;
        }
      }
      messages := messages + [m];
    }

    method PersistCoreEvent(kind: Kind)
      modifies this
      ensures messages == Persist(old(messages), kind)
    {
      match kind {
        case MessageSent(Some(m)) => MergeMessage(m);
        case MessageDelta(Some(id), Some(delta)) =>
          if delta != "" {
            ApplyMessageDelta(id, delta);
          }
        case Finish(finished) =>
          for i := 0 to |finished|
            invariant messages == MergeAll(old(messages), finished[..i])
          {
            assert finished[..i + 1][..i] == finished[..i];
            MergeMessage(finished[i]);
          }
          assert finished[..|finished|] == finished;
        case _ =>
      }
    }
  }
}
