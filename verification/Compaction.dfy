/** Keeping a conversation within its window: long tool outputs are cut, and old messages give way
    to a summary. */
module Compaction {
  import opened Wrappers
  import opened Events
  import opened Text
  import opened Conversations

  // ---------------------------------------------------------------- long tool outputs

  const MARKER_START := "\n…[truncated "
  const MARKER_END := " characters by context manager]"

  function Marker(removed: nat): string {
    MARKER_START + Decimal(removed) + MARKER_END
  }

  function Truncate(content: string, limit: nat): string {
    if |content| <= limit then content else content[..limit] + Marker(|content| - limit)
  }

  /** A cut output says how much is gone. */
  lemma {:induction false} CutSaysHowMuch(content: string, limit: nat)
    ensures Truncate(content, limit)
            == if |content| <= limit then content
               else content[..limit] + "\n…[truncated " + Decimal(|content| - limit) + " characters by context manager]"
  {
  }

  function TruncateTimes(content: string, limit: nat, n: nat): string {
    if n == 0 then content else Truncate(TruncateTimes(content, limit, n - 1), limit)
  }

  function PowerOfTen(k: nat): nat {
    if k == 0 then 1 else 10 * PowerOfTen(k - 1)
  }

  lemma {:induction false} DecimalLength(n: nat, k: nat)
    requires k >= 1 && n < PowerOfTen(k)
    ensures |Decimal(n)| <= k
    decreases k
  {
    if n >= 10 {
      assert k > 1;
      assert n / 10 < PowerOfTen(k - 1);
      DecimalLength(n / 10, k - 1);
    }
  }

  lemma MarkerLength(removed: nat)
    requires 0 < removed <= U64_MAX
    ensures 45 <= |Marker(removed)| <= 64
    ensures 10 <= removed < 100 ==> |Marker(removed)| == 46
  {
    assert U64_MAX < PowerOfTen(20) by {
      assert PowerOfTen(5) == 10_0000 && PowerOfTen(10) == 100_0000_0000;
      assert PowerOfTen(15) == 1000_0000_0000_0000 && PowerOfTen(20) == 1_0000_0000_0000_0000_0000;
    }
    DecimalLength(removed, 20);
  }

  /** Cut any number of times, an output keeps its first `limit` characters, is at most a marker
      longer than the limit, and changes no more from the third time on. */
  lemma {:induction false} TruncationSettles(content: string, limit: nat, n: nat)
    requires |content| <= U64_MAX
    ensures var cut := TruncateTimes(content, limit, n);
            && (|content| <= limit ==> cut == content)
            && (|content| > limit ==> |cut| > limit && cut[..limit] == content[..limit])
            && (|content| > limit && n >= 1 ==> |cut| <= limit + 64)
            && (|content| > limit && n >= 2 ==> |cut| == limit + 46)
            && (|content| > limit && n >= 3 ==> cut == content[..limit] + Marker(46))
  {
    hide Marker;
    if n > 0 && |content| > limit {
      TruncationSettles(content, limit, n - 1);
      var before := TruncateTimes(content, limit, n - 1);
      MarkerLength(|before| - limit);
      if n >= 2 {
        assert |before| - limit >= 45 by { TruncatedLength(content, limit, n - 1); }
      }
      assert (before[..limit] + Marker(|before| - limit))[..limit] == before[..limit];
    } else if n > 0 {
      TruncationSettles(content, limit, n - 1);
    }
  }

  lemma {:induction false} TruncatedLength(content: string, limit: nat, n: nat)
    requires limit < |content| <= U64_MAX && n >= 1
    ensures limit + 45 <= |TruncateTimes(content, limit, n)| <= limit + 64
  {
    hide Marker;
    if n > 1 {
      TruncatedLength(content, limit, n - 1);
    }
    MarkerLength(|TruncateTimes(content, limit, n - 1)| - limit);
  }

  // ---------------------------------------------------------------- whole conversations

  function TruncateBlock(block: ContentBlock, limit: nat): ContentBlock {
    if block.ToolResponse? then block.(content := Truncate(block.content, limit)) else block
  }

  function TruncateBlocks(content: seq<ContentBlock>, limit: nat): (cut: seq<ContentBlock>)
    ensures |cut| == |content|
    ensures forall i :: 0 <= i < |content| ==> cut[i] == TruncateBlock(content[i], limit)
  {
    seq(|content|, i requires 0 <= i < |content| => TruncateBlock(content[i], limit))
  }

  function TruncateMessages(messages: seq<Message>, limit: nat): (cut: seq<Message>)
    ensures |cut| == |messages|
    ensures forall i :: 0 <= i < |messages| ==>
              cut[i] == messages[i].(content := TruncateBlocks(messages[i].content, limit))
  {
    seq(|messages|, i requires 0 <= i < |messages| => messages[i].(content := TruncateBlocks(messages[i].content, limit)))
  }

  /** Tool outputs are cut wherever they stand, and nothing else is touched. */
  lemma {:induction false} CutReachesToolOutputs(messages: seq<Message>, limit: nat, i: nat, j: nat)
    requires i < |messages| && j < |messages[i].content|
    ensures var cut := TruncateMessages(messages, limit);
            && |cut| == |messages| && cut[i].id == messages[i].id && cut[i].role == messages[i].role
            && |cut[i].content| == |messages[i].content|
            && match messages[i].content[j]
               case ToolResponse(id, content, isError) =>
                 cut[i].content[j]
                 == ToolResponse(id, if |content| <= limit then content
                                     else content[..limit] + "\n…[truncated " + Decimal(|content| - limit) + " characters by context manager]",
                                 isError)
               case _ => cut[i].content[j] == messages[i].content[j]
  {
    hide Decimal;
  }

  predicate IsLong(block: ContentBlock, limit: nat) {
    block.ToolResponse? && |block.content| > limit
  }

  function LongBlocks(content: seq<ContentBlock>, limit: nat): nat {
    if content == [] then 0
    else LongBlocks(content[..|content| - 1], limit) + if IsLong(content[|content| - 1], limit) then 1 else 0
  }

  function LongOutputs(messages: seq<Message>, limit: nat): nat {
    if messages == [] then 0
    else LongOutputs(messages[..|messages| - 1], limit) + LongBlocks(messages[|messages| - 1].content, limit)
  }

  /** Every tool output with more than `limit` characters counts for one, wherever it stands, and nothing
      else counts. */
  lemma {:induction false} CutsAreCounted(messages: seq<Message>, m: Message, block: ContentBlock, limit: nat)
    ensures LongOutputs([], limit) == 0
    ensures LongOutputs(messages + [m.(content := [])], limit) == LongOutputs(messages, limit)
    ensures LongOutputs(messages + [m.(content := m.content + [block])], limit)
            == LongOutputs(messages + [m], limit) + if block.ToolResponse? && |block.content| > limit then 1 else 0
  {
    hide LongBlocks;
    assert forall last: Message :: (messages + [last])[..|messages|] == messages;
    OneMoreCut(m.content, block, limit);
  }

  lemma {:induction false} OneMoreCut(content: seq<ContentBlock>, block: ContentBlock, limit: nat)
    ensures LongBlocks([], limit) == 0
    ensures LongBlocks(content + [block], limit)
            == LongBlocks(content, limit) + if block.ToolResponse? && |block.content| > limit then 1 else 0
  {
    assert (content + [block])[..|content|] == content;
  }

  // ---------------------------------------------------------------- the token estimate

  const USIZE_MAX := U64_MAX

  function CharBytes(c: char): nat {
    var code := c as int;
    if code < 0x80 then 1 else if code < 0x800 then 2 else if code < 0x1_0000 then 3 else 4
  }

  /** The length of a text in UTF-8. */
  function Bytes(s: string): nat {
    if s == "" then 0 else Bytes(s[..|s| - 1]) + CharBytes(s[|s| - 1])
  }

  function SaturatingAdd(a: nat, b: nat): nat {
    if a + b > USIZE_MAX then USIZE_MAX else a + b
  }

  function Quarter(text: string): nat {
    SaturatingAdd(Bytes(text), 4) / 4
  }

  /** What a block adds to the estimate, one addition after the other. */
  function AddBlock(total: nat, block: ContentBlock): nat {
    match block
    case Text(text) => SaturatingAdd(total, Quarter(text))
    case Thinking(text) => SaturatingAdd(total, Quarter(text))
    case ToolRequest(_, name, arguments) => SaturatingAdd(SaturatingAdd(total, Quarter(name)), Quarter(arguments))
    case ToolResponse(_, content, isError) =>
      var added := SaturatingAdd(total, Quarter(content));
      if isError then SaturatingAdd(added, 10) else added
  }

  function AddBlocks(total: nat, content: seq<ContentBlock>): nat {
    if content == [] then total else AddBlock(AddBlocks(total, content[..|content| - 1]), content[|content| - 1])
  }

  function EstimateTokens(messages: seq<Message>): nat {
    if messages == [] then 0
    else AddBlocks(EstimateTokens(messages[..|messages| - 1]), messages[|messages| - 1].content)
  }

  /** A block's own share, without any ceiling. */
  function BlockTokens(block: ContentBlock): nat {
    match block
    case Text(text) => Quarter(text)
    case Thinking(text) => Quarter(text)
    case ToolRequest(_, name, arguments) => Quarter(name) + Quarter(arguments)
    case ToolResponse(_, content, isError) => Quarter(content) + if isError then 10 else 0
  }

  function ContentTokens(content: seq<ContentBlock>): nat {
    if content == [] then 0 else ContentTokens(content[..|content| - 1]) + BlockTokens(content[|content| - 1])
  }

  function AllTokens(messages: seq<Message>): nat {
    if messages == [] then 0
    else AllTokens(messages[..|messages| - 1]) + ContentTokens(messages[|messages| - 1].content)
  }

  function Ceiling(n: nat): nat {
    if n > USIZE_MAX then USIZE_MAX else n
  }

  lemma {:induction false} BlocksSaturateOnce(sum: nat, content: seq<ContentBlock>)
    ensures AddBlocks(Ceiling(sum), content) == Ceiling(sum + ContentTokens(content))
  {
    hide Quarter;
    if content != [] {
      BlocksSaturateOnce(sum, content[..|content| - 1]);
    }
  }

  /** However the additions saturate on the way, the estimate is the true sum under the ceiling. */
  lemma {:induction false} EstimateIsTheSum(messages: seq<Message>)
    ensures EstimateTokens(messages) == Ceiling(AllTokens(messages))
    ensures EstimateTokens(messages) <= 0xFFFF_FFFF_FFFF_FFFF
  {
    if messages != [] {
      var before := messages[..|messages| - 1];
      EstimateIsTheSum(before);
      BlocksSaturateOnce(AllTokens(before), messages[|messages| - 1].content);
    }
  }

  /** A text of characters of one to four bytes counts for a quarter of its bytes and a little more:
      from a quarter of its characters up to all of them and one. */
  lemma {:induction false} QuarterBounds(text: string)
    requires |text| <= 0x1000_0000_0000_0000
    ensures |text| < 4 * Quarter(text) <= 4 * |text| + 4
    ensures (forall i :: 0 <= i < |text| ==> text[i] < '\U{80}') ==> 4 * Quarter(text) <= |text| + 4
    ensures (forall i :: 0 <= i < |text| ==> '\U{800}' <= text[i] <= '\U{D7FF}')
              ==> 3 * |text| < 4 * Quarter(text) <= 3 * |text| + 4
  {
    BytesBounds(text);
  }

  lemma {:induction false} BytesBounds(text: string)
    ensures |text| <= Bytes(text) <= 4 * |text|
    ensures (forall i :: 0 <= i < |text| ==> text[i] < '\U{80}') ==> Bytes(text) == |text|
    ensures (forall i :: 0 <= i < |text| ==> '\U{80}' <= text[i] < '\U{800}') ==> Bytes(text) == 2 * |text|
    ensures (forall i :: 0 <= i < |text| ==> '\U{800}' <= text[i] <= '\U{D7FF}') ==> Bytes(text) == 3 * |text|
    ensures (forall i :: 0 <= i < |text| ==> '\U{10000}' <= text[i]) ==> Bytes(text) == 4 * |text|
  {
    if text != "" {
      BytesBounds(text[..|text| - 1]);
    }
  }

  /** The characters that a block is counted by: all that it says, with a request's name and arguments. */
  function CountedChars(block: ContentBlock): nat {
    match block
    case Text(text) => |text|
    case Thinking(text) => |text|
    case ToolRequest(_, name, arguments) => |name| + |arguments|
    case ToolResponse(_, content, _) => |content|
  }

  function CharsOf(content: seq<ContentBlock>): nat {
    if content == [] then 0 else CharsOf(content[..|content| - 1]) + CountedChars(content[|content| - 1])
  }

  function AllChars(messages: seq<Message>): nat {
    if messages == [] then 0
    else AllChars(messages[..|messages| - 1]) + CharsOf(messages[|messages| - 1].content)
  }

  function AllBlocks(messages: seq<Message>): nat {
    if messages == [] then 0
    else AllBlocks(messages[..|messages| - 1]) + |messages[|messages| - 1].content|
  }

  lemma {:induction false} BlockTokensBound(block: ContentBlock)
    requires CountedChars(block) <= 0x1000_0000_0000_0000
    ensures CountedChars(block) < 4 * BlockTokens(block) <= 4 * CountedChars(block) + 44
    ensures block.ToolResponse? ==>
              BlockTokens(ToolResponse(block.id, block.content, true)) == BlockTokens(ToolResponse(block.id, block.content, false)) + 10
  {
    hide Quarter;
    match block
    case Text(text) => QuarterBounds(text);
    case Thinking(text) => QuarterBounds(text);
    case ToolRequest(_, name, arguments) =>
      QuarterBounds(name);
      QuarterBounds(arguments);
    case ToolResponse(_, content, _) => QuarterBounds(content);
  }

  lemma {:induction false} ContentTokensBound(content: seq<ContentBlock>)
    requires CharsOf(content) <= 0x1000_0000_0000_0000
    ensures CharsOf(content) + |content| <= 4 * ContentTokens(content) <= 4 * CharsOf(content) + 44 * |content|
  {
    hide CountedChars, BlockTokens;
    if content != [] {
      ContentTokensBound(content[..|content| - 1]);
      BlockTokensBound(content[|content| - 1]);
    }
  }

  lemma {:induction false} AllTokensBound(messages: seq<Message>)
    requires AllChars(messages) <= 0x1000_0000_0000_0000
    ensures AllChars(messages) + AllBlocks(messages) <= 4 * AllTokens(messages) <= 4 * AllChars(messages) + 44 * AllBlocks(messages)
  {
    if messages != [] {
      AllTokensBound(messages[..|messages| - 1]);
      ContentTokensBound(messages[|messages| - 1].content);
    }
  }

  /** The estimate of a conversation lies between a quarter of its characters and all of them with eleven
      for each block, so that a long conversation does come over any threshold. */
  lemma {:induction false} EstimateBounds(messages: seq<Message>)
    requires AllChars(messages) <= 0x1000_0000_0000_0000 && AllBlocks(messages) <= 0x100_0000_0000_0000
    ensures AllChars(messages) + AllBlocks(messages) <= 4 * EstimateTokens(messages)
            <= 4 * AllChars(messages) + 44 * AllBlocks(messages)
  {
    EstimateIsTheSum(messages);
    AllTokensBound(messages);
  }

  // ---------------------------------------------------------------- compaction

  datatype CompactionResult = Noop | Compacted(removed: nat, current: nat)

  function SummaryMessage(id: string, summary: string): Message {
    Message(id, System, [Text(summary)])
  }

  function Summarized(messages: seq<Message>, keep: nat, id: string, summary: string): seq<Message>
    requires keep <= |messages|
  {
    (if summary == "" then [] else [SummaryMessage(id, summary)]) + messages[|messages| - keep..]
  }

  function Min(a: nat, b: nat): nat {
    if a <= b then a else b
  }

  /** What `MaybeCompact` leaves of a conversation that it has already cut. */
  function CompactedMessages(cut: seq<Message>, maxMessages: nat, preserveRecent: nat, id: string, summary: string): seq<Message> {
    if |cut| <= maxMessages || preserveRecent == 0 || |cut| <= preserveRecent then cut
    else Summarized(cut, preserveRecent, id, summary)
  }

  /** Above its limit, and with something to preserve, a conversation gives way to its last messages, behind
      the summary as a text of the system if there is one. */
  lemma {:induction false} CompactionLeaves(cut: seq<Message>, maxMessages: nat, preserveRecent: nat, id: string, summary: string)
    requires preserveRecent < maxMessages
    ensures var left := CompactedMessages(cut, maxMessages, preserveRecent, id, summary);
            && (|cut| <= maxMessages || preserveRecent == 0 ==> left == cut)
            && (|cut| > maxMessages && preserveRecent > 0 && summary != "" ==>
                  left == [Message(id, System, [Text(summary)])] + cut[|cut| - preserveRecent..])
            && (|cut| > maxMessages && preserveRecent > 0 && summary == "" ==> left == cut[|cut| - preserveRecent..])
  {
    if summary == "" && |cut| > maxMessages {
      assert [] + cut[|cut| - preserveRecent..] == cut[|cut| - preserveRecent..];
    }
  }

  class ContextManager {
    const maxMessages: nat
    const preserveRecent: nat
    const maxToolOutputChars: nat
    var tokenEstimate: nat

    constructor (maxMessages: nat, preserveRecent: nat)
      ensures this.preserveRecent == preserveRecent && maxToolOutputChars == 4000 && tokenEstimate == 0
      ensures this.maxMessages == if maxMessages > preserveRecent then maxMessages else preserveRecent + 1
    {
      this.maxMessages := if maxMessages > preserveRecent + 1 then maxMessages else preserveRecent + 1;
      this.preserveRecent, maxToolOutputChars, tokenEstimate := preserveRecent, 4000, 0;
    }

    method TruncateToolOutputs(conversation: Conversation) returns (truncated: nat)
      modifies conversation
      ensures conversation.messages == TruncateMessages(old(conversation.messages), maxToolOutputChars)
      ensures truncated == LongOutputs(old(conversation.messages), maxToolOutputChars)
    {
      hide Truncate, LongBlocks, LongOutputs, TruncateBlocks;
      truncated := 0;
      ghost var was := conversation.messages;
      var limit := maxToolOutputChars;
      assert LongOutputs(was[..0], limit) == 0 by { NothingLong(limit); }
      for i := 0 to |conversation.messages|
        invariant |conversation.messages| == |was|
        invariant forall k :: 0 <= k < i ==>
                    conversation.messages[k] == was[k].(content := TruncateBlocks(was[k].content, limit))
        invariant forall k :: i <= k < |was| ==> conversation.messages[k] == was[k]
        invariant truncated == LongOutputs(was[..i], limit)
      {
        var content, count := TruncateContent(conversation.messages[i].content, limit);
        conversation.messages := conversation.messages[i := conversation.messages[i].(content := content)];
        truncated := truncated + count;
        OneMoreMessage(was, i, limit);
      }
      assert was[..|was|] == was;
      assert conversation.messages == TruncateMessages(was, limit);
    }

    method EstimateOf(messages: seq<Message>) returns (total: nat)
      ensures total == EstimateTokens(messages)
    {
      hide AddBlock;
      total := 0;
      for i := 0 to |messages|
        invariant total == EstimateTokens(messages[..i])
      {
        var content := messages[i].content;
        ghost var before := total;
        for j := 0 to |content|
          invariant total == AddBlocks(before, content[..j])
        {
          assert content[..j + 1][..j] == content[..j];
          total := AddBlock(total, content[j]);
        }
        assert content[..|content|] == content;
        assert messages[..i + 1][..i] == messages[..i];
      }
      assert messages[..|messages|] == messages;
    }

    /** Cuts long outputs, and when there are too many messages keeps the recent ones behind a
        summary of the rest. */
    method MaybeCompact(conversation: Conversation, id: string, summarize: seq<Message> -> string) returns (r: CompactionResult)
      modifies this`tokenEstimate, conversation
      ensures var cut := TruncateMessages(old(conversation.messages), maxToolOutputChars);
              var keep := Min(preserveRecent, |cut|);
              && conversation.messages
                 == CompactedMessages(cut, maxMessages, preserveRecent, id, summarize(cut[..|cut| - keep]))
              && r == (if |cut| <= maxMessages then Noop
                       else Compacted(|cut| - |conversation.messages|, |conversation.messages|))
      ensures tokenEstimate == EstimateTokens(conversation.messages)
    {
      hide TruncateMessages, LongOutputs, EstimateTokens;
      var _ := TruncateToolOutputs(conversation);
      var originalLen := |conversation.messages|;
      if |conversation.messages| <= maxMessages {
        tokenEstimate := EstimateOf(conversation.messages);
        return Noop;
      }
      var keep := Min(preserveRecent, |conversation.messages|);
      var removed: seq<Message> := [];
      if keep > 0 && |conversation.messages| > keep {
        removed := conversation.messages[..|conversation.messages| - keep];
        conversation.messages := conversation.messages[|conversation.messages| - keep..];
      }
      if removed != [] {
        var summary := summarize(removed);
        if summary != "" {
          conversation.messages := [SummaryMessage(id, summary)] + conversation.messages;
        }
      }
      tokenEstimate := EstimateOf(conversation.messages);
      return Compacted(originalLen - |conversation.messages|, |conversation.messages|);
    }

    /** The same, set off by the token estimate instead of the number of messages. */
    method MaybeCompactByTokenThreshold(conversation: Conversation, maxTokens: nat, id: string,
                                        summarize: seq<Message> -> string) returns (r: CompactionResult)
      modifies this`tokenEstimate, conversation
      ensures var cut := TruncateMessages(old(conversation.messages), maxToolOutputChars);
              var keep := Min(preserveRecent, |cut|);
              var stays := maxTokens == 0 || EstimateTokens(cut) < maxTokens || keep == 0 || |cut| <= keep;
              && conversation.messages
                 == (if stays then cut else Summarized(cut, keep, id, summarize(cut[..|cut| - keep])))
              && r == (if stays then Noop else Compacted(|cut| - |conversation.messages|, |conversation.messages|))
      ensures tokenEstimate == EstimateTokens(conversation.messages)
    {
      hide TruncateMessages, LongOutputs, EstimateTokens;
      var _ := TruncateToolOutputs(conversation);
      tokenEstimate := EstimateOf(conversation.messages);
      if maxTokens == 0 || tokenEstimate < maxTokens {
        return Noop;
      }
      var originalLen := |conversation.messages|;
      var keep := Min(preserveRecent, |conversation.messages|);
      if keep == 0 || |conversation.messages| <= keep {
        return Noop;
      }
      var removed := conversation.messages[..|conversation.messages| - keep];
      conversation.messages := conversation.messages[|conversation.messages| - keep..];
      var summary := summarize(removed);
      if summary != "" {
        conversation.messages := [SummaryMessage(id, summary)] + conversation.messages;
      }
      tokenEstimate := EstimateOf(conversation.messages);
      return Compacted(originalLen - |conversation.messages|, |conversation.messages|);
    }
  }

  method TruncateContent(content: seq<ContentBlock>, limit: nat) returns (cut: seq<ContentBlock>, truncated: nat)
    ensures cut == TruncateBlocks(content, limit) && truncated == LongBlocks(content, limit)
  {
    hide Marker;
    cut, truncated := content, 0;
    for i := 0 to |content|
      invariant |cut| == |content|
      invariant forall k :: 0 <= k < i ==> cut[k] == TruncateBlock(content[k], limit)
      invariant forall k :: i <= k < |content| ==> cut[k] == content[k]
      invariant truncated == LongBlocks(content[..i], limit)
    {
      assert content[..i + 1][..i] == content[..i];
      if cut[i].ToolResponse? && |cut[i].content| > limit {
        var text := cut[i].content;
        cut := cut[i := cut[i].(content := text[..limit] + Marker(|text| - limit))];
        truncated := truncated + 1;
      }
    }
    assert content[..|content|] == content;
    assert cut == TruncateBlocks(content, limit);
  }

  lemma NothingLong(limit: nat)
    ensures LongOutputs([], limit) == 0
  {
  }

  lemma OneMoreMessage(messages: seq<Message>, i: nat, limit: nat)
    requires i < |messages|
    ensures LongOutputs(messages[..i + 1], limit) == LongOutputs(messages[..i], limit) + LongBlocks(messages[i].content, limit)
  {
    assert messages[..i + 1][..i] == messages[..i];
  }

  // ---------------------------------------------------------------- what compaction guarantees

  /** A conversation is brought under its limit, whatever its length, exactly when there is a
      recent part to keep: with nothing to preserve nothing is removed either. */
  lemma {:induction false} CompactionFitsExactlyWhen(cut: seq<Message>, maxMessages: nat, preserveRecent: nat, id: string, summary: string)
    requires preserveRecent < maxMessages < |cut| && summary != ""
    ensures |CompactedMessages(cut, maxMessages, preserveRecent, id, summary)| <= maxMessages <==> preserveRecent >= 1
    ensures preserveRecent == 0 ==> CompactedMessages(cut, maxMessages, preserveRecent, id, summary) == cut
    ensures preserveRecent >= 1 ==>
              var kept := CompactedMessages(cut, maxMessages, preserveRecent, id, summary);
              && |kept| == preserveRecent + 1
              && kept[0].role.System?
              && kept[1..] == cut[|cut| - preserveRecent..]
  {
  }

  /** Compacting what has just been compacted removes nothing more. */
  lemma {:induction false} CompactionIsStable(cut: seq<Message>, maxMessages: nat, preserveRecent: nat, id: string, summary: string,
                           laterId: string, laterSummary: string, limit: nat)
    requires 1 <= preserveRecent < maxMessages && summary != ""
    ensures var kept := TruncateMessages(CompactedMessages(cut, maxMessages, preserveRecent, id, summary), limit);
            CompactedMessages(kept, maxMessages, preserveRecent, laterId, laterSummary) == kept
  {
    hide TruncateMessages;
    if |cut| > maxMessages {
      CompactionFitsExactlyWhen(cut, maxMessages, preserveRecent, id, summary);
    }
  }
}
