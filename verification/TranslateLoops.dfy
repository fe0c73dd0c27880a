/**
 The loops of app/services/translate.py that append to `out`, `blocks` and
 `parts`, proved to compute the functions of Translate.
 */
module TranslateLoops {
  import opened Wrappers
  import opened DataUrl
  import opened Translate

  // ---------------------------------------------------------------- one element more

  lemma {:induction false} PartsOfAppend(a: seq<Part>, p: Part)
    ensures PartsOf(a + [p]) == PartsOf(a) + PartsOf([p])
  {
    if a == [] {
      assert a + [p] == [p];
    } else {
      assert (a + [p])[1..] == a[1..] + [p];
      PartsOfAppend(a[1..], p);
    }
  }

  lemma {:induction false} PartTextsAppend(a: seq<Part>, p: Part)
    ensures PartTexts(a + [p]) == PartTexts(a) + PartTexts([p])
  {
    if a == [] {
      assert a + [p] == [p];
    } else {
      assert (a + [p])[1..] == a[1..] + [p];
      PartTextsAppend(a[1..], p);
    }
  }

  lemma {:induction false} PartBlocksAppend<J>(a: seq<Part>, p: Part)
    ensures PartBlocks<J>(a + [p]) == PartBlocks<J>(a) + PartBlocks<J>([p])
  {
    if a == [] {
      assert a + [p] == [p];
    } else {
      assert (a + [p])[1..] == a[1..] + [p];
      PartBlocksAppend<J>(a[1..], p);
    }
  }

  lemma {:induction false} CallBlocksAppend<J>(codec: Codec<J>, a: seq<ToolCall>, c: ToolCall)
    requires CallParses(codec, c) && forall x :: x in a ==> CallParses(codec, x)
    ensures CallBlocks(codec, a + [c]) == CallBlocks(codec, a) + [CallBlock(codec, c)]
  {
    if a != [] {
      assert (a + [c])[1..] == a[1..] + [c];
      CallBlocksAppend(codec, a[1..], c);
    }
  }

  lemma {:induction false} NonSystemAppend(a: seq<Message>, m: Message)
    ensures NonSystem(a + [m]) == NonSystem(a) + if m.role == "system" then [] else [m]
  {
    if a != [] {
      assert (a + [m])[1..] == a[1..] + [m];
      NonSystemAppend(a[1..], m);
    }
  }

  lemma {:induction false} ToAMessagesAppend<J>(codec: Codec<J>, a: seq<Message>, m: Message)
    requires AllParse(codec, a) && MessageParses(codec, m)
    ensures AllParse(codec, a + [m])
    ensures ToAMessages(codec, a + [m]) == ToAMessages(codec, a) + [ToAMessage(codec, m)]
  {
    assert AllParse(codec, a + [m]);
    if a != [] {
      assert (a + [m])[1..] == a[1..] + [m];
      ToAMessagesAppend(codec, a[1..], m);
    }
  }

  lemma {:induction false} BlockResultsAppend<J>(a: seq<Block<J>>, b: Block<J>)
    ensures BlockResults(a + [b]) == BlockResults(a) + BlockResults([b])
  {
    if a == [] {
      assert a + [b] == [b];
    } else {
      assert (a + [b])[1..] == a[1..] + [b];
      BlockResultsAppend(a[1..], b);
    }
  }

  lemma {:induction false} BlockPartsAppend<J>(a: seq<Block<J>>, b: Block<J>)
    ensures BlockParts(a + [b]) == BlockParts(a) + BlockParts([b])
  {
    if a == [] {
      assert a + [b] == [b];
    } else {
      assert (a + [b])[1..] == a[1..] + [b];
      BlockPartsAppend(a[1..], b);
    }
  }

  lemma {:induction false} FromAMessagesAppend<J>(codec: Codec<J>, a: seq<AMessage<J>>, m: AMessage<J>)
    ensures FromAMessages(codec, a + [m]) == FromAMessages(codec, a) + FromAMessage(codec, m)
  {
    if a != [] {
      assert (a + [m])[1..] == a[1..] + [m];
      FromAMessagesAppend(codec, a[1..], m);
    }
  }

  // ---------------------------------------------------------------- OpenAI to Anthropic

  method TextOfContent(content: Content) returns (text: string)
    ensures text == TextOf(content)
  {
    match content
    case Null => text := "";
    case Text(s) => text := s;
    case Parts(list) =>
      var parts := [];
      for i := 0 to |list|
        invariant parts == PartTexts(list[..i])
      {
        assert list[..i + 1] == list[..i] + [list[i]];
        PartTextsAppend(list[..i], list[i]);
        if PartText(list[i]) != "" {
          parts := parts + [PartText(list[i])];
        }
      }
      assert list[..|list|] == list;
      text := JoinLines(parts);
  }

  method OpenAIContentBlocks(content: Content) returns (out: seq<Part>)
    ensures out == ContentParts(content)
  {
    out := [];
    match content
    case Null =>
    case Text(s) => if s != "" { out := [TextPart(s)]; }
    case Parts(list) =>
      for i := 0 to |list|
        invariant out == PartsOf(list[..i])
      {
        assert list[..i + 1] == list[..i] + [list[i]];
        PartsOfAppend(list[..i], list[i]);
        match list[i]
        case TextPart(s) => if s != "" { out := out + [TextPart(s)]; }
        case ImagePart(url, detail) => if url != "" { out := out + [ImagePart(url, detail)]; }
        case OtherPart(_) =>
      }
      assert list[..|list|] == list;
  }

  method AnthropicContent<J>(parts: seq<Part>) returns (out: seq<Block<J>>)
    ensures out == PartBlocks(parts)
  {
    out := [];
    for i := 0 to |parts|
      invariant out == PartBlocks(parts[..i])
    {
      assert parts[..i + 1] == parts[..i] + [parts[i]];
      PartBlocksAppend<J>(parts[..i], parts[i]);
      match parts[i]
      case TextPart(s) => out := out + [TextBlock(s)];
      case ImagePart(url, _) => out := out + [ImageBlock(ToSource(url))];
      case OtherPart(_) =>
    }
    assert parts[..|parts|] == parts;
  }

  // The blocks of an assistant turn with tool calls; None as soon as some
  // arguments do not parse.
  method CallTurnBlocks<J>(codec: Codec<J>, text: string, calls: seq<ToolCall>) returns (out: Option<seq<Block<J>>>)
    ensures out.Some? <==> forall c :: c in calls ==> CallParses(codec, c)
    ensures out.Some? ==> out.value == TextBlocks(text) + CallBlocks(codec, calls)
  {
    var blocks := TextBlocks(text);
    for i := 0 to |calls|
      invariant forall c :: c in calls[..i] ==> CallParses(codec, c)
      invariant blocks == TextBlocks(text) + CallBlocks(codec, calls[..i])
    {
      var call := calls[i];
      assert call in calls && calls[..i + 1] == calls[..i] + [call];
      var input := codec.loads(ArgumentsText(call));
      if input.None? {
        assert !CallParses(codec, call);
        return None;
      }
      CallBlocksAppend(codec, calls[..i], call);
      blocks := blocks + [ToolUse(Some(Or(call.id, "")), Some(Or(call.name, "")), input)];
    }
    assert calls[..|calls|] == calls;
    return Some(blocks);
  }

  method OneToAnthropic<J>(codec: Codec<J>, msg: Message) returns (out: Option<AMessage<J>>)
    ensures out.Some? <==> MessageParses(codec, msg)
    ensures out.Some? ==> out.value == ToAMessage(codec, msg)
  {
    if msg.role == "tool" {
      var text := TextOfContent(msg.content);
      return Some(AMessage("user", ABlocks([ToolResult(Some(Or(msg.toolCallId, "")), Text(text))])));
    }
    if msg.role == "assistant" && msg.toolCalls.Some? && msg.toolCalls.value != [] {
      var text := TextOfContent(msg.content);
      var blocks := CallTurnBlocks(codec, text, msg.toolCalls.value);
      return if blocks.None? then None else Some(AMessage("assistant", ABlocks(blocks.value)));
    }
    var parts := OpenAIContentBlocks(msg.content);
    var role := if msg.role in {"user", "assistant"} then msg.role else "user";
    if exists p :: p in parts && p.ImagePart? {
      var blocks := AnthropicContent<J>(parts);
      return Some(AMessage(role, ABlocks(blocks)));
    }
    var text := TextOfContent(msg.content);
    return Some(AMessage(role, AText(text)));
  }

  method OpenAIToAnthropicMessages<J>(codec: Codec<J>, messages: seq<Message>) returns (out: Option<seq<AMessage<J>>>)
    ensures out.Some? <==> AllParse(codec, NonSystem(messages))
    ensures out.Some? ==> out.value == ToAMessages(codec, NonSystem(messages))
  {
    hide ToAMessage, MessageParses;
    var list := [];
    for i := 0 to |messages|
      invariant AllParse(codec, NonSystem(messages[..i]))
      invariant list == ToAMessages(codec, NonSystem(messages[..i]))
    {
      var msg := messages[i];
      assert messages[..i + 1] == messages[..i] + [msg];
      NonSystemAppend(messages[..i], msg);
      if msg.role == "system" {
        assert NonSystem(messages[..i]) + [] == NonSystem(messages[..i]);
        continue;
      }
      var one := OneToAnthropic(codec, msg);
      if one.None? {
        SomeDoesNotParse(codec, messages, i);
        return None;
      }
      ToAMessagesAppend(codec, NonSystem(messages[..i]), msg);
      list := list + [one.value];
    }
    assert messages[..|messages|] == messages;
    return Some(list);
  }

  lemma {:induction false} SomeDoesNotParse<J>(codec: Codec<J>, messages: seq<Message>, i: nat)
    requires i < |messages| && messages[i].role != "system" && !MessageParses(codec, messages[i])
    ensures !AllParse(codec, NonSystem(messages))
  {
    InNonSystem(messages, messages[i]);
  }

  lemma {:induction false} InNonSystem(messages: seq<Message>, m: Message)
    requires m in messages && m.role != "system"
    ensures m in NonSystem(messages)
  {
    if messages[0] != m { InNonSystem(messages[1..], m); }
  }

  // ---------------------------------------------------------------- Anthropic to OpenAI

  method ToolMessages<J>(blocks: seq<Block<J>>) returns (out: seq<Message>)
    ensures out == BlockResults(blocks)
  {
    out := [];
    for i := 0 to |blocks|
      invariant out == BlockResults(blocks[..i])
    {
      assert blocks[..i + 1] == blocks[..i] + [blocks[i]];
      BlockResultsAppend(blocks[..i], blocks[i]);
      if blocks[i].ToolResult? {
        var text := TextOfContent(blocks[i].content);
        out := out + [Message("tool", Text(text), None, Some(Or(blocks[i].toolUseId, "")))];
      }
    }
    assert blocks[..|blocks|] == blocks;
  }

  method ImageTurnParts<J>(blocks: seq<Block<J>>) returns (out: seq<Part>)
    ensures out == BlockParts(blocks)
  {
    out := [];
    for i := 0 to |blocks|
      invariant out == BlockParts(blocks[..i])
    {
      assert blocks[..i + 1] == blocks[..i] + [blocks[i]];
      BlockPartsAppend(blocks[..i], blocks[i]);
      match blocks[i]
      case TextBlock(text) => if text != "" { out := out + [TextPart(text)]; }
      case ImageBlock(source) => out := out + SourceParts(source);
      case _ =>
    }
    assert blocks[..|blocks|] == blocks;
  }

  method AnthropicToOpenAIMessages<J>(codec: Codec<J>, messages: seq<AMessage<J>>) returns (out: seq<Message>)
    ensures out == FromAMessages(codec, messages)
  {
    out := [];
    for i := 0 to |messages|
      invariant out == FromAMessages(codec, messages[..i])
    {
      var msg := messages[i];
      assert messages[..i + 1] == messages[..i] + [msg];
      FromAMessagesAppend(codec, messages[..i], msg);
      if msg.content.ABlocks? {
        var blocks := msg.content.blocks;
        if msg.role == "assistant" && HasUse(blocks) {
          var text := JoinLines(BlockTexts(blocks, true));
          var content := if text == "" then Null else Text(text);
          out := out + [Message("assistant", content, Some(BlockCalls(codec, blocks)), None)];
          continue;
        }
        if msg.role == "user" && HasResult(blocks) {
          var some := ToolMessages(blocks);
          out := out + some;
          continue;
        }
        if msg.role in {"user", "assistant"} && HasImageBlock(blocks) {
          var parts := ImageTurnParts(blocks);
          out := out + [Message(msg.role, Parts(parts), None, None)];
          continue;
        }
      }
      var text := match msg.content case AText(s) => s case ABlocks(blocks) => JoinLines(BlockTexts(blocks, false));
      var role := if msg.role in {"user", "assistant"} then msg.role else "user";
      out := out + [Message(role, Text(text), None, None)];
    }
    assert messages[..|messages|] == messages;
  }
}
