/**
 The Gemini content loops in the form of the source, proved to compute the
 functions of Gemini.
 */
module GeminiLoops {
  import opened Wrappers
  import opened DataUrl
  import opened Translate
  import opened Gemini
  import TranslateLoops

  lemma {:induction false} GPartsAppend<J>(a: seq<Part>, p: Part)
    ensures GParts<J>(a + [p]) == GParts<J>(a) + GParts<J>([p])
  {
    if a == [] {
      assert a + [p] == [p];
    } else {
      assert (a + [p])[1..] == a[1..] + [p];
      GPartsAppend<J>(a[1..], p);
    }
  }

  lemma {:induction false} GCallsAppend<J>(codec: Codec<J>, a: seq<ToolCall>, c: ToolCall)
    requires CallParses(codec, c) && forall x :: x in a ==> CallParses(codec, x)
    ensures GCalls(codec, a + [c]) ==
            GCalls(codec, a) + [GCall(Or(c.name, ""), codec.loads(ArgumentsText(c)).value)]
  {
    if a != [] {
      assert (a + [c])[1..] == a[1..] + [c];
      GCallsAppend(codec, a[1..], c);
    }
  }

  lemma {:induction false} ToGContentsAppend<J>(codec: Codec<J>, wrap: string -> J, a: seq<Message>, m: Message)
    requires AllParse(codec, a) && MessageParses(codec, m)
    ensures AllParse(codec, a + [m])
    ensures ToGContents(codec, wrap, a + [m]) == ToGContents(codec, wrap, a) + [ToGContent(codec, wrap, m)]
  {
    assert AllParse(codec, a + [m]);
    if a != [] {
      assert (a + [m])[1..] == a[1..] + [m];
      ToGContentsAppend(codec, wrap, a[1..], m);
    }
  }

  lemma {:induction false} PartLoopsAppend<J>(codec: Codec<J>, a: seq<GPart<J>>, p: GPart<J>)
    ensures ToolMessages(codec, a + [p]) == ToolMessages(codec, a) + ToolMessages(codec, [p])
    ensures Texts(a + [p]) == Texts(a) + Texts([p])
    ensures Images(a + [p]) == Images(a) + Images([p])
  {
    if a == [] {
      assert a + [p] == [p];
    } else {
      assert (a + [p])[1..] == a[1..] + [p];
      PartLoopsAppend(codec, a[1..], p);
    }
  }

  // What one part more adds to each of the three.
  lemma {:induction false} PartStep<J>(codec: Codec<J>, a: seq<GPart<J>>, p: GPart<J>)
    ensures ToolMessages(codec, a + [p]) == ToolMessages(codec, a) +
              match p
              case GCall(name, args) =>
                [Message("assistant", Null, Some([ToolCall(Some(name), Some(name), Some(codec.dumps(args)))]), None)]
              case GResponse(name, response) => [Message("tool", Text(codec.dumps(response)), None, Some(name))]
              case _ => []
    ensures Texts(a + [p]) == Texts(a) + match p case GText(text) => [text] case _ => []
    ensures Images(a + [p]) == Images(a) +
              match p
              case GInline(mime, data) => [ImagePart(DataUrl.Join(mime, data), None)]
              case GFile(uri) => [ImagePart(uri, None)]
              case _ => []
  {
    PartLoopsAppend(codec, a, p);
    assert [p][1..] == [] && ToolMessages(codec, [p][1..]) == [] && Texts([p][1..]) == [] && Images([p][1..]) == [];
  }

  lemma {:induction false} FromGContentsAppend<J>(codec: Codec<J>, a: seq<GContent<J>>, c: GContent<J>)
    ensures FromGContents(codec, a + [c]) ==
            FromGContents(codec, a) + (ToolMessages(codec, c.parts) + PlainMessage(c))
  {
    if a == [] {
      assert a + [c] == [c] && [c][1..] == [];
    } else {
      assert (a + [c])[1..] == a[1..] + [c];
      FromGContentsAppend(codec, a[1..], c);
    }
  }

  // ---------------------------------------------------------------- OpenAI to Gemini

  predicate CallsParse<J>(codec: Codec<J>, calls: seq<ToolCall>) {
    forall c :: c in calls ==> CallParses(codec, c)
  }

  lemma {:induction false} CallsParseAt<J>(codec: Codec<J>, calls: seq<ToolCall>, i: nat)
    requires i < |calls| && CallsParse(codec, calls[..i])
    ensures CallsParse(codec, calls[..i + 1]) <==> CallParses(codec, calls[i])
    ensures CallsParse(codec, calls) ==> CallParses(codec, calls[i])
    ensures CallParses(codec, calls[i]) ==>
              GCalls(codec, calls[..i + 1]) ==
              GCalls(codec, calls[..i]) + [GCall(Or(calls[i].name, ""), codec.loads(ArgumentsText(calls[i])).value)]
  {
    assert calls[..i + 1] == calls[..i] + [calls[i]] && calls[i] in calls;
    hide GCalls, ArgumentsText;
    if CallParses(codec, calls[i]) {
      GCallsAppend(codec, calls[..i], calls[i]);
    }
  }

  method CallTurnParts<J>(codec: Codec<J>, text: string, calls: seq<ToolCall>) returns (out: Option<seq<GPart<J>>>)
    ensures out.Some? <==> CallsParse(codec, calls)
    ensures out.Some? ==> out.value == (if text == "" then [] else [GText(text)]) + GCalls(codec, calls)
  {
    var parts := if text == "" then [] else [GText(text)];
    ghost var head := parts;
    assert GCalls(codec, calls[..0]) == [];
    hide GCalls, ArgumentsText;
    for i := 0 to |calls|
      invariant CallsParse(codec, calls[..i])
      invariant parts == head + GCalls(codec, calls[..i])
    {
      CallsParseAt(codec, calls, i);
      var args := codec.loads(ArgumentsText(calls[i]));
      if args.None? {
        return None;
      }
      parts := parts + [GCall(Or(calls[i].name, ""), args.value)];
    }
    assert calls[..|calls|] == calls;
    return Some(parts);
  }

  method OneToGemini<J>(codec: Codec<J>, wrap: string -> J, msg: Message) returns (out: Option<GContent<J>>)
    ensures out.Some? <==> MessageParses(codec, msg)
    ensures out.Some? ==> out.value == ToGContent(codec, wrap, msg)
  {
    if msg.role == "tool" {
      var tid := Or(msg.toolCallId, "");
      var text := TranslateLoops.TextOfContent(msg.content);
      return Some(GContent("user", [GResponse(if tid == "" then "function_result" else tid, wrap(text))]));
    }
    if msg.role == "assistant" && msg.toolCalls.Some? && msg.toolCalls.value != [] {
      var text := TranslateLoops.TextOfContent(msg.content);
      var parts := CallTurnParts(codec, text, msg.toolCalls.value);
      return if parts.None? then None else Some(GContent("model", parts.value));
    }
    var blocks := TranslateLoops.OpenAIContentBlocks(msg.content);
    var parts: seq<GPart<J>> := [];
    for i := 0 to |blocks|
      invariant parts == GParts(blocks[..i])
    {
      assert blocks[..i + 1] == blocks[..i] + [blocks[i]];
      GPartsAppend<J>(blocks[..i], blocks[i]);
      match blocks[i]
      case TextPart(s) => parts := parts + [GText(s)];
      case ImagePart(url, _) => parts := parts + [GImage(url)];
      case OtherPart(_) =>
    }
    assert blocks[..|blocks|] == blocks;
    return Some(GContent(if msg.role == "user" then "user" else "model", parts));
  }

  method OpenAIToGeminiContents<J>(codec: Codec<J>, wrap: string -> J, messages: seq<Message>)
    returns (out: Option<seq<GContent<J>>>)
    ensures out.Some? <==> AllParse(codec, NonSystem(messages))
    ensures out.Some? ==> out.value == ToGContents(codec, wrap, NonSystem(messages))
  {
    hide ToGContent, MessageParses;
    var list := [];
    for i := 0 to |messages|
      invariant AllParse(codec, NonSystem(messages[..i]))
      invariant list == ToGContents(codec, wrap, NonSystem(messages[..i]))
    {
      var msg := messages[i];
      assert messages[..i + 1] == messages[..i] + [msg];
      TranslateLoops.NonSystemAppend(messages[..i], msg);
      if msg.role == "system" {
        assert NonSystem(messages[..i]) + [] == NonSystem(messages[..i]);
        continue;
      }
      var one := OneToGemini(codec, wrap, msg);
      if one.None? {
        TranslateLoops.SomeDoesNotParse(codec, messages, i);
        return None;
      }
      ToGContentsAppend(codec, wrap, NonSystem(messages[..i]), msg);
      list := list + [one.value];
    }
    assert messages[..|messages|] == messages;
    return Some(list);
  }

  // ---------------------------------------------------------------- Gemini to OpenAI

  lemma {:induction false} NoPartsNoOutput<J>(codec: Codec<J>)
    ensures ToolMessages(codec, []) == [] && Texts<J>([]) == [] && Images<J>([]) == []
  {
  }

  // The message for the gathered text and images of one content.
  method GatheredMessage<J>(c: GContent<J>, texts: seq<string>, images: seq<Part>) returns (out: seq<Message>)
    requires texts == Texts(c.parts) && images == Images(c.parts)
    ensures out == PlainMessage(c)
  {
    out := [];
    if texts != [] || images != [] {
      var role := if c.role == "user" then "user" else "assistant";
      var content := if texts != [] then JoinLines(texts) else "";
      if images != [] {
        var list := if texts != [] then [TextPart(content)] else [];
        out := [Message(role, Parts(list + images), None, None)];
      } else {
        out := [Message(role, Text(content), None, None)];
      }
    }
  }

  // The parts of one content: tool messages go out at once, text and images
  // are gathered for one message at the end.
  method OneToOpenAI<J>(codec: Codec<J>, c: GContent<J>) returns (out: seq<Message>)
    ensures out == ToolMessages(codec, c.parts) + PlainMessage(c)
  {
    hide PlainMessage, ToolMessages, Texts, Images;
    out := [];
    var texts, images := [], [];
    NoPartsNoOutput(codec);
    for i := 0 to |c.parts|
      invariant out == ToolMessages(codec, c.parts[..i])
      invariant texts == Texts(c.parts[..i]) && images == Images(c.parts[..i])
    {
      var part := c.parts[i];
      assert c.parts[..i + 1] == c.parts[..i] + [part];
      PartStep(codec, c.parts[..i], part);
      match part
      case GText(text) => texts := texts + [text];
      case GInline(mime, data) => images := images + [ImagePart(DataUrl.Join(mime, data), None)];
      case GFile(uri) => images := images + [ImagePart(uri, None)];
      case GCall(name, args) =>
        var call := ToolCall(Some(name), Some(name), Some(codec.dumps(args)));
        out := out + [Message("assistant", Null, Some([call]), None)];
      case GResponse(name, response) =>
        out := out + [Message("tool", Text(codec.dumps(response)), None, Some(name))];
    }
    assert c.parts[..|c.parts|] == c.parts;
    var gathered := GatheredMessage(c, texts, images);
    out := out + gathered;
  }

  method GeminiToOpenAIMessages<J>(codec: Codec<J>, contents: seq<GContent<J>>) returns (out: seq<Message>)
    ensures out == FromGContents(codec, contents)
  {
    hide ToolMessages, PlainMessage;
    out := [];
    for i := 0 to |contents|
      invariant out == FromGContents(codec, contents[..i])
    {
      assert contents[..i + 1] == contents[..i] + [contents[i]];
      FromGContentsAppend(codec, contents[..i], contents[i]);
      var some := OneToOpenAI(codec, contents[i]);
      out := out + some;
    }
    assert contents[..|contents|] == contents;
  }
}
