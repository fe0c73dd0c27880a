/**
 What the translators of app/services/translate.py put on the wire, one
 direction at a time and for every message and body of either side, in terms of
 the texts, URLs and calls themselves.  The lists are read from their ends,
 where the functions of Translate read them from their fronts.
 */
module WireForms {
  import opened Wrappers
  import opened Text
  import opened DataUrl
  import opened Translate
  import TranslateLoops

  // ---------------------------------------------------------------- texts

  // The texts of the items that have one, each on a line of its own.
  ghost function Gathered<T>(items: seq<T>, text: T -> string): string {
    if items == [] then ""
    else
      var n := |items| - 1;
      var before, last := Gathered(items[..n], text), text(items[n]);
      if last == "" then before else if before == "" then last else before + "\n" + last
  }

  // All texts, each on a line of its own, the empty ones too.
  ghost function Lined(texts: seq<string>): string {
    if texts == [] then ""
    else if |texts| == 1 then texts[0]
    else Lined(texts[..|texts| - 1]) + "\n" + texts[|texts| - 1]
  }

  lemma {:induction false} JoinAppend(texts: seq<string>, t: string)
    ensures JoinLines(texts + [t]) == if texts == [] then t else JoinLines(texts) + "\n" + t
  {
    if texts == [] {
      assert texts + [t] == [t];
    } else {
      assert (texts + [t])[1..] == texts[1..] + [t];
      JoinAppend(texts[1..], t);
    }
  }

  lemma {:induction false} JoinIsLined(texts: seq<string>)
    ensures JoinLines(texts) == Lined(texts)
  {
    if texts != [] {
      var n := |texts| - 1;
      assert texts == texts[..n] + [texts[n]];
      JoinIsLined(texts[..n]);
      JoinAppend(texts[..n], texts[n]);
    }
  }

  // One item more, gathered and joined.
  lemma {:induction false} GatherOne<T>(
    items: seq<T>, text: T -> string, texts: seq<string>, texts': seq<string>, n: nat)
    requires items != [] && n == |items| - 1
    requires JoinLines(texts) == Gathered(items[..n], text) && (texts == [] <==> JoinLines(texts) == "")
    requires texts' == texts + if text(items[n]) == "" then [] else [text(items[n])]
    ensures JoinLines(texts') == Gathered(items, text) && (texts' == [] <==> JoinLines(texts') == "")
  {
    JoinAppend(texts, text(items[n]));
    assert texts + [] == texts;
  }

  ghost function TextOfPart(p: Part): string {
    match p case TextPart(text) => text case OtherPart(text) => text case ImagePart(_, _) => ""
  }

  lemma {:induction false} PartTextsGathered(parts: seq<Part>)
    ensures JoinLines(PartTexts(parts)) == Gathered(parts, TextOfPart)
    ensures PartTexts(parts) == [] <==> JoinLines(PartTexts(parts)) == ""
  {
    if parts != [] {
      var n := |parts| - 1;
      assert parts == parts[..n] + [parts[n]];
      PartTextsGathered(parts[..n]);
      TranslateLoops.PartTextsAppend(parts[..n], parts[n]);
      assert [parts[n]][1..] == [] && PartTexts([parts[n]][1..]) == [];
      GatherOne(parts, TextOfPart, PartTexts(parts[..n]), PartTexts(parts), n);
    }
  }

  // The text of a content: a string itself, and of a list the texts that are
  // not empty, in order, one per line.
  lemma {:induction false} TextOfIsGathered(content: Content)
    ensures TextOf(content) ==
            match content case Null => "" case Text(text) => text case Parts(parts) => Gathered(parts, TextOfPart)
  {
    if content.Parts? { PartTextsGathered(content.parts); }
  }

  ghost function TextOfTextBlock<J>(b: Block<J>): string {
    match b case TextBlock(text) => text case _ => ""
  }

  ghost function TextOfAnyBlock<J>(b: Block<J>): string {
    match b case TextBlock(text) => text case OtherBlock(text) => text case _ => ""
  }

  lemma {:induction false} BlockTextsAppend<J>(a: seq<Block<J>>, b: Block<J>, onlyText: bool)
    ensures BlockTexts(a + [b], onlyText) == BlockTexts(a, onlyText) + BlockTexts([b], onlyText)
  {
    if a == [] {
      assert a + [b] == [b];
    } else {
      assert (a + [b])[1..] == a[1..] + [b];
      BlockTextsAppend(a[1..], b, onlyText);
    }
  }

  lemma {:induction false} BlockTextsGathered<J>(blocks: seq<Block<J>>, onlyText: bool)
    ensures JoinLines(BlockTexts(blocks, onlyText)) ==
            if onlyText then Gathered(blocks, TextOfTextBlock) else Gathered(blocks, TextOfAnyBlock)
    ensures BlockTexts(blocks, onlyText) == [] <==> JoinLines(BlockTexts(blocks, onlyText)) == ""
  {
    if blocks != [] {
      var n := |blocks| - 1;
      var texts, texts' := BlockTexts(blocks[..n], onlyText), BlockTexts(blocks, onlyText);
      assert blocks == blocks[..n] + [blocks[n]];
      BlockTextsGathered(blocks[..n], onlyText);
      BlockTextsAppend(blocks[..n], blocks[n], onlyText);
      assert [blocks[n]][1..] == [] && BlockTexts([blocks[n]][1..], onlyText) == [];
      if onlyText {
        GatherOne(blocks, TextOfTextBlock, texts, texts', n);
      } else {
        GatherOne(blocks, TextOfAnyBlock, texts, texts', n);
      }
    }
  }

  // ---------------------------------------------------------------- parts and sources

  // The parts that go across one by one: the texts and images that are not
  // empty, in order.
  ghost function Kept(content: Content): seq<Part> {
    match content
    case Null => []
    case Text(text) => if text == "" then [] else [TextPart(text)]
    case Parts(parts) => KeptParts(parts)
  }

  ghost function KeptParts(parts: seq<Part>): seq<Part> {
    if parts == [] then []
    else
      var n := |parts| - 1;
      KeptParts(parts[..n])
      + match parts[n]
        case TextPart(text) => if text != "" then [parts[n]] else []
        case ImagePart(url, _) => if url != "" then [parts[n]] else []
        case OtherPart(_) => []
  }

  lemma {:induction false} PartsOfAreKept(parts: seq<Part>)
    ensures PartsOf(parts) == KeptParts(parts)
  {
    if parts != [] {
      var n := |parts| - 1;
      assert parts == parts[..n] + [parts[n]];
      PartsOfAreKept(parts[..n]);
      TranslateLoops.PartsOfAppend(parts[..n], parts[n]);
      assert [parts[n]][1..] == [] && PartsOf([parts[n]][1..]) == [];
    }
  }

  lemma {:induction false} ContentPartsAreKept(content: Content)
    ensures ContentParts(content) == Kept(content)
    ensures forall p :: p in Kept(content) ==> !p.OtherPart?
  {
    if content.Parts? {
      PartsOfAreKept(content.parts);
      KeptAreParts(content.parts);
    }
  }

  lemma {:induction false} KeptAreParts(parts: seq<Part>)
    ensures forall p :: p in KeptParts(parts) ==> !p.OtherPart?
  {
    if parts != [] { KeptAreParts(parts[..|parts| - 1]); }
  }

  // A data URL cut into its media type, its parameters and the rest from its
  // comma on, if it has one.
  ghost predicate IsDataUrl(url: string, media: string, parameters: string, rest: string) {
    && url == "data:" + media + parameters + rest
    && ',' !in media && ',' !in parameters && ';' !in media
    && (parameters == "" || parameters[0] == ';') && (rest == "" || rest[0] == ',')
  }

  // What an image URL is sent as.
  ghost predicate SentAs(url: string, source: Source) {
    && (!("data:" <= url) ==> source == Url(url))
    && forall media, parameters, rest :: IsDataUrl(url, media, parameters, rest) ==>
         source == Base64(if RemoveMarks(media) == "" then "image/png" else RemoveMarks(media),
                          if rest == "" then "" else rest[1..])
  }

  lemma {:induction false} SourceOnWire(url: string)
    ensures SentAs(url, ToSource(url))
  {
    forall media, parameters, rest | IsDataUrl(url, media, parameters, rest)
      ensures ToSource(url) == Base64(if RemoveMarks(media) == "" then "image/png" else RemoveMarks(media),
                                      if rest == "" then "" else rest[1..])
    {
      DataUrlOnWire(url, media, parameters, rest);
    }
  }

  lemma {:induction false} DataUrlOnWire(url: string, media: string, parameters: string, rest: string)
    requires IsDataUrl(url, media, parameters, rest)
    ensures "data:" <= url
    ensures ToSource(url) == Base64(if RemoveMarks(media) == "" then "image/png" else RemoveMarks(media),
                                    if rest == "" then "" else rest[1..])
  {
    var front := "data:" + media;
    var header := front + parameters;
    if rest == "" {
      assert url == header;
      BeforeAll(header, ',');
      AfterNothing(header, ',');
    } else {
      assert url == header + [','] + rest[1..];
      Cut(header, ',', rest[1..]);
    }
    if parameters == "" {
      assert header == front;
      BeforeAll(front, ';');
    } else {
      assert header == front + [';'] + parameters[1..];
      Cut(front, ';', parameters[1..]);
    }
    assert front == MARK + media && url[..5] == "data:";
    RemoveMark(media);
  }

  // ---------------------------------------------------------------- OpenAI to Anthropic, one message

  // The blocks of an image turn answer the kept parts one by one.
  ghost predicate BlocksAnswer<J>(blocks: seq<Block<J>>, kept: seq<Part>) {
    && |blocks| == |kept|
    && forall k :: 0 <= k < |kept| ==>
         (kept[k].TextPart? ==> blocks[k] == TextBlock(kept[k].text))
         && (kept[k].ImagePart? ==> blocks[k].ImageBlock? && SentAs(kept[k].url, blocks[k].source))
  }

  lemma {:induction false} BlocksAnswerParts<J>(parts: seq<Part>)
    requires forall p :: p in parts ==> !p.OtherPart?
    ensures BlocksAnswer(PartBlocks<J>(parts), parts)
  {
    if parts != [] {
      assert parts[0] in parts;
      BlocksAnswerParts<J>(parts[1..]);
      if parts[0].ImagePart? { SourceOnWire(parts[0].url); }
      assert PartBlocks<J>(parts)[1..] == PartBlocks<J>(parts[1..]);
      hide SentAs, PartBlocks, ToSource;
    }
  }

  // The uses of a call turn answer its calls one by one.
  ghost predicate UsesAnswer<J>(codec: Codec<J>, uses: seq<Block<J>>, calls: seq<ToolCall>) {
    && |uses| == |calls|
    && forall k :: 0 <= k < |calls| ==>
         var text := match calls[k].arguments case None => "{}" case Some(s) => if s == "" then "{}" else s;
         && uses[k].ToolUse? && uses[k].input.Some? && codec.loads(text) == uses[k].input
         && uses[k].id == Some(match calls[k].id case None => "" case Some(id) => id)
         && uses[k].name == Some(match calls[k].name case None => "" case Some(name) => name)
  }

  lemma {:induction false} UsesAnswerCalls<J>(codec: Codec<J>, calls: seq<ToolCall>)
    requires forall c :: c in calls ==> CallParses(codec, c)
    ensures UsesAnswer(codec, CallBlocks(codec, calls), calls)
  {
    if calls != [] {
      assert calls[0] in calls;
      UsesAnswerCalls(codec, calls[1..]);
      assert CallBlocks(codec, calls)[1..] == CallBlocks(codec, calls[1..]);
    }
  }

  function RoleOr(role: string): string {
    if role in {"user", "assistant"} then role else "user"
  }

  // Whether a message carries an image across.
  ghost predicate CarriesImage(m: Message) {
    m.content.Parts? && exists p :: p in m.content.parts && p.ImagePart? && p.url != ""
  }

  lemma {:induction false} CarriesImageIff(m: Message)
    ensures HasImage(ContentParts(m.content)) <==> CarriesImage(m)
  {
    if m.content.Parts? { ImageKeptIff(m.content.parts); }
  }

  lemma {:induction false} ImageKeptIff(parts: seq<Part>)
    ensures HasImage(PartsOf(parts)) <==> exists p :: p in parts && p.ImagePart? && p.url != ""
  {
    if parts != [] {
      ImageKeptIff(parts[1..]);
      assert parts == [parts[0]] + parts[1..];
    }
  }

  // What an Anthropic turn carries: a result under its call's id; the text of a
  // call turn in front of its uses; for a message with images its texts and
  // images one by one; and otherwise its text.
  lemma {:induction false} TurnOnWire<J>(codec: Codec<J>, m: Message)
    requires m.role != "system" && MessageParses(codec, m)
    ensures var a, text := ToAMessage(codec, m), TextOf(m.content);
            if m.role == "tool" then
              var id := match m.toolCallId case None => "" case Some(id) => id;
              a == AMessage("user", ABlocks([ToolResult(Some(id), Text(text))]))
            else if m.role == "assistant" && m.toolCalls.Some? && m.toolCalls.value != [] then
              var front: seq<Block<J>> := if text == "" then [] else [TextBlock(text)];
              && a.role == "assistant" && a.content.ABlocks? && front <= a.content.blocks
              && UsesAnswer(codec, a.content.blocks[|front|..], m.toolCalls.value)
            else if CarriesImage(m) then
              a.role == RoleOr(m.role) && a.content.ABlocks? && BlocksAnswer(a.content.blocks, Kept(m.content))
            else a == AMessage(RoleOr(m.role), AText(text))
  {
    if m.role == "tool" {
    } else if IsCallTurn(m) {
      UsesAnswerCalls(codec, m.toolCalls.value);
      hide CallBlocks, UsesAnswer, CallParses, TextOf;
      var text := TextOf(m.content);
      var front: seq<Block<J>> := if text == "" then [] else [TextBlock(text)];
      assert (front + CallBlocks(codec, m.toolCalls.value))[|front|..] == CallBlocks(codec, m.toolCalls.value);
    } else {
      CarriesImageIff(m);
      ContentPartsAreKept(m.content);
      BlocksAnswerParts<J>(Kept(m.content));
      hide PartBlocks, BlocksAnswer, Kept, ContentParts, HasImage, TextOf, CarriesImage;
    }
  }

  // ---------------------------------------------------------------- Anthropic to OpenAI, one turn

  ghost function CallsBackOf<J>(codec: Codec<J>, blocks: seq<Block<J>>): seq<ToolCall> {
    if blocks == [] then []
    else
      var n := |blocks| - 1;
      CallsBackOf(codec, blocks[..n])
      + match blocks[n]
        case ToolUse(id, name, input) =>
          [ToolCall(Some(match id case None => "" case Some(s) => s),
                    Some(match name case None => "" case Some(s) => s),
                    Some(codec.dumps(match input case None => codec.emptyObject case Some(v) => v)))]
        case _ => []
  }

  ghost function ResultsBackOf<J>(blocks: seq<Block<J>>): seq<Message> {
    if blocks == [] then []
    else
      var n := |blocks| - 1;
      ResultsBackOf(blocks[..n])
      + match blocks[n]
        case ToolResult(id, content) =>
          [Message("tool", Text(TextOf(content)), None, Some(match id case None => "" case Some(s) => s))]
        case _ => []
  }

  ghost function PartsBackOf<J>(blocks: seq<Block<J>>): seq<Part> {
    if blocks == [] then []
    else
      var n := |blocks| - 1;
      PartsBackOf(blocks[..n])
      + match blocks[n]
        case TextBlock(text) => if text != "" then [TextPart(text)] else []
        case ImageBlock(Base64(media, data)) => [ImagePart("data:" + media + ";base64," + data, None)]
        case ImageBlock(Url(url)) => [ImagePart(url, None)]
        case _ => []
  }

  lemma {:induction false} BlockCallsAppend<J>(codec: Codec<J>, a: seq<Block<J>>, b: Block<J>)
    ensures BlockCalls(codec, a + [b]) == BlockCalls(codec, a) + BlockCalls(codec, [b])
  {
    if a == [] {
      assert a + [b] == [b];
    } else {
      assert (a + [b])[1..] == a[1..] + [b];
      BlockCallsAppend(codec, a[1..], b);
    }
  }

  lemma {:induction false} BlocksBack<J>(codec: Codec<J>, blocks: seq<Block<J>>)
    ensures BlockCalls(codec, blocks) == CallsBackOf(codec, blocks)
    ensures BlockResults(blocks) == ResultsBackOf(blocks)
    ensures BlockParts(blocks) == PartsBackOf(blocks)
  {
    if blocks != [] {
      var n := |blocks| - 1;
      assert blocks == blocks[..n] + [blocks[n]];
      BlocksBack(codec, blocks[..n]);
      BlockCallsAppend(codec, blocks[..n], blocks[n]);
      TranslateLoops.BlockResultsAppend(blocks[..n], blocks[n]);
      TranslateLoops.BlockPartsAppend(blocks[..n], blocks[n]);
      assert [blocks[n]][1..] == [];
      LastBack(codec, blocks[n]);
      hide BlockCalls, BlockResults, BlockParts;
    }
  }

  lemma {:induction false} LastBack<J>(codec: Codec<J>, b: Block<J>)
    ensures BlockCalls(codec, [b]) ==
            match b
            case ToolUse(id, name, input) =>
              [ToolCall(Some(match id case None => "" case Some(s) => s),
                        Some(match name case None => "" case Some(s) => s),
                        Some(codec.dumps(match input case None => codec.emptyObject case Some(v) => v)))]
            case _ => []
    ensures BlockResults([b]) ==
            match b
            case ToolResult(id, content) =>
              [Message("tool", Text(TextOf(content)), None, Some(match id case None => "" case Some(s) => s))]
            case _ => []
    ensures BlockParts([b]) ==
            match b
            case TextBlock(text) => if text != "" then [TextPart(text)] else []
            case ImageBlock(Base64(media, data)) => [ImagePart("data:" + media + ";base64," + data, None)]
            case ImageBlock(Url(url)) => [ImagePart(url, None)]
            case _ => []
  {
    assert [b][1..] == [] && BlockCalls(codec, [b][1..]) == [];
    assert BlockResults([b][1..]) == [] && BlockParts([b][1..]) == [];
    if b.ImageBlock? && b.source.Base64? {
      assert DataUrl.Join(b.source.media, b.source.data) == "data:" + b.source.media + ";base64," + b.source.data;
    }
  }

  // What any Anthropic turn comes back as: uses on an assistant turn as its
  // calls beside the text of its text blocks; results on a user turn one message
  // each; images with the texts around them in order; and everything else as the
  // text of all its blocks.
  lemma {:induction false} TurnFromWire<J>(codec: Codec<J>, m: AMessage<J>)
    ensures var out := FromAMessage(codec, m);
            match m.content
            case AText(text) => out == [Message(RoleOr(m.role), Text(text), None, None)]
            case ABlocks(blocks) =>
              if m.role == "assistant" && exists b :: b in blocks && b.ToolUse? then
                var text := Gathered(blocks, TextOfTextBlock);
                var content := if text == "" then Null else Text(text);
                out == [Message("assistant", content, Some(CallsBackOf(codec, blocks)), None)]
              else if m.role == "user" && exists b :: b in blocks && b.ToolResult? then
                out == ResultsBackOf(blocks)
              else if m.role in {"user", "assistant"} && exists b :: b in blocks && b.ImageBlock? then
                out == [Message(m.role, Parts(PartsBackOf(blocks)), None, None)]
              else out == [Message(RoleOr(m.role), Text(Gathered(blocks, TextOfAnyBlock)), None, None)]
  {
    if m.content.ABlocks? {
      var blocks := m.content.blocks;
      BlocksBack(codec, blocks);
      BlockTextsGathered(blocks, true);
      BlockTextsGathered(blocks, false);
      HasIff(blocks);
      hide BlockCalls, BlockResults, BlockParts, BlockTexts, JoinLines, Gathered, HasUse, HasResult, HasImageBlock;
      hide CallsBackOf, ResultsBackOf, PartsBackOf;
    }
  }

  lemma {:induction false} HasIff<J>(blocks: seq<Block<J>>)
    ensures HasUse(blocks) <==> exists b :: b in blocks && b.ToolUse?
    ensures HasResult(blocks) <==> exists b :: b in blocks && b.ToolResult?
    ensures HasImageBlock(blocks) <==> exists b :: b in blocks && b.ImageBlock?
  {
    assert forall i :: 0 <= i < |blocks| ==> blocks[i] in blocks;
  }

  // ---------------------------------------------------------------- whole bodies

  // The messages that are not system messages, and the texts of those that are.
  ghost function Others(messages: seq<Message>): seq<Message> {
    if messages == [] then []
    else
      var n := |messages| - 1;
      Others(messages[..n]) + if messages[n].role == "system" then [] else [messages[n]]
  }

  ghost function SystemLines(messages: seq<Message>): seq<string> {
    if messages == [] then []
    else
      var n := |messages| - 1;
      SystemLines(messages[..n])
      + if messages[n].role == "system" && messages[n].content != Null then [TextOf(messages[n].content)] else []
  }

  lemma {:induction false} NonSystemIsOthers(messages: seq<Message>)
    ensures NonSystem(messages) == Others(messages) && SystemTexts(messages) == SystemLines(messages)
  {
    if messages != [] {
      var n := |messages| - 1;
      assert messages == messages[..n] + [messages[n]];
      NonSystemIsOthers(messages[..n]);
      TranslateLoops.NonSystemAppend(messages[..n], messages[n]);
      SystemTextsAppend(messages[..n], messages[n]);
    }
  }

  lemma {:induction false} SystemTextsAppend(a: seq<Message>, m: Message)
    ensures SystemTexts(a + [m]) ==
            SystemTexts(a) + if m.role == "system" && m.content != Null then [TextOf(m.content)] else []
  {
    if a == [] {
      assert a + [m] == [m] && [m][1..] == [];
    } else {
      assert (a + [m])[1..] == a[1..] + [m];
      SystemTextsAppend(a[1..], m);
    }
  }

  ghost function ToolsOnWire<J>(codec: Codec<J>, tools: seq<Tool<J>>): seq<ATool<J>> {
    if tools == [] then []
    else
      var n := |tools| - 1;
      ToolsOnWire(codec, tools[..n])
      + match tools[n]
        case OtherTool => []
        case FunctionTool(name, description, parameters) =>
          [ATool(Some(match name case None => "" case Some(s) => s),
                 Some(match description case None => "" case Some(s) => s),
                 Some(match parameters case None => codec.objectType case Some(v) => v))]
  }

  ghost function ToolsBackOf<J>(codec: Codec<J>, tools: seq<ATool<J>>): seq<Tool<J>> {
    if tools == [] then []
    else
      var n := |tools| - 1;
      var t := tools[n];
      ToolsBackOf(codec, tools[..n])
      + [FunctionTool(Some(match t.name case None => "" case Some(s) => s),
                      Some(match t.description case None => "" case Some(s) => s),
                      Some(match t.inputSchema case None => codec.objectType case Some(v) => v))]
  }

  lemma {:induction false} ToolsAppend<J>(codec: Codec<J>, a: seq<Tool<J>>, t: Tool<J>)
    ensures ToATools(codec, a + [t]) == ToATools(codec, a) + ToATools(codec, [t])
  {
    if a == [] {
      assert a + [t] == [t];
    } else {
      assert (a + [t])[1..] == a[1..] + [t];
      ToolsAppend(codec, a[1..], t);
    }
  }

  lemma {:induction false} ToolsBackAppend<J>(codec: Codec<J>, a: seq<ATool<J>>, t: ATool<J>)
    ensures FromATools(codec, a + [t]) == FromATools(codec, a) + FromATools(codec, [t])
  {
    if a == [] {
      assert a + [t] == [t];
    } else {
      assert (a + [t])[1..] == a[1..] + [t];
      ToolsBackAppend(codec, a[1..], t);
    }
  }

  lemma {:induction false} ToolsAreOnWire<J>(codec: Codec<J>, tools: seq<Tool<J>>)
    ensures ToATools(codec, tools) == ToolsOnWire(codec, tools)
  {
    if tools != [] {
      var n := |tools| - 1;
      assert tools == tools[..n] + [tools[n]];
      ToolsAreOnWire(codec, tools[..n]);
      ToolsAppend(codec, tools[..n], tools[n]);
      assert [tools[n]][1..] == [] && ToATools(codec, [tools[n]][1..]) == [];
    }
  }

  lemma {:induction false} ToolsComeBack<J>(codec: Codec<J>, tools: seq<ATool<J>>)
    ensures FromATools(codec, tools) == ToolsBackOf(codec, tools)
  {
    if tools != [] {
      var n := |tools| - 1;
      assert tools == tools[..n] + [tools[n]];
      ToolsComeBack(codec, tools[..n]);
      ToolsBackAppend(codec, tools[..n], tools[n]);
      assert [tools[n]][1..] == [] && FromATools(codec, [tools[n]][1..]) == [];
    }
  }

  // The Anthropic body: one turn per message that is not a system message, the
  // system texts in one field, a token limit always, the stop texts as a list.
  lemma {:induction false} BodyOnWire<J>(codec: Codec<J>, b: Body<J>)
    requires ToAnthropic(codec, b).Some?
    ensures var a, system := ToAnthropic(codec, b).value, Lined(SystemLines(b.messages));
            && a.model == Some(match b.model case None => "" case Some(s) => s)
            && a.maxTokens == Some(match b.maxTokens case None => 4096 case Some(n) => if n == 0 then 4096 else n)
            && a.system == (if system == "" then Null else Text(system))
            && a.temperature == b.temperature && a.topP == b.topP
            && a.stopSequences ==
               (match b.stop case NoStop => None case StopText(s) => Some([s]) case StopList(l) => Some(l))
            && a.tools == (match b.tools
                           case None => None
                           case Some(tools) => if tools == [] then None else Some(ToolsOnWire(codec, tools)))
            && a.toolChoice == b.toolChoice && a.stream == b.stream
    ensures var a, others := ToAnthropic(codec, b).value, Others(b.messages);
            && AllParse(codec, others) && |a.messages| == |others|
            && forall k :: 0 <= k < |others| ==>
                 assert others[k] in others; a.messages[k] == ToAMessage(codec, others[k])
  {
    NonSystemIsOthers(b.messages);
    JoinIsLined(SystemLines(b.messages));
    if b.tools.Some? { ToolsAreOnWire(codec, b.tools.value); }
    hide JoinLines, Lined, SystemTexts, SystemLines, NonSystem, Others, ToATools, ToolsOnWire;
    TurnByTurn(codec, Others(b.messages));
    hide ToAMessages, ToAMessage, AllParse;
  }

  lemma {:induction false} TurnByTurn<J>(codec: Codec<J>, messages: seq<Message>)
    requires AllParse(codec, messages)
    ensures |ToAMessages(codec, messages)| == |messages|
    ensures forall k :: 0 <= k < |messages| ==>
              assert messages[k] in messages; ToAMessages(codec, messages)[k] == ToAMessage(codec, messages[k])
  {
    if messages != [] {
      assert messages[0] in messages;
      TurnByTurn(codec, messages[1..]);
      hide ToAMessage, MessageParses;
    }
  }

  ghost function TurnsBackOf<J>(codec: Codec<J>, messages: seq<AMessage<J>>): seq<Message> {
    if messages == [] then []
    else
      var n := |messages| - 1;
      TurnsBackOf(codec, messages[..n]) + FromAMessage(codec, messages[n])
  }

  lemma {:induction false} TurnsComeBack<J>(codec: Codec<J>, messages: seq<AMessage<J>>)
    ensures FromAMessages(codec, messages) == TurnsBackOf(codec, messages)
  {
    if messages != [] {
      var n := |messages| - 1;
      assert messages == messages[..n] + [messages[n]];
      TurnsComeBack(codec, messages[..n]);
      TranslateLoops.FromAMessagesAppend(codec, messages[..n], messages[n]);
    }
  }

  // Any Anthropic body comes back with its system text as a message in front,
  // its turns in order, and its other fields as they are.
  lemma {:induction false} BodyFromWire<J>(codec: Codec<J>, a: ABody<J>)
    ensures var b := FromAnthropic(codec, a);
            && b.model == Some(match a.model case None => "" case Some(s) => s)
            && b.messages ==
               (if a.system in {Null, Text(""), Parts([])} then []
                else [Message("system", Text(TextOf(a.system)), None, None)]) + TurnsBackOf(codec, a.messages)
            && b.maxTokens == a.maxTokens && b.temperature == a.temperature && b.topP == a.topP
            && b.stop == (match a.stopSequences
                          case None => NoStop
                          case Some(l) => if l == [] then NoStop else if |l| == 1 then StopText(l[0]) else StopList(l))
            && b.tools == (match a.tools
                           case None => None
                           case Some(tools) => if tools == [] then None else Some(ToolsBackOf(codec, tools)))
            && b.toolChoice == a.toolChoice && b.stream == a.stream
  {
    TurnsComeBack(codec, a.messages);
    if a.tools.Some? { ToolsComeBack(codec, a.tools.value); }
    hide FromAMessages, TurnsBackOf, FromATools, ToolsBackOf, TextOf;
  }
}
