/**
 The round trip `N` of Translate: which bodies it leaves alone, where it lands,
 and when a second round trip changes nothing.
 */
module RoundTrip {
  import opened Wrappers
  import opened DataUrl
  import opened Translate

  // ---------------------------------------------------------------- one message

  function NormCall<J>(codec: Codec<J>, call: ToolCall): ToolCall
    requires CallParses(codec, call)
  {
    ToolCall(Some(Or(call.id, "")), Some(Or(call.name, "")),
             Some(codec.dumps(codec.loads(ArgumentsText(call)).value)))
  }

  function NormCalls<J>(codec: Codec<J>, calls: seq<ToolCall>): (r: seq<ToolCall>)
    requires forall c :: c in calls ==> CallParses(codec, c)
    ensures |r| == |calls| && forall i :: 0 <= i < |r| ==> r[i] == NormCall(codec, calls[i])
  {
    if calls == [] then [] else [NormCall(codec, calls[0])] + NormCalls(codec, calls[1..])
  }

  function NormPart(p: Part): Part {
    match p
    case ImagePart(url, _) => ImagePart(Normal(url), None)
    case _ => p
  }

  function NormParts(parts: seq<Part>): (r: seq<Part>)
    ensures |r| == |parts| && forall i :: 0 <= i < |r| ==> r[i] == NormPart(parts[i])
  {
    if parts == [] then [] else [NormPart(parts[0])] + NormParts(parts[1..])
  }

  // What a message that is not a system message comes back as.
  function Norm<J>(codec: Codec<J>, m: Message): Message
    requires MessageParses(codec, m)
  {
    if m.role == "tool" then Message("tool", Text(TextOf(m.content)), None, Some(Or(m.toolCallId, "")))
    else if IsCallTurn(m) then
      Message("assistant", TextOrNull(TextOf(m.content)), Some(NormCalls(codec, m.toolCalls.value)), None)
    else
      var parts := ContentParts(m.content);
      Message(PlainRole(m.role),
              if HasImage(parts) then Parts(NormParts(parts)) else Text(TextOf(m.content)), None, None)
  }

  function Norms<J>(codec: Codec<J>, messages: seq<Message>): (r: seq<Message>)
    requires AllParse(codec, messages)
    ensures |r| == |messages| && forall i :: 0 <= i < |r| ==> r[i] == Norm(codec, messages[i])
  {
    if messages == [] then [] else [Norm(codec, messages[0])] + Norms(codec, messages[1..])
  }

  lemma {:induction false} CallsBack<J>(codec: Codec<J>, calls: seq<ToolCall>)
    requires forall c :: c in calls ==> CallParses(codec, c)
    ensures var blocks := CallBlocks(codec, calls);
            && BlockCalls(codec, blocks) == NormCalls(codec, calls) && BlockTexts(blocks, true) == []
            && |blocks| == |calls| && (forall b :: b in blocks ==> b.ToolUse?)
  {
    if calls != [] {
      assert calls[0] in calls;
      CallsBack(codec, calls[1..]);
      assert CallBlocks(codec, calls)[1..] == CallBlocks(codec, calls[1..]);
    }
  }

  lemma {:induction false} CallTurnBlocks<J>(codec: Codec<J>, text: string, calls: seq<ToolCall>)
    requires forall c :: c in calls ==> CallParses(codec, c)
    ensures var blocks := TextBlocks(text) + CallBlocks(codec, calls);
            && JoinLines(BlockTexts(blocks, true)) == text && BlockCalls(codec, blocks) == NormCalls(codec, calls)
            && (calls != [] ==> HasUse(blocks))
  {
    CallsBack(codec, calls);
    var uses := CallBlocks(codec, calls);
    var blocks := TextBlocks(text) + uses;
    hide CallBlocks, NormCalls, CallParses;
    assert calls != [] ==> blocks[|blocks| - 1] == uses[|uses| - 1] && uses[|uses| - 1] in uses;
    if text == "" {
      assert blocks == uses;
    } else {
      assert blocks[1..] == uses && BlockTexts(blocks, true) == [text];
    }
  }

  lemma {:induction false} CallTurnBack<J>(codec: Codec<J>, text: string, calls: seq<ToolCall>)
    requires calls != [] && forall c :: c in calls ==> CallParses(codec, c)
    ensures FromAMessage(codec, AMessage("assistant", ABlocks(TextBlocks(text) + CallBlocks(codec, calls)))) ==
            [Message("assistant", TextOrNull(text), Some(NormCalls(codec, calls)), None)]
  {
    CallTurnBlocks(codec, text, calls);
    hide CallBlocks, NormCalls, CallParses, TextBlocks, BlockTexts, BlockCalls, HasUse, JoinLines;
  }

  // What the parts of a content are like.
  ghost predicate Solid(p: Part) {
    match p
    case TextPart(text) => text != ""
    case ImagePart(url, _) => url != ""
    case OtherPart(_) => false
  }

  lemma {:induction false} PartsOfAreSolid(parts: seq<Part>)
    ensures forall p :: p in PartsOf(parts) ==> Solid(p) && p in parts
    ensures |PartsOf(parts)| <= |parts|
    ensures |PartsOf(parts)| == |parts| ==> PartsOf(parts) == parts
    ensures (forall p :: p in parts ==> Solid(p)) ==> PartsOf(parts) == parts
  {
    if parts != [] {
      PartsOfAreSolid(parts[1..]);
      assert parts == [parts[0]] + parts[1..];
      assert forall p :: p in parts[1..] ==> p in parts;
      assert parts[0] in parts;
    }
  }

  lemma {:induction false} PartsBack<J>(parts: seq<Part>)
    requires forall p :: p in parts ==> Solid(p)
    ensures var blocks := PartBlocks<J>(parts);
            && BlockParts(blocks) == NormParts(parts) && |blocks| == |parts|
            && (forall i :: 0 <= i < |blocks| ==> !blocks[i].ToolUse? && !blocks[i].ToolResult?)
            && (forall i :: 0 <= i < |blocks| ==> (blocks[i].ImageBlock? <==> parts[i].ImagePart?))
  {
    if parts != [] {
      assert parts[0] in parts;
      PartsBack<J>(parts[1..]);
    }
  }

  lemma {:induction false} ContentPartsAreSolid(content: Content)
    ensures forall p :: p in ContentParts(content) ==> Solid(p)
  {
    if content.Parts? { PartsOfAreSolid(content.parts); }
  }

  lemma {:induction false} ToolTurnBack<J>(codec: Codec<J>, id: string, text: string)
    ensures FromAMessage(codec, AMessage("user", ABlocks([ToolResult(Some(id), Text(text))]))) ==
            [Message("tool", Text(text), None, Some(id))]
  {
    var blocks: seq<Block<J>> := [ToolResult(Some(id), Text(text))];
    assert blocks[0].ToolResult? && blocks[1..] == [];
    assert BlockResults(blocks) == [Message("tool", Text(text), None, Some(id))];
  }

  lemma {:induction false} ImageTurnBack<J>(codec: Codec<J>, role: string, parts: seq<Part>)
    requires (role == "user" || role == "assistant") && HasImage(parts) && forall p :: p in parts ==> Solid(p)
    ensures FromAMessage(codec, AMessage(role, ABlocks(PartBlocks(parts)))) ==
            [Message(role, Parts(NormParts(parts)), None, None)]
  {
    PartsBack<J>(parts);
    var p :| p in parts && p.ImagePart?;
    var i :| 0 <= i < |parts| && parts[i] == p;
    assert PartBlocks<J>(parts)[i].ImageBlock?;
    hide PartBlocks, NormParts, BlockParts, BlockTexts, BlockCalls, BlockResults, Solid, HasImage;
  }

  // Every message that is not a system message comes back as exactly one.
  lemma {:induction false} MessageBack<J>(codec: Codec<J>, m: Message)
    requires m.role != "system" && MessageParses(codec, m)
    ensures FromAMessage(codec, ToAMessage(codec, m)) == [Norm(codec, m)]
  {
    ToolTurnBack<J>(codec, Or(m.toolCallId, ""), TextOf(m.content));
    if IsCallTurn(m) { CallTurnBack(codec, TextOf(m.content), m.toolCalls.value); }
    ContentPartsAreSolid(m.content);
    if HasImage(ContentParts(m.content)) { ImageTurnBack<J>(codec, PlainRole(m.role), ContentParts(m.content)); }
    hide HasUse, HasResult, HasImageBlock, BlockTexts, BlockCalls, BlockResults, BlockParts, PartBlocks;
    hide CallBlocks, TextBlocks, TextOf, ContentParts, NormParts, NormCalls, HasImage, Solid, CallParses;
  }

  lemma {:induction false} MessagesBack<J>(codec: Codec<J>, messages: seq<Message>)
    requires AllParse(codec, messages) && forall m :: m in messages ==> m.role != "system"
    ensures FromAMessages(codec, ToAMessages(codec, messages)) == Norms(codec, messages)
  {
    if messages != [] {
      MessageBack(codec, messages[0]);
      MessagesBack(codec, messages[1..]);
    }
  }

  // ---------------------------------------------------------------- what the other side is told

  // The text an Anthropic turn carries in its text blocks.
  function TurnText<J>(m: AMessage<J>): string {
    match m.content case AText(text) => text case ABlocks(blocks) => JoinLines(BlockTexts(blocks, true))
  }

  function OwnTexts(parts: seq<Part>): seq<string> {
    if parts == [] then []
    else (if parts[0].TextPart? && parts[0].text != "" then [parts[0].text] else []) + OwnTexts(parts[1..])
  }

  ghost function Weight(texts: seq<string>): nat {
    if texts == [] then 0 else |texts[0]| + 1 + Weight(texts[1..])
  }

  lemma {:induction false} JoinedLength(texts: seq<string>)
    ensures texts != [] ==> |JoinLines(texts)| == Weight(texts) - 1
  {
    if |texts| > 1 { JoinedLength(texts[1..]); }
  }

  predicate SaysMore(p: Part) {
    p.OtherPart? && p.text != ""
  }

  lemma {:induction false} WeightCons(t: string, texts: seq<string>)
    ensures Weight([t] + texts) == |t| + 1 + Weight(texts)
  {
  }

  lemma {:induction false} FirstTexts(p: Part, rest: seq<Part>)
    ensures OwnTexts([p] + rest) ==
            if p.TextPart? && p.text != "" then [PartText(p)] + OwnTexts(rest) else OwnTexts(rest)
    ensures PartTexts([p] + rest) == if PartText(p) != "" then [PartText(p)] + PartTexts(rest) else PartTexts(rest)
  {
    assert ([p] + rest)[1..] == rest;
  }

  lemma {:induction false} OwnTextsAreFewer(parts: seq<Part>)
    ensures if exists p :: p in parts && SaysMore(p) then Weight(OwnTexts(parts)) + 2 <= Weight(PartTexts(parts))
            else OwnTexts(parts) == PartTexts(parts)
  {
    if parts != [] {
      var p, rest := parts[0], parts[1..];
      OwnTextsAreFewer(rest);
      assert parts == [p] + rest;
      assert (exists q :: q in parts && SaysMore(q)) <==> SaysMore(p) || exists q :: q in rest && SaysMore(q);
      FirstTexts(p, rest);
      WeightCons(PartText(p), OwnTexts(rest));
      WeightCons(PartText(p), PartTexts(rest));
      hide OwnTexts, PartTexts, Weight;
    }
  }

  lemma {:induction false} ImageTurnTexts<J>(parts: seq<Part>)
    ensures BlockTexts(PartBlocks<J>(PartsOf(parts)), true) == OwnTexts(parts)
  {
    if parts != [] {
      ImageTurnTexts<J>(parts[1..]);
      var solid := PartsOf(parts);
      assert solid == PartsOf(parts[1..]) || solid[1..] == PartsOf(parts[1..]);
      if solid != [] && solid != PartsOf(parts[1..]) {
        assert PartBlocks<J>(solid)[1..] == PartBlocks<J>(PartsOf(parts[1..]));
      }
    }
  }

  // An Anthropic turn is an assistant turn exactly for assistant messages, and
  // carries the whole text of the message unless the message mixes images with
  // parts of another kind: the text of those is lost.
  lemma {:induction false} TurnKeepsRoleAndText<J>(codec: Codec<J>, m: Message)
    requires m.role != "system" && MessageParses(codec, m)
    ensures var a := ToAMessage(codec, m);
            && a.role == (if m.role == "assistant" then "assistant" else "user")
            && (m.role != "tool" ==>
                  (TurnText(a) == TextOf(m.content) <==>
                   IsCallTurn(m) || !HasImage(ContentParts(m.content))
                   || !exists p :: p in m.content.parts && SaysMore(p)))
  {
    if m.role == "tool" {
    } else if IsCallTurn(m) {
      CallTurnBlocks(codec, TextOf(m.content), m.toolCalls.value);
    } else if HasImage(ContentParts(m.content)) {
      var parts := m.content.parts;
      ImageTurnTexts<J>(parts);
      OwnTextsAreFewer(parts);
      JoinedLength(OwnTexts(parts));
      JoinedLength(PartTexts(parts));
      hide JoinLines, PartTexts, OwnTexts, BlockTexts, PartBlocks, PartsOf;
    }
  }

  // The text of a refusal is lost beside an image, and kept without it.
  lemma {:induction false} RefusalIsLostBesideAnImage<J>(codec: Codec<J>)
    ensures var refusal, image := OtherPart("No."), ImagePart("http://x/y.png", None);
            && TurnText(ToAMessage(codec, Message("user", Parts([refusal]), None, None))) == "No."
            && TurnText(ToAMessage(codec, Message("user", Parts([refusal, image]), None, None))) == ""
  {
    var refusal, image := OtherPart("No."), ImagePart("http://x/y.png", None);
    var alone, both := [refusal], [refusal, image];
    assert |"No."| == 3;
    assert alone[1..] == [] && both[1..] == [image] && [image][1..] == [];
    assert PartTexts(alone) == ["No."] && PartsOf(alone) == [];
    assert PartsOf([image]) == [image] && PartsOf(both) == [image] && [image][0] in [image];
    ImageTurnTexts<J>(both);
    assert OwnTexts([image]) == [] && OwnTexts(both) == [];
  }

  // ---------------------------------------------------------------- messages left alone

  lemma {:induction false} NormPartFixed(p: Part)
    requires Solid(p)
    ensures NormPart(p) == p <==> NormalPart(p)
  {
    if p.ImagePart? { SurvivesIffCanonical(p.url); }
  }

  lemma {:induction false} NormPartsFixed(parts: seq<Part>)
    ensures parts == NormParts(PartsOf(parts)) <==> forall p :: p in parts ==> NormalPart(p)
  {
    PartsOfAreSolid(parts);
    if (forall p :: p in parts ==> NormalPart(p)) || parts == NormParts(PartsOf(parts)) {
      assert PartsOf(parts) == parts by {
        assert (forall p :: p in parts ==> NormalPart(p)) ==> forall p :: p in parts ==> Solid(p);
      }
      forall i | 0 <= i < |parts| ensures NormPart(parts[i]) == parts[i] <==> NormalPart(parts[i]) {
        assert parts[i] in parts;
        NormPartFixed(parts[i]);
      }
    }
  }

  lemma {:induction false} CallsFixed<J>(codec: Codec<J>, calls: seq<ToolCall>)
    requires forall c :: c in calls ==> CallParses(codec, c)
    ensures NormCalls(codec, calls) == calls <==> forall c :: c in calls ==> NormalCall(codec, c)
  {
    assert forall i :: 0 <= i < |calls| ==> (NormCall(codec, calls[i]) == calls[i] <==> NormalCall(codec, calls[i]));
  }

  lemma {:induction false} NormFixed<J>(codec: Codec<J>, m: Message)
    requires m.role != "system" && MessageParses(codec, m)
    ensures Norm(codec, m) == m <==> NormalMessage(codec, m)
  {
    if m.role == "tool" {
    } else if IsCallTurn(m) {
      CallsFixed(codec, m.toolCalls.value);
    } else if m.content.Parts? {
      NormPartsFixed(m.content.parts);
      PartsOfAreSolid(m.content.parts);
      if HasImage(m.content.parts) && forall p :: p in m.content.parts ==> NormalPart(p) {
        assert forall p :: p in m.content.parts ==> Solid(p);
      }
    }
  }

  // ---------------------------------------------------------------- where messages land

  lemma {:induction false} CallsLandNormal<J>(codec: Codec<J>, calls: seq<ToolCall>)
    requires Lawful(codec) && forall c :: c in calls ==> CallParses(codec, c)
    ensures forall c :: c in NormCalls(codec, calls) ==> NormalCall(codec, c)
  {
    forall i | 0 <= i < |calls| ensures NormalCall(codec, NormCall(codec, calls[i])) {
      assert calls[i] in calls;
      assert codec.loads(ArgumentsText(calls[i])).Some?;
    }
  }

  lemma {:induction false} PartsLandNormalIffClean(parts: seq<Part>)
    requires forall p :: p in parts ==> Solid(p)
    ensures (forall p :: p in NormParts(parts) ==> NormalPart(p))
            <==> (forall p :: p in parts && p.ImagePart? ==> Clean(p.url))
    ensures HasImage(NormParts(parts)) <==> HasImage(parts)
  {
    if parts != [] {
      var p := parts[0];
      assert p in parts;
      if p.ImagePart? { NormalIsCanonicalIffClean(p.url); }
      assert NormalPart(NormPart(p)) <==> (p.ImagePart? ==> Clean(p.url));
      assert NormPart(p).ImagePart? <==> p.ImagePart?;
      hide Clean, NormalPart, Solid, NormPart;
      PartsLandNormalIffClean(parts[1..]);
      var rest := parts[1..];
      assert parts == [p] + rest && NormParts(parts) == [NormPart(p)] + NormParts(rest);
      assert (forall q :: q in NormParts(parts) ==> NormalPart(q)) <==>
             NormalPart(NormPart(p)) && forall q :: q in NormParts(rest) ==> NormalPart(q);
      assert (forall q :: q in parts && q.ImagePart? ==> Clean(q.url)) <==>
             (p.ImagePart? ==> Clean(p.url)) && forall q :: q in rest && q.ImagePart? ==> Clean(q.url);
    }
  }

  lemma {:induction false} NormIsNormalIffClean<J>(codec: Codec<J>, m: Message)
    requires Lawful(codec) && m.role != "system" && MessageParses(codec, m)
    ensures NormalMessage(codec, Norm(codec, m)) <==> CleanMessage(m)
  {
    hide Clean, NormalPart, NormParts, ContentParts, TextOf, HasImage, NormCalls, NormalCall;
    if m.role == "tool" {
    } else if IsCallTurn(m) {
      CallsLandNormal(codec, m.toolCalls.value);
    } else {
      ContentPartsAreSolid(m.content);
      PartsLandNormalIffClean(ContentParts(m.content));
      if !HasImage(ContentParts(m.content)) { NoImageNoImage(ContentParts(m.content)); }
    }
  }

  lemma {:induction false} NoImageNoImage(parts: seq<Part>)
    requires !HasImage(parts)
    ensures forall p :: p in parts ==> !p.ImagePart?
  {
  }

  // ---------------------------------------------------------------- whole transcripts

  lemma {:induction false} NonSystemOnly(messages: seq<Message>)
    ensures forall m :: m in NonSystem(messages) <==> m in messages && m.role != "system"
    ensures (forall m :: m in messages ==> m.role != "system") ==>
              NonSystem(messages) == messages && SystemTexts(messages) == []
  {
    if messages != [] {
      NonSystemOnly(messages[1..]);
      assert messages == [messages[0]] + messages[1..];
    }
  }

  // The system texts joined into one message, or none.
  function Lead(messages: seq<Message>): seq<Message> {
    SystemMessages(TextOrNull(JoinLines(SystemTexts(messages))))
  }

  // The messages of the round trip: the system texts joined in front, then
  // every other message, normalised, in order.
  function NMessages<J>(codec: Codec<J>, messages: seq<Message>): seq<Message>
    requires AllParse(codec, NonSystem(messages))
  {
    Lead(messages) + Norms(codec, NonSystem(messages))
  }

  lemma {:induction false} NormRole<J>(codec: Codec<J>, messages: seq<Message>)
    requires AllParse(codec, messages) && forall m :: m in messages ==> m.role != "system"
    ensures forall m :: m in Norms(codec, messages) ==> m.role != "system"
  {
  }

  lemma {:induction false} LeadSplit<J>(codec: Codec<J>, messages: seq<Message>)
    requires messages != [] && LeadingSystem(messages[0]) && forall m :: m in messages[1..] ==> m.role != "system"
    ensures NonSystem(messages) == messages[1..]
    ensures Lead(messages) == [messages[0]]
  {
    NonSystemOnly(messages[1..]);
    assert SystemTexts(messages) == [messages[0].content.text];
  }

  lemma {:induction false} NormsFixed<J>(codec: Codec<J>, messages: seq<Message>)
    requires AllParse(codec, messages) && forall m :: m in messages ==> m.role != "system"
    ensures Norms(codec, messages) == messages <==> forall m :: m in messages ==> NormalMessage(codec, m)
  {
    forall i | 0 <= i < |messages|
      ensures Norm(codec, messages[i]) == messages[i] <==> NormalMessage(codec, messages[i])
    {
      assert messages[i] in messages;
      NormFixed(codec, messages[i]);
    }
  }

  lemma {:induction false} NormalShape<J>(codec: Codec<J>, messages: seq<Message>)
    requires NormalMessages(codec, messages)
    ensures Lead(messages) + NonSystem(messages) == messages
    ensures forall m :: m in NonSystem(messages) ==> NormalMessage(codec, m)
  {
    if messages != [] && messages[0].role == "system" {
      LeadSplit(codec, messages);
    } else {
      NonSystemOnly(messages);
      NoLead(messages);
    }
    hide NormalMessage, NonSystem, Lead, SystemTexts, LeadingSystem;
  }

  lemma {:induction false} NoLead(messages: seq<Message>)
    requires SystemTexts(messages) == []
    ensures Lead(messages) == []
  {
    assert JoinLines([]) == "";
  }

  lemma {:induction false} NormalMessagesFixed<J>(codec: Codec<J>, messages: seq<Message>)
    requires AllParse(codec, NonSystem(messages)) && NormalMessages(codec, messages)
    ensures NMessages(codec, messages) == messages
  {
    NormalShape(codec, messages);
    NonSystemOnly(messages);
    hide NormalMessages, NormalMessage, NonSystem, Lead, AllParse, MessageParses;
    NormsFixed(codec, NonSystem(messages));
  }

  lemma {:induction false} FixedMessagesNormal<J>(codec: Codec<J>, messages: seq<Message>)
    requires AllParse(codec, NonSystem(messages)) && NMessages(codec, messages) == messages
    ensures NormalMessages(codec, messages)
  {
    var norms, lead := Norms(codec, NonSystem(messages)), Lead(messages);
    NonSystemOnly(messages);
    NormRole(codec, NonSystem(messages));
    assert lead == [] || (|lead| == 1 && LeadingSystem(lead[0]));
    assert messages == lead + norms;
    hide NormalMessage, Norm, LeadingSystem, MessageParses, SystemTexts, NonSystem, Lead, Norms;
    if lead == [] {
      assert messages == norms;
      NonSystemOnly(norms);
    } else {
      assert messages[0] == lead[0] && messages[1..] == norms;
      LeadSplit(codec, messages);
    }
    assert NonSystem(messages) == norms;
    NormsFixed(codec, norms);
    assert norms != [] ==> norms[0] in norms;
  }

  lemma {:induction false} MessagesFixed<J>(codec: Codec<J>, messages: seq<Message>)
    requires AllParse(codec, NonSystem(messages))
    ensures NMessages(codec, messages) == messages <==> NormalMessages(codec, messages)
  {
    hide NMessages, NormalMessages;
    if NormalMessages(codec, messages) { NormalMessagesFixed(codec, messages); }
    if NMessages(codec, messages) == messages { FixedMessagesNormal(codec, messages); }
  }

  lemma {:induction false} NormsLandNormalIffClean<J>(codec: Codec<J>, messages: seq<Message>)
    requires Lawful(codec) && AllParse(codec, messages) && forall m :: m in messages ==> m.role != "system"
    ensures (forall m :: m in Norms(codec, messages) ==> NormalMessage(codec, m))
            <==> (forall m :: m in messages ==> CleanMessage(m))
  {
    hide NormalMessage, CleanMessage, Norm, Lawful;
    if messages != [] {
      assert messages[0] in messages;
      NormIsNormalIffClean(codec, messages[0]);
      NormsLandNormalIffClean(codec, messages[1..]);
      assert Norms(codec, messages) == [Norm(codec, messages[0])] + Norms(codec, messages[1..]);
      assert messages == [messages[0]] + messages[1..];
    }
  }

  lemma {:induction false} MessagesLandNormalIffClean<J>(codec: Codec<J>, messages: seq<Message>)
    requires Lawful(codec) && AllParse(codec, NonSystem(messages))
    ensures NormalMessages(codec, NMessages(codec, messages)) <==> forall m :: m in messages ==> CleanMessage(m)
  {
    NonSystemOnly(messages);
    var others, lead := NonSystem(messages), Lead(messages);
    var norms := Norms(codec, others);
    NormRole(codec, others);
    NormsLandNormalIffClean(codec, others);
    assert lead == [] || (|lead| == 1 && LeadingSystem(lead[0]) && lead[0].role == "system");
    assert forall m :: m in messages && m.role == "system" ==> CleanMessage(m);
    hide NormalMessage, CleanMessage, Norm, Lawful, MessageParses, LeadingSystem, Lead, NonSystem;
    LandsBehindLead(codec, lead, norms);
  }

  lemma {:induction false} LandsBehindLead<J>(codec: Codec<J>, lead: seq<Message>, norms: seq<Message>)
    requires lead == [] || (|lead| == 1 && LeadingSystem(lead[0]) && lead[0].role == "system")
    requires forall m :: m in norms ==> m.role != "system"
    ensures NormalMessages(codec, lead + norms) <==> forall m :: m in norms ==> NormalMessage(codec, m)
  {
  }

  // ---------------------------------------------------------------- tools

  lemma {:induction false} ToolsFixed<J>(codec: Codec<J>, tools: seq<Tool<J>>)
    ensures |FromATools(codec, ToATools(codec, tools))| <= |tools|
    ensures FromATools(codec, ToATools(codec, tools)) == tools <==> forall t :: t in tools ==> NormalTool(t)
    ensures forall t :: t in FromATools(codec, ToATools(codec, tools)) ==> NormalTool(t)
  {
    if tools != [] {
      ToolsFixed(codec, tools[1..]);
      var back := FromATools(codec, ToATools(codec, tools));
      assert tools == [tools[0]] + tools[1..] && tools[0] in tools;
      if tools[0].FunctionTool? {
        assert ToATools(codec, tools)[1..] == ToATools(codec, tools[1..]);
        assert back[1..] == FromATools(codec, ToATools(codec, tools[1..]));
        assert back == [back[0]] + back[1..] && (back[0] == tools[0] <==> NormalTool(tools[0]));
      }
    }
  }

  // ---------------------------------------------------------------- whole bodies

  // The round trip raises exactly when some assistant turn carries tool
  // arguments that are not JSON; otherwise its messages are `NMessages`.
  lemma {:induction false} RoundTripRaisesOnlyOnMalformedArguments<J>(codec: Codec<J>, b: Body<J>)
    ensures N(codec, b).Some? <==> forall m :: m in b.messages ==> MessageParses(codec, m)
    ensures N(codec, b).Some? ==> N(codec, b).value.messages == NMessages(codec, b.messages)
  {
    NonSystemOnly(b.messages);
    if AllParse(codec, NonSystem(b.messages)) {
      MessagesBack(codec, NonSystem(b.messages));
    }
  }

  function NormTools<J>(codec: Codec<J>, tools: seq<Tool<J>>): seq<Tool<J>> {
    if tools == [] then []
    else
      var rest := NormTools(codec, tools[1..]);
      match tools[0]
      case OtherTool => rest
      case FunctionTool(name, description, parameters) =>
        [FunctionTool(Some(Or(name, "")), Some(Or(description, "")), Some(Or(parameters, codec.objectType)))] + rest
  }

  lemma {:induction false} ToolsBack<J>(codec: Codec<J>, tools: seq<Tool<J>>)
    ensures FromATools(codec, ToATools(codec, tools)) == NormTools(codec, tools)
  {
    if tools != [] {
      ToolsBack(codec, tools[1..]);
      if tools[0].FunctionTool? { assert ToATools(codec, tools)[1..] == ToATools(codec, tools[1..]); }
    }
  }

  // What a body comes back as: the missing fields filled in, a token limit of
  // 4096 for none or zero, a single stop text for a list of one and none for an
  // empty list, the tools without those that have no function, and every other
  // field as it was.
  lemma {:induction false} RoundTripClosedForm<J>(codec: Codec<J>, b: Body<J>)
    requires N(codec, b).Some?
    ensures var tools := if b.tools.Some? then NormTools(codec, b.tools.value) else [];
            N(codec, b).value ==
            Body(Some(Or(b.model, "")), NMessages(codec, b.messages),
                 Some(if Or(b.maxTokens, 0) == 0 then 4096 else b.maxTokens.value), b.temperature, b.topP,
                 if b.stop == StopList([]) then NoStop
                 else if b.stop.StopList? && |b.stop.texts| == 1 then StopText(b.stop.texts[0]) else b.stop,
                 if tools == [] then None else Some(tools), b.toolChoice, b.stream)
  {
    RoundTripRaisesOnlyOnMalformedArguments(codec, b);
    if b.tools.Some? {
      ToolsBack(codec, b.tools.value);
      assert ToATools(codec, b.tools.value) == [] <==> FromATools(codec, ToATools(codec, b.tools.value)) == [];
    }
    hide FromATools, ToATools, NormTools, AllParse, ToAMessages, FromAMessages, NonSystem, SystemTexts, NMessages;
  }

  lemma {:induction false} NormalMessagesParse<J>(codec: Codec<J>, messages: seq<Message>)
    requires NormalMessages(codec, messages)
    ensures AllParse(codec, messages)
  {
  }

  // The fields beside the messages.
  lemma {:induction false} FieldsFixed<J>(codec: Codec<J>, b: Body<J>, n: Body<J>)
    requires N(codec, b) == Some(n)
    ensures n.(messages := b.messages) == b <==>
            && b.model.Some? && b.maxTokens.Some? && b.maxTokens != Some(0)
            && (b.stop.StopList? ==> |b.stop.texts| > 1)
            && (b.tools.Some? ==> b.tools.value != [] && forall t :: t in b.tools.value ==> NormalTool(t))
    ensures n.model.Some? && n.maxTokens.Some? && n.maxTokens != Some(0)
            && (n.stop.StopList? ==> |n.stop.texts| > 1)
            && (n.tools.Some? ==> n.tools.value != [] && forall t :: t in n.tools.value ==> NormalTool(t))
  {
    if b.tools.Some? { ToolsFixed(codec, b.tools.value); }
    hide FromATools, ToATools, NormalTool, AllParse, ToAMessages, FromAMessages, NonSystem, SystemTexts;
  }

  // The bodies the round trip leaves exactly as they are, parts and turns in
  // order, are the normal ones.
  lemma {:induction false} RoundTripIsIdentityIffNormal<J>(codec: Codec<J>, b: Body<J>)
    ensures N(codec, b) == Some(b) <==> NormalBody(codec, b)
  {
    RoundTripRaisesOnlyOnMalformedArguments(codec, b);
    if NormalBody(codec, b) { NormalMessagesParse(codec, b.messages); }
    if N(codec, b).Some? {
      FieldsFixed(codec, b, N(codec, b).value);
      NonSystemOnly(b.messages);
      MessagesFixed(codec, b.messages);
    }
    hide N, NMessages, NormalMessages, MessageParses, NonSystem, NormalTool;
    if N(codec, b).Some? {
      var n := N(codec, b).value;
      assert n == b <==> n.(messages := b.messages) == b && n.messages == b.messages;
    }
  }

  // It lands on a normal body exactly when no data URL it carries across has a
  // media type that still contains "data:".
  lemma {:induction false} RoundTripLandsNormalIffClean<J>(codec: Codec<J>, b: Body<J>, n: Body<J>)
    requires Lawful(codec) && N(codec, b) == Some(n)
    ensures NormalBody(codec, n) <==> CleanBody(b)
  {
    RoundTripRaisesOnlyOnMalformedArguments(codec, b);
    FieldsFixed(codec, b, n);
    NonSystemOnly(b.messages);
    MessagesLandNormalIffClean(codec, b.messages);
    hide N, NMessages, NormalMessages, MessageParses, NonSystem, NormalTool, CleanMessage, Lawful;
  }

  // A second round trip changes nothing exactly for those bodies.
  lemma {:induction false} RoundTripIsIdempotentIffClean<J>(codec: Codec<J>, b: Body<J>, n: Body<J>)
    requires Lawful(codec) && N(codec, b) == Some(n)
    ensures N(codec, n) == Some(n) <==> CleanBody(b)
  {
    RoundTripLandsNormalIffClean(codec, b, n);
    RoundTripIsIdentityIffNormal(codec, n);
    hide N, NormalBody, CleanBody, Lawful;
  }

  // A user turn with one unclean image, and a body whose second round trip
  // therefore differs.
  lemma {:induction false} UncleanTurn()
    ensures !CleanMessage(Message("user", Parts([ImagePart("data:dadata:ta:,", None)]), None, None))
  {
    MarkedMediaTypeIsUnstable();
    var url := "data:dadata:ta:,";
    NormalIsCanonicalIffClean(url);
    SurvivesIffCanonical(Normal(url));
    hide Clean, Normal;
    var parts := [ImagePart(url, None)];
    assert parts[1..] == [] && PartsOf(parts[1..]) == [];
    assert PartsOf(parts) == parts && parts[0] in parts;
  }

  lemma {:induction false} UncleanBodyIsUnstable<J>(codec: Codec<J>, b: Body<J>, n: Body<J>)
    requires Lawful(codec) && N(codec, b) == Some(n)
    requires Message("user", Parts([ImagePart("data:dadata:ta:,", None)]), None, None) in b.messages
    ensures N(codec, n) != Some(n)
  {
    UncleanTurn();
    RoundTripIsIdempotentIffClean(codec, b, n);
    hide N, CleanMessage, Lawful;
  }
}
