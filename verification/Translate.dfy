/**
 The OpenAI / Anthropic translators of app/services/translate.py, on typed
 request bodies.  JSON values are an arbitrary type `J` with the two directions
 of its text form in a `Codec`.

 `N` is the round trip OpenAI -> Anthropic -> OpenAI.  It is proved that the
 bodies it leaves alone are exactly those in `NormalBody`, that it lands there
 exactly for bodies with clean data URLs, and hence exactly when a second round
 trip changes nothing.
 */
module Translate {
  import opened Wrappers
  import opened DataUrl

  // ---------------------------------------------------------------- data

  datatype Codec<!J> = Codec(dumps: J -> string, loads: string -> Option<J>, emptyObject: J, objectType: J)

  // What json.loads accepts, json.dumps writes as non-empty text that
  // json.loads reads back.
  ghost predicate Lawful<J>(codec: Codec<J>) {
    forall s :: codec.loads(s).Some? ==>
      var text := codec.dumps(codec.loads(s).value);
      text != "" && codec.loads(text) == codec.loads(s)
  }

  // A list element with its text; `OtherPart` is any element that is neither a
  // text nor an image part.
  datatype Part = TextPart(text: string) | ImagePart(url: string, detail: Option<string>) | OtherPart(text: string)

  datatype Content = Null | Text(text: string) | Parts(parts: seq<Part>)

  datatype ToolCall = ToolCall(id: Option<string>, name: Option<string>, arguments: Option<string>)

  datatype Message = Message(
    role: string, content: Content, toolCalls: Option<seq<ToolCall>>, toolCallId: Option<string>)

  datatype Stop = NoStop | StopText(text: string) | StopList(texts: seq<string>)

  // `OtherTool` is a list element without a function object.
  datatype Tool<J> =
    | FunctionTool(name: Option<string>, description: Option<string>, parameters: Option<J>)
    | OtherTool

  datatype Body<J> = Body(
    model: Option<string>, messages: seq<Message>, maxTokens: Option<int>,
    temperature: Option<real>, topP: Option<real>, stop: Stop,
    tools: Option<seq<Tool<J>>>, toolChoice: Option<J>, stream: Option<bool>)

  datatype Block<J> =
    | TextBlock(text: string)
    | ImageBlock(source: Source)
    | ToolUse(id: Option<string>, name: Option<string>, input: Option<J>)
    | ToolResult(toolUseId: Option<string>, content: Content)
    | OtherBlock(text: string)

  datatype AContent<J> = AText(text: string) | ABlocks(blocks: seq<Block<J>>)

  datatype AMessage<J> = AMessage(role: string, content: AContent<J>)

  datatype ATool<J> = ATool(name: Option<string>, description: Option<string>, inputSchema: Option<J>)

  datatype ABody<J> = ABody(
    model: Option<string>, messages: seq<AMessage<J>>, maxTokens: Option<int>, system: Content,
    temperature: Option<real>, topP: Option<real>, stopSequences: Option<seq<string>>,
    tools: Option<seq<ATool<J>>>, toolChoice: Option<J>, stream: Option<bool>)

  const DEFAULT_MAX_TOKENS := 4096

  function Or<T>(o: Option<T>, default: T): T {
    match o case None => default case Some(v) => v
  }

  // ---------------------------------------------------------------- text

  // `"\n".join(texts)`.
  function JoinLines(texts: seq<string>): string {
    if texts == [] then ""
    else if |texts| == 1 then texts[0]
    else texts[0] + "\n" + JoinLines(texts[1..])
  }

  function PartText(p: Part): string {
    match p
    case TextPart(text) => text
    case ImagePart(_, _) => ""
    case OtherPart(text) => text
  }

  function PartTexts(parts: seq<Part>): seq<string> {
    if parts == [] then []
    else (if PartText(parts[0]) == "" then [] else [PartText(parts[0])]) + PartTexts(parts[1..])
  }

  function TextOf(content: Content): string {
    match content
    case Null => ""
    case Text(text) => text
    case Parts(parts) => JoinLines(PartTexts(parts))
  }

  // ---------------------------------------------------------------- OpenAI to Anthropic

  // The text and image parts of a content, the empty ones dropped.
  function PartsOf(parts: seq<Part>): seq<Part> {
    if parts == [] then []
    else
      var rest := PartsOf(parts[1..]);
      match parts[0]
      case TextPart(text) => if text == "" then rest else [TextPart(text)] + rest
      case ImagePart(url, detail) => if url == "" then rest else [ImagePart(url, detail)] + rest
      case OtherPart(_) => rest
  }

  function ContentParts(content: Content): seq<Part> {
    match content
    case Null => []
    case Text(text) => if text == "" then [] else [TextPart(text)]
    case Parts(parts) => PartsOf(parts)
  }

  predicate HasImage(parts: seq<Part>) {
    exists p :: p in parts && p.ImagePart?
  }

  function PartBlocks<J>(parts: seq<Part>): seq<Block<J>> {
    if parts == [] then []
    else
      var rest := PartBlocks(parts[1..]);
      match parts[0]
      case TextPart(text) => [TextBlock(text)] + rest
      case ImagePart(url, _) => [ImageBlock(ToSource(url))] + rest
      case OtherPart(_) => rest
  }

  function ArgumentsText(call: ToolCall): string {
    if Or(call.arguments, "{}") == "" then "{}" else Or(call.arguments, "{}")
  }

  predicate CallParses<J>(codec: Codec<J>, call: ToolCall) {
    codec.loads(ArgumentsText(call)).Some?
  }

  function CallBlock<J>(codec: Codec<J>, call: ToolCall): Block<J>
    requires CallParses(codec, call)
  {
    ToolUse(Some(Or(call.id, "")), Some(Or(call.name, "")), codec.loads(ArgumentsText(call)))
  }

  function CallBlocks<J>(codec: Codec<J>, calls: seq<ToolCall>): seq<Block<J>>
    requires forall c :: c in calls ==> CallParses(codec, c)
  {
    if calls == [] then [] else [CallBlock(codec, calls[0])] + CallBlocks(codec, calls[1..])
  }

  predicate IsCallTurn(m: Message) {
    m.role == "assistant" && m.toolCalls.Some? && m.toolCalls.value != []
  }

  // json.loads is called on the arguments of assistant tool calls only, and
  // raises on malformed text.
  predicate MessageParses<J>(codec: Codec<J>, m: Message) {
    IsCallTurn(m) ==> forall c :: c in m.toolCalls.value ==> CallParses(codec, c)
  }

  predicate AllParse<J>(codec: Codec<J>, messages: seq<Message>) {
    forall m :: m in messages ==> MessageParses(codec, m)
  }

  function PlainRole(role: string): string {
    if role == "user" || role == "assistant" then role else "user"
  }

  function TextBlocks<J>(text: string): seq<Block<J>> {
    if text == "" then [] else [TextBlock(text)]
  }

  function ToAMessage<J>(codec: Codec<J>, m: Message): AMessage<J>
    requires MessageParses(codec, m)
  {
    if m.role == "tool" then
      AMessage("user", ABlocks([ToolResult(Some(Or(m.toolCallId, "")), Text(TextOf(m.content)))]))
    else if IsCallTurn(m) then
      AMessage("assistant", ABlocks(TextBlocks(TextOf(m.content)) + CallBlocks(codec, m.toolCalls.value)))
    else
      var parts := ContentParts(m.content);
      AMessage(PlainRole(m.role),
               if HasImage(parts) then ABlocks(PartBlocks(parts)) else AText(TextOf(m.content)))
  }

  function ToAMessages<J>(codec: Codec<J>, messages: seq<Message>): seq<AMessage<J>>
    requires AllParse(codec, messages)
  {
    if messages == [] then [] else [ToAMessage(codec, messages[0])] + ToAMessages(codec, messages[1..])
  }

  function SystemTexts(messages: seq<Message>): seq<string> {
    if messages == [] then []
    else
      var rest := SystemTexts(messages[1..]);
      if messages[0].role == "system" && messages[0].content != Null then [TextOf(messages[0].content)] + rest else rest
  }

  function ToATools<J>(codec: Codec<J>, tools: seq<Tool<J>>): seq<ATool<J>> {
    if tools == [] then []
    else
      var rest := ToATools(codec, tools[1..]);
      match tools[0]
      case OtherTool => rest
      case FunctionTool(name, description, parameters) =>
        [ATool(Some(Or(name, "")), Some(Or(description, "")), Some(Or(parameters, codec.objectType)))] + rest
  }

  // None when a tool call's arguments are not JSON.
  function ToAnthropic<J>(codec: Codec<J>, b: Body<J>): Option<ABody<J>> {
    if !AllParse(codec, NonSystem(b.messages)) then None
    else
      Some(ABody(
        Some(Or(b.model, "")),
        ToAMessages(codec, NonSystem(b.messages)),
        Some(if b.maxTokens == None || b.maxTokens == Some(0) then DEFAULT_MAX_TOKENS else b.maxTokens.value),
        TextOrNull(JoinLines(SystemTexts(b.messages))),
        b.temperature, b.topP,
        match b.stop case NoStop => None case StopText(s) => Some([s]) case StopList(l) => Some(l),
        if b.tools == None || b.tools == Some([]) then None else Some(ToATools(codec, b.tools.value)),
        b.toolChoice, b.stream))
  }

  function TextOrNull(text: string): Content {
    if text == "" then Null else Text(text)
  }

  function NonSystem(messages: seq<Message>): seq<Message> {
    if messages == [] then []
    else if messages[0].role == "system" then NonSystem(messages[1..])
    else [messages[0]] + NonSystem(messages[1..])
  }

  // ---------------------------------------------------------------- Anthropic to OpenAI

  function BlockTexts<J>(blocks: seq<Block<J>>, onlyText: bool): seq<string> {
    if blocks == [] then []
    else
      var rest := BlockTexts(blocks[1..], onlyText);
      match blocks[0]
      case TextBlock(text) => if text == "" then rest else [text] + rest
      case OtherBlock(text) => if onlyText || text == "" then rest else [text] + rest
      case _ => rest
  }

  function BlockCalls<J>(codec: Codec<J>, blocks: seq<Block<J>>): seq<ToolCall> {
    if blocks == [] then []
    else
      var rest := BlockCalls(codec, blocks[1..]);
      match blocks[0]
      case ToolUse(id, name, input) =>
        [ToolCall(Some(Or(id, "")), Some(Or(name, "")), Some(codec.dumps(Or(input, codec.emptyObject))))] + rest
      case _ => rest
  }

  function BlockResults<J>(blocks: seq<Block<J>>): seq<Message> {
    if blocks == [] then []
    else
      var rest := BlockResults(blocks[1..]);
      match blocks[0]
      case ToolResult(id, content) => [Message("tool", Text(TextOf(content)), None, Some(Or(id, "")))] + rest
      case _ => rest
  }

  function SourceParts(source: Source): seq<Part> {
    match source
    case Base64(media, data) => [ImagePart(DataUrl.Join(media, data), None)]
    case Url(url) => [ImagePart(url, None)]
    case OtherSource => []
  }

  function BlockParts<J>(blocks: seq<Block<J>>): seq<Part> {
    if blocks == [] then []
    else
      var rest := BlockParts(blocks[1..]);
      match blocks[0]
      case TextBlock(text) => if text == "" then rest else [TextPart(text)] + rest
      case ImageBlock(source) => SourceParts(source) + rest
      case _ => rest
  }

  predicate HasUse<J>(blocks: seq<Block<J>>) { exists i :: 0 <= i < |blocks| && blocks[i].ToolUse? }

  predicate HasResult<J>(blocks: seq<Block<J>>) { exists i :: 0 <= i < |blocks| && blocks[i].ToolResult? }

  predicate HasImageBlock<J>(blocks: seq<Block<J>>) { exists i :: 0 <= i < |blocks| && blocks[i].ImageBlock? }

  function FromAMessage<J>(codec: Codec<J>, m: AMessage<J>): seq<Message> {
    match m.content
    case AText(text) => [Message(PlainRole(m.role), Text(text), None, None)]
    case ABlocks(blocks) =>
      if m.role == "assistant" && HasUse(blocks) then
        [Message("assistant", TextOrNull(JoinLines(BlockTexts(blocks, true))), Some(BlockCalls(codec, blocks)), None)]
      else if m.role == "user" && HasResult(blocks) then BlockResults(blocks)
      else if (m.role == "user" || m.role == "assistant") && HasImageBlock(blocks) then
        [Message(m.role, Parts(BlockParts(blocks)), None, None)]
      else [Message(PlainRole(m.role), Text(JoinLines(BlockTexts(blocks, false))), None, None)]
  }

  function FromAMessages<J>(codec: Codec<J>, messages: seq<AMessage<J>>): seq<Message> {
    if messages == [] then [] else FromAMessage(codec, messages[0]) + FromAMessages(codec, messages[1..])
  }

  function FromATools<J>(codec: Codec<J>, tools: seq<ATool<J>>): seq<Tool<J>> {
    if tools == [] then []
    else
      var t := tools[0];
      [FunctionTool(Some(Or(t.name, "")), Some(Or(t.description, "")), Some(Or(t.inputSchema, codec.objectType)))]
      + FromATools(codec, tools[1..])
  }

  predicate Empty(content: Content) {
    content == Null || content == Text("") || content == Parts([])
  }

  function SystemMessages(content: Content): seq<Message> {
    if Empty(content) then [] else [Message("system", Text(TextOf(content)), None, None)]
  }

  function FromAnthropic<J>(codec: Codec<J>, a: ABody<J>): Body<J> {
    Body(
      Some(Or(a.model, "")),
      SystemMessages(a.system) + FromAMessages(codec, a.messages),
      a.maxTokens, a.temperature, a.topP,
      match a.stopSequences
      case None => NoStop
      case Some(l) => if l == [] then NoStop else if |l| > 1 then StopList(l) else StopText(l[0]),
      if a.tools == None || a.tools == Some([]) then None else Some(FromATools(codec, a.tools.value)),
      a.toolChoice, a.stream)
  }

  // The round trip; None when the first direction raises.
  function N<J>(codec: Codec<J>, b: Body<J>): Option<Body<J>> {
    match ToAnthropic(codec, b) case None => None case Some(a) => Some(FromAnthropic(codec, a))
  }

  // ---------------------------------------------------------------- normal form

  // Arguments as json.dumps writes them.
  predicate CanonicalArguments<J>(codec: Codec<J>, call: ToolCall) {
    call.arguments.Some? && CallParses(codec, call)
    && codec.dumps(codec.loads(ArgumentsText(call)).value) == call.arguments.value
  }

  predicate NormalCall<J>(codec: Codec<J>, call: ToolCall) {
    call.id.Some? && call.name.Some? && CanonicalArguments(codec, call)
  }

  ghost predicate NormalPart(p: Part) {
    match p
    case TextPart(text) => text != ""
    case ImagePart(url, detail) => url != "" && detail == None && Canonical(url)
    case OtherPart(_) => false
  }

  ghost predicate NormalMessage<J>(codec: Codec<J>, m: Message) {
    if m.role == "tool" then m.content.Text? && m.toolCalls == None && m.toolCallId.Some?
    else if IsCallTurn(m) then
      && (m.content == Null || (m.content.Text? && m.content.text != ""))
      && m.toolCallId == None && (forall c :: c in m.toolCalls.value ==> NormalCall(codec, c))
    else
      && (m.role == "user" || m.role == "assistant") && m.toolCalls == None && m.toolCallId == None
      && (m.content.Text?
          || (m.content.Parts? && HasImage(m.content.parts) && forall p :: p in m.content.parts ==> NormalPart(p)))
  }

  predicate LeadingSystem(m: Message) {
    m.role == "system" && m.content.Text? && m.content.text != "" && m.toolCalls == None && m.toolCallId == None
  }

  // At most one system message, in front and not empty; all others normal.
  ghost predicate NormalMessages<J>(codec: Codec<J>, messages: seq<Message>) {
    var lead := messages != [] && messages[0].role == "system";
    && (lead ==> LeadingSystem(messages[0]))
    && forall m :: m in (if lead then messages[1..] else messages) ==> m.role != "system" && NormalMessage(codec, m)
  }

  predicate NormalTool<J(==)>(t: Tool<J>) {
    t.FunctionTool? && t.name.Some? && t.description.Some? && t.parameters.Some?
  }

  ghost predicate NormalBody<J>(codec: Codec<J>, b: Body<J>) {
    && b.model.Some?
    && NormalMessages(codec, b.messages)
    && b.maxTokens.Some? && b.maxTokens != Some(0)
    && (b.stop.StopList? ==> |b.stop.texts| > 1)
    && (b.tools.Some? ==> b.tools.value != [] && forall t :: t in b.tools.value ==> NormalTool(t))
  }

  // The data URLs that reach the other side are clean.
  predicate CleanMessage(m: Message) {
    m.role == "system" || m.role == "tool" || IsCallTurn(m)
    || forall p :: p in ContentParts(m.content) && p.ImagePart? ==> Clean(p.url)
  }

  predicate CleanBody<J>(b: Body<J>) {
    forall m :: m in b.messages ==> CleanMessage(m)
  }
}
