/**
 The Gemini content loops of app/services/translate.py.  Gemini has no call
 ids: a call travels under its function name, a result under its call id.  The
 round trip is proved to keep the ids exactly when the two coincide, and to leave
 a transcript well paired exactly when every result carries the name of a
 function called before.
 */
module Gemini {
  import opened Wrappers
  import opened DataUrl
  import opened Translate
  import opened ToolPairing

  datatype GPart<J> =
    | GText(text: string)
    | GInline(mime: string, data: string)
    | GFile(uri: string)
    | GCall(name: string, args: J)
    | GResponse(name: string, response: J)

  datatype GContent<J> = GContent(role: string, parts: seq<GPart<J>>)

  // ---------------------------------------------------------------- OpenAI to Gemini

  function GImage<J>(url: string): GPart<J> {
    match ToSource(url)
    case Base64(media, data) => GInline(media, data)
    case Url(u) => GFile(u)
    case OtherSource => GFile("")
  }

  function GParts<J>(parts: seq<Part>): seq<GPart<J>> {
    if parts == [] then []
    else
      var rest := GParts(parts[1..]);
      match parts[0]
      case TextPart(text) => [GText(text)] + rest
      case ImagePart(url, _) => [GImage(url)] + rest
      case OtherPart(_) => rest
  }

  function GCalls<J>(codec: Codec<J>, calls: seq<ToolCall>): seq<GPart<J>>
    requires forall c :: c in calls ==> CallParses(codec, c)
  {
    if calls == [] then []
    else
      assert calls[0] in calls && CallParses(codec, calls[0]);
      [GCall(Or(calls[0].name, ""), codec.loads(ArgumentsText(calls[0])).value)] + GCalls(codec, calls[1..])
  }

  function ResponseName(id: Option<string>): string {
    if Or(id, "") == "" then "function_result" else id.value
  }

  // `wrap` builds the response object around a result text.
  function ToGContent<J>(codec: Codec<J>, wrap: string -> J, m: Message): GContent<J>
    requires MessageParses(codec, m)
  {
    if m.role == "tool" then GContent("user", [GResponse(ResponseName(m.toolCallId), wrap(TextOf(m.content)))])
    else if IsCallTurn(m) then
      var text := TextOf(m.content);
      GContent("model", (if text == "" then [] else [GText(text)]) + GCalls(codec, m.toolCalls.value))
    else GContent(if m.role == "user" then "user" else "model", GParts(ContentParts(m.content)))
  }

  function ToGContents<J>(codec: Codec<J>, wrap: string -> J, messages: seq<Message>): seq<GContent<J>>
    requires AllParse(codec, messages)
  {
    if messages == [] then []
    else [ToGContent(codec, wrap, messages[0])] + ToGContents(codec, wrap, messages[1..])
  }

  // ---------------------------------------------------------------- Gemini to OpenAI

  // The messages the parts of one content are turned into as they are met.
  function ToolMessages<J>(codec: Codec<J>, parts: seq<GPart<J>>): seq<Message> {
    if parts == [] then []
    else
      var rest := ToolMessages(codec, parts[1..]);
      match parts[0]
      case GCall(name, args) =>
        [Message("assistant", Null, Some([ToolCall(Some(name), Some(name), Some(codec.dumps(args)))]), None)] + rest
      case GResponse(name, response) => [Message("tool", Text(codec.dumps(response)), None, Some(name))] + rest
      case _ => rest
  }

  function Texts<J>(parts: seq<GPart<J>>): seq<string> {
    if parts == [] then []
    else
      var rest := Texts(parts[1..]);
      match parts[0] case GText(text) => [text] + rest case _ => rest
  }

  function Images<J>(parts: seq<GPart<J>>): seq<Part> {
    if parts == [] then []
    else
      var rest := Images(parts[1..]);
      match parts[0]
      case GInline(mime, data) => [ImagePart(DataUrl.Join(mime, data), None)] + rest
      case GFile(uri) => [ImagePart(uri, None)] + rest
      case _ => rest
  }

  // The text and image message that follows them, if any.
  function PlainMessage<J>(c: GContent<J>): seq<Message> {
    var role := if c.role == "user" then "user" else "assistant";
    var texts, images := Texts(c.parts), Images(c.parts);
    if texts == [] && images == [] then []
    else if images == [] then [Message(role, Text(JoinLines(texts)), None, None)]
    else
      var text := if texts == [] then [] else [TextPart(JoinLines(texts))];
      [Message(role, Parts(text + images), None, None)]
  }

  function FromGContents<J>(codec: Codec<J>, contents: seq<GContent<J>>): seq<Message> {
    if contents == [] then []
    else
      ToolMessages(codec, contents[0].parts) + PlainMessage(contents[0]) + FromGContents(codec, contents[1..])
  }

  // ---------------------------------------------------------------- one message through Gemini

  function ImagesOf(parts: seq<Part>): seq<Part> {
    if parts == [] then []
    else (if parts[0].ImagePart? then [ImagePart(Normal(parts[0].url), None)] else []) + ImagesOf(parts[1..])
  }

  function TextsOf(parts: seq<Part>): seq<string> {
    if parts == [] then []
    else (if parts[0].TextPart? then [parts[0].text] else []) + TextsOf(parts[1..])
  }

  lemma {:induction false} PlainPartsBack<J>(codec: Codec<J>, parts: seq<Part>)
    ensures var out := GParts<J>(parts);
            Texts(out) == TextsOf(parts) && Images(out) == ImagesOf(parts) && ToolMessages(codec, out) == []
  {
    if parts != [] {
      var rest := GParts<J>(parts[1..]);
      PlainPartsBack(codec, parts[1..]);
      match parts[0]
      case TextPart(text) => PlainPartInFront(codec, GText(text), rest);
      case ImagePart(url, _) =>
        PlainPartInFront(codec, GImage(url), rest);
      case OtherPart(_) =>
    }
  }

  lemma {:induction false} PlainPartInFront<J>(codec: Codec<J>, part: GPart<J>, rest: seq<GPart<J>>)
    requires part.GText? || part.GInline? || part.GFile?
    ensures var out := [part] + rest;
            && Texts(out) == (if part.GText? then [part.text] else []) + Texts(rest)
            && Images(out) == (match part
                               case GInline(mime, data) => [ImagePart(DataUrl.Join(mime, data), None)]
                               case GFile(uri) => [ImagePart(uri, None)]
                               case _ => []) + Images(rest)
            && ToolMessages(codec, out) == ToolMessages(codec, rest)
  {
    assert ([part] + rest)[1..] == rest;
  }

  // A turn without tools comes back as one message of its side, its texts
  // joined in front and its images behind them in order, or not at all when it
  // has neither.
  lemma {:induction false} PlainTurnThroughGemini<J>(codec: Codec<J>, wrap: string -> J, m: Message)
    requires m.role != "tool" && !IsCallTurn(m)
    ensures var c, parts := ToGContent(codec, wrap, m), ContentParts(m.content);
            var texts, images := TextsOf(parts), ImagesOf(parts);
            var role := if m.role == "user" then "user" else "assistant";
            && ToolMessages(codec, c.parts) == []
            && PlainMessage(c) ==
               if texts == [] && images == [] then []
               else if images == [] then [Message(role, Text(JoinLines(texts)), None, None)]
               else
                 var text := if texts == [] then [] else [TextPart(JoinLines(texts))];
                 [Message(role, Parts(text + images), None, None)]
  {
    PlainPartsBack(codec, ContentParts(m.content));
  }

  // One message for a call, known by its function name.
  function CallMessage<J>(codec: Codec<J>, call: ToolCall): Message
    requires CallParses(codec, call)
  {
    var name, args := Some(Or(call.name, "")), codec.loads(ArgumentsText(call)).value;
    Message("assistant", Null, Some([ToolCall(name, name, Some(codec.dumps(args)))]), None)
  }

  function CallMessages<J>(codec: Codec<J>, calls: seq<ToolCall>): (r: seq<Message>)
    requires forall c :: c in calls ==> CallParses(codec, c)
    ensures |r| == |calls|
  {
    if calls == [] then []
    else
      assert calls[0] in calls;
      [CallMessage(codec, calls[0])] + CallMessages(codec, calls[1..])
  }

  lemma {:induction false} CallPartsBack<J>(codec: Codec<J>, calls: seq<ToolCall>)
    requires forall c :: c in calls ==> CallParses(codec, c)
    ensures var out := GCalls(codec, calls);
            ToolMessages(codec, out) == CallMessages(codec, calls) && Texts(out) == [] && Images(out) == []
  {
    if calls != [] {
      assert calls[0] in calls;
      CallPartsBack(codec, calls[1..]);
      assert GCalls(codec, calls)[1..] == GCalls(codec, calls[1..]);
    }
  }

  // A turn with calls comes back as one message for each of them, in order, and
  // its text, if any, in a message of its own behind them.
  lemma {:induction false} CallTurnThroughGemini<J>(codec: Codec<J>, wrap: string -> J, m: Message)
    requires m.role != "tool" && IsCallTurn(m) && MessageParses(codec, m)
    ensures var c, text := ToGContent(codec, wrap, m), TextOf(m.content);
            && ToolMessages(codec, c.parts) == CallMessages(codec, m.toolCalls.value)
            && PlainMessage(c) == if text == "" then [] else [Message("assistant", Text(text), None, None)]
  {
    var text := TextOf(m.content);
    var calls := GCalls(codec, m.toolCalls.value);
    var first: GPart<J> := GText(text);
    CallPartsBack(codec, m.toolCalls.value);
    assert ([first] + calls)[1..] == calls && [] + calls == calls;
    assert Texts([first] + calls) == [text] && Images([first] + calls) == [];
    assert ToolMessages(codec, [first] + calls) == ToolMessages(codec, calls);
  }

  // The result of a tool comes back as the JSON text of the object it was
  // wrapped in.
  lemma {:induction false} ToolTurnThroughGemini<J>(codec: Codec<J>, wrap: string -> J, m: Message)
    requires m.role == "tool"
    ensures var c := ToGContent(codec, wrap, m);
            ToolMessages(codec, c.parts) + PlainMessage(c) ==
            [Message("tool", Text(codec.dumps(wrap(TextOf(m.content)))), None, Some(ResponseName(m.toolCallId)))]
  {
    var parts := ToGContent(codec, wrap, m).parts;
    assert parts[1..] == [] && ToolMessages(codec, parts[1..]) == [];
    assert Texts(parts[1..]) == [] && Images(parts[1..]) == [];
  }

  // ---------------------------------------------------------------- ids

  function NameEvents(calls: seq<ToolCall>): (r: seq<Event>)
    ensures |r| == |calls|
  {
    if calls == [] then [] else [Call(Or(calls[0].name, ""))] + NameEvents(calls[1..])
  }

  // What one message's calls and answers are called after the round trip.
  function Renamed(m: Message): seq<Event> {
    if m.role == "tool" then [Answer(ResponseName(m.toolCallId))]
    else if IsCallTurn(m) then NameEvents(m.toolCalls.value)
    else []
  }

  lemma {:induction false} CallMessagesEvents<J>(codec: Codec<J>, calls: seq<ToolCall>)
    requires forall c :: c in calls ==> CallParses(codec, c)
    ensures OpenAIEvents(CallMessages(codec, calls)) == NameEvents(calls)
  {
    if calls != [] {
      assert calls[0] in calls;
      CallMessagesEvents(codec, calls[1..]);
      var first := CallMessage(codec, calls[0]);
      OneCallEvent(first.toolCalls.value[0]);
      OpenAIEventsConcat([first], CallMessages(codec, calls[1..]));
      OneEvent(first);
    }
  }

  lemma {:induction false} OneCallEvent(call: ToolCall)
    ensures CallEvents([call]) == [Call(Or(call.id, ""))]
  {
  }

  lemma {:induction false} PlainMessageHasNoEvents<J>(c: GContent<J>)
    ensures OpenAIEvents(PlainMessage(c)) == []
  {
  }

  lemma {:induction false} OneThroughGemini<J>(codec: Codec<J>, wrap: string -> J, m: Message)
    requires MessageParses(codec, m)
    ensures OpenAIEvents(ToolMessages(codec, ToGContent(codec, wrap, m).parts)) == Renamed(m)
  {
    if m.role == "tool" {
      var parts := ToGContent(codec, wrap, m).parts;
      assert parts[1..] == [] && ToolMessages(codec, parts[1..]) == [];
      OneEvent(ToolMessages(codec, parts)[0]);
    } else if IsCallTurn(m) {
      CallTurnThroughGemini(codec, wrap, m);
      CallMessagesEvents(codec, m.toolCalls.value);
    } else {
      PlainPartsBack(codec, ContentParts(m.content));
    }
  }

  function AllRenamed(messages: seq<Message>): seq<Event> {
    if messages == [] then [] else Renamed(messages[0]) + AllRenamed(messages[1..])
  }

  lemma {:induction false} OneContentEvents<J>(codec: Codec<J>, wrap: string -> J, m: Message, c: GContent<J>)
    requires MessageParses(codec, m) && c == ToGContent(codec, wrap, m)
    ensures OpenAIEvents(ToolMessages(codec, c.parts) + PlainMessage(c)) == Renamed(m)
  {
    OneThroughGemini(codec, wrap, m);
    PlainMessageHasNoEvents(c);
    hide OpenAIEvents, Renamed, ToolMessages, PlainMessage, ToGContent, MessageParses;
    OpenAIEventsConcat(ToolMessages(codec, c.parts), PlainMessage(c));
  }

  // Through Gemini and back, every call is known by its function name and every
  // result by its call id, in the order of the transcript.
  lemma {:induction false} GeminiRenamesCalls<J>(codec: Codec<J>, wrap: string -> J, messages: seq<Message>)
    requires AllParse(codec, messages)
    ensures OpenAIEvents(FromGContents(codec, ToGContents(codec, wrap, messages))) == AllRenamed(messages)
  {
    hide OpenAIEvents, Renamed, ToolMessages, PlainMessage, ToGContent, MessageParses;
    if messages == [] {
      NoMessagesNoEvents();
    } else {
      assert messages[0] in messages;
      var c, contents := ToGContent(codec, wrap, messages[0]), ToGContents(codec, wrap, messages);
      assert contents[0] == c && contents[1..] == ToGContents(codec, wrap, messages[1..]);
      OneContentEvents(codec, wrap, messages[0], c);
      GeminiRenamesCalls(codec, wrap, messages[1..]);
      OpenAIEventsConcat(ToolMessages(codec, c.parts) + PlainMessage(c), FromGContents(codec, contents[1..]));
    }
  }

  lemma {:induction false} NoMessagesNoEvents()
    ensures OpenAIEvents([]) == []
  {
  }

  // The id of every call is its function name, and every result has an id.
  predicate NamedByFunction(m: Message) {
    && CallsInPlace(m)
    && (m.toolCalls.Some? ==> forall c :: c in m.toolCalls.value ==> Or(c.id, "") == Or(c.name, ""))
    && (m.role == "tool" ==> Or(m.toolCallId, "") != "")
  }

  lemma {:induction false} SameNames(calls: seq<ToolCall>)
    ensures NameEvents(calls) == CallEvents(calls) <==> forall c :: c in calls ==> Or(c.id, "") == Or(c.name, "")
  {
    if calls != [] {
      SameNames(calls[1..]);
      assert calls == [calls[0]] + calls[1..];
      assert NameEvents(calls)[1..] == NameEvents(calls[1..]) && CallEvents(calls)[1..] == CallEvents(calls[1..]);
    }
  }

  lemma {:induction false} RenamedIffNamed(m: Message)
    ensures |Renamed(m)| <= |MessageEvents(m)|
    ensures Renamed(m) == MessageEvents(m) <==> NamedByFunction(m)
  {
    var calls := if m.toolCalls.Some? then m.toolCalls.value else [];
    SameNames(calls);
    var answers := if m.role == "tool" then [Answer(Or(m.toolCallId, ""))] else [];
    assert MessageEvents(m) == CallEvents(calls) + answers;
    assert calls == [] ==> CallEvents(calls) == [] && [] + answers == answers;
    assert answers == [] ==> CallEvents(calls) + answers == CallEvents(calls);
  }

  // So the ids survive Gemini exactly when calls are identified by their
  // function names.
  lemma {:induction false} GeminiKeepsEventsIffNamedByFunction<J>(
    codec: Codec<J>, wrap: string -> J, messages: seq<Message>)
    requires AllParse(codec, messages)
    ensures OpenAIEvents(FromGContents(codec, ToGContents(codec, wrap, messages))) == OpenAIEvents(messages)
            <==> forall m :: m in messages ==> NamedByFunction(m)
  {
    GeminiRenamesCalls(codec, wrap, messages);
    hide FromGContents, ToGContents;
    RenamedThroughout(messages);
  }

  lemma {:induction false} RenamedThroughout(messages: seq<Message>)
    ensures |AllRenamed(messages)| <= |OpenAIEvents(messages)|
    ensures AllRenamed(messages) == OpenAIEvents(messages) <==> forall m :: m in messages ==> NamedByFunction(m)
  {
    if messages != [] {
      RenamedIffNamed(messages[0]);
      RenamedThroughout(messages[1..]);
      SplitEqual(Renamed(messages[0]), AllRenamed(messages[1..]),
                 MessageEvents(messages[0]), OpenAIEvents(messages[1..]));
      assert messages == [messages[0]] + messages[1..];
      hide Renamed, MessageEvents, NamedByFunction;
    }
  }

  // ---------------------------------------------------------------- pairing

  // Some turn calls the function `name`.
  predicate CallsFunction(messages: seq<Message>, name: string) {
    exists m, c :: m in messages && IsCallTurn(m) && c in m.toolCalls.value && Or(c.name, "") == name
  }

  // Every result carries the name of a function called before it.
  predicate AnsweredByName(messages: seq<Message>) {
    forall j :: 0 <= j < |messages| && messages[j].role == "tool" ==>
      CallsFunction(messages[..j], ResponseName(messages[j].toolCallId))
  }

  // A transcript comes back from Gemini well paired exactly when every result
  // carries the name of a function called before it, whatever the calls' ids.
  lemma {:induction false} GeminiKeepsPairingIffAnsweredByName<J>(
    codec: Codec<J>, wrap: string -> J, messages: seq<Message>)
    requires AllParse(codec, messages)
    ensures WellPaired(OpenAIEvents(FromGContents(codec, ToGContents(codec, wrap, messages))))
            <==> AnsweredByName(messages)
  {
    GeminiRenamesCalls(codec, wrap, messages);
    hide FromGContents, ToGContents;
    RenamedPairsIff(messages);
  }

  lemma {:induction false} RenamedPairsIff(messages: seq<Message>)
    ensures WellPaired(AllRenamed(messages)) <==> AnsweredByName(messages)
  {
    if messages != [] {
      var before, last := messages[..|messages| - 1], messages[|messages| - 1];
      assert messages == before + [last];
      RenamedPairsIff(before);
      RenamedAppend(before, last);
      AnsweredAppend(before, last);
      if last.role == "tool" {
        var name := ResponseName(last.toolCallId);
        PairedWithAnswer(AllRenamed(before), name);
        RenamedHasCall(before, name);
      } else {
        OnlyCalls(last);
        PairedWithCalls(AllRenamed(before), Renamed(last));
      }
      hide WellPaired, AnsweredByName, CallsFunction;
    }
  }

  lemma {:induction false} RenamedAppend(messages: seq<Message>, m: Message)
    ensures AllRenamed(messages + [m]) == AllRenamed(messages) + Renamed(m)
  {
    hide Renamed;
    if messages == [] {
      assert [] + [m] == [m];
    } else {
      assert (messages + [m])[1..] == messages[1..] + [m];
      RenamedAppend(messages[1..], m);
    }
  }

  lemma {:induction false} AnsweredAppend(messages: seq<Message>, m: Message)
    ensures AnsweredByName(messages + [m]) <==>
            AnsweredByName(messages) && (m.role == "tool" ==> CallsFunction(messages, ResponseName(m.toolCallId)))
  {
    hide CallsFunction;
    var all := messages + [m];
    assert all[..|messages|] == messages && all[|messages|] == m;
    assert forall j :: 0 <= j < |messages| ==> all[j] == messages[j] && all[..j] == messages[..j];
  }

  lemma {:induction false} PairedWithAnswer(events: seq<Event>, name: string)
    ensures WellPaired(events + [Answer(name)]) <==> WellPaired(events) && Call(name) in events
  {
    var all := events + [Answer(name)];
    assert forall i :: 0 <= i < |events| ==> all[i] == events[i];
    assert all[|events|] == Answer(name);
  }

  lemma {:induction false} PairedWithCalls(events: seq<Event>, calls: seq<Event>)
    requires forall e :: e in calls ==> e.Call?
    ensures WellPaired(events + calls) <==> WellPaired(events)
  {
    var all := events + calls;
    assert forall i :: 0 <= i < |events| ==> all[i] == events[i];
    assert forall i :: |events| <= i < |all| ==> all[i] == calls[i - |events|] && all[i] in calls;
  }

  lemma {:induction false} OnlyCalls(m: Message)
    requires m.role != "tool"
    ensures forall e :: e in Renamed(m) ==> e.Call?
  {
    if IsCallTurn(m) {
      forall e | e in Renamed(m) ensures e.Call? { NameEventsHave(m.toolCalls.value, e); }
    }
  }

  lemma {:induction false} NameEventsHave(calls: seq<ToolCall>, e: Event)
    ensures e in NameEvents(calls) <==> e.Call? && exists c :: c in calls && Or(c.name, "") == e.id
  {
    if calls != [] {
      NameEventsHave(calls[1..], e);
      assert calls == [calls[0]] + calls[1..];
    }
  }

  lemma {:induction false} RenamedHasCall(messages: seq<Message>, name: string)
    ensures Call(name) in AllRenamed(messages) <==> CallsFunction(messages, name)
  {
    if messages != [] {
      var m := messages[0];
      RenamedHasCall(messages[1..], name);
      assert messages == [m] + messages[1..];
      if IsCallTurn(m) { NameEventsHave(m.toolCalls.value, Call(name)); }
    }
  }

  // A call with an id of its own, answered under that id, comes back unpaired.
  lemma {:induction false} GeminiUnpairsOrdinaryIds<J>(
    codec: Codec<J>, wrap: string -> J, call: Message, answer: Message)
    requires call.role == "assistant" && call.toolCalls == Some([ToolCall(Some("c1"), Some("weather"), None)])
    requires answer.role == "tool" && answer.toolCallId == Some("c1") && answer.toolCalls == None
    requires AllParse(codec, [call, answer])
    ensures WellPaired(OpenAIEvents([call, answer]))
    ensures !WellPaired(OpenAIEvents(FromGContents(codec, ToGContents(codec, wrap, [call, answer]))))
  {
    var messages := [call, answer];
    GeminiKeepsPairingIffAnsweredByName(codec, wrap, messages);
    hide FromGContents, ToGContents, AllParse;
    assert messages[1] == answer && messages[..1] == [call];
    assert |"weather"| == 7 && |"c1"| == 2;
    OneEvent(call);
    OneEvent(answer);
    OneCallEvent(call.toolCalls.value[0]);
    OpenAIEventsConcat([call], [answer]);
    assert [call] + [answer] == messages;
    var events := OpenAIEvents(messages);
    assert events == [Call("c1"), Answer("c1")];
    assert events[0] == Call(events[1].id);
  }
}
