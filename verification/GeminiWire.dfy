/**
 What the Gemini content loops of app/services/translate.py put on the wire, one
 direction at a time, in the manner of WireForms.
 */
module GeminiWire {
  import opened Wrappers
  import opened DataUrl
  import opened Translate
  import opened WireForms
  import Gemini
  import GeminiLoops

  // ---------------------------------------------------------------- OpenAI to Gemini

  // A text as a text part, a data URL as inline data, any other URL as a file.
  ghost predicate PartsAnswer<J>(parts: seq<Gemini.GPart<J>>, kept: seq<Part>) {
    && |parts| == |kept|
    && forall k :: 0 <= k < |kept| ==>
         (kept[k].TextPart? ==> parts[k] == Gemini.GText(kept[k].text))
         && (kept[k].ImagePart? ==> ImageAnswers(parts[k], kept[k].url))
  }

  ghost predicate ImageAnswers<J>(part: Gemini.GPart<J>, url: string) {
    && (!("data:" <= url) ==> part == Gemini.GFile(url))
    && forall media, parameters, rest :: IsDataUrl(url, media, parameters, rest) ==>
         part == Gemini.GInline(if RemoveMarks(media) == "" then "image/png" else RemoveMarks(media),
                                if rest == "" then "" else rest[1..])
  }

  lemma {:induction false} PartsAnswerKept<J>(parts: seq<Part>)
    requires forall p :: p in parts ==> !p.OtherPart?
    ensures PartsAnswer(Gemini.GParts<J>(parts), parts)
  {
    if parts != [] {
      assert parts[0] in parts;
      PartsAnswerKept<J>(parts[1..]);
      if parts[0].ImagePart? { ImageOnWire<J>(parts[0].url); }
      assert Gemini.GParts<J>(parts)[1..] == Gemini.GParts<J>(parts[1..]);
      hide ImageAnswers, Gemini.GImage, ToSource;
    }
  }

  lemma {:induction false} ImageOnWire<J>(url: string)
    ensures ImageAnswers(Gemini.GImage<J>(url), url)
  {
    SourceOnWire(url);
    hide ToSource, RemoveMarks;
  }

  ghost predicate CallsAnswer<J>(codec: Codec<J>, parts: seq<Gemini.GPart<J>>, calls: seq<ToolCall>) {
    && |parts| == |calls|
    && forall k :: 0 <= k < |calls| ==>
         var text := match calls[k].arguments case None => "{}" case Some(s) => if s == "" then "{}" else s;
         && parts[k].GCall? && parts[k].name == (match calls[k].name case None => "" case Some(name) => name)
         && codec.loads(text) == Some(parts[k].args)
  }

  lemma {:induction false} CallsAnswerCalls<J>(codec: Codec<J>, calls: seq<ToolCall>)
    requires forall c :: c in calls ==> CallParses(codec, c)
    ensures CallsAnswer(codec, Gemini.GCalls(codec, calls), calls)
  {
    if calls != [] {
      assert calls[0] in calls;
      CallsAnswerCalls(codec, calls[1..]);
      assert Gemini.GCalls(codec, calls)[1..] == Gemini.GCalls(codec, calls[1..]);
    }
  }

  // What a Gemini content carries: a result under its call's id, or a stock name
  // without one; the text of a call turn in front of its calls; and otherwise
  // the texts and images one by one, on the user's side for users only.
  lemma {:induction false} ContentOnWire<J>(codec: Codec<J>, wrap: string -> J, m: Message)
    requires m.role != "system" && MessageParses(codec, m)
    ensures var c, text := Gemini.ToGContent(codec, wrap, m), TextOf(m.content);
            if m.role == "tool" then
              var name := match m.toolCallId
                          case None => "function_result" case Some(id) => if id == "" then "function_result" else id;
              c == Gemini.GContent("user", [Gemini.GResponse(name, wrap(text))])
            else if m.role == "assistant" && m.toolCalls.Some? && m.toolCalls.value != [] then
              var front: seq<Gemini.GPart<J>> := if text == "" then [] else [Gemini.GText(text)];
              c.role == "model" && front <= c.parts && CallsAnswer(codec, c.parts[|front|..], m.toolCalls.value)
            else c.role == (if m.role == "user" then "user" else "model") && PartsAnswer(c.parts, Kept(m.content))
  {
    if m.role == "tool" {
    } else if IsCallTurn(m) {
      CallsAnswerCalls(codec, m.toolCalls.value);
      hide Gemini.GCalls, CallsAnswer, CallParses, TextOf;
      var text := TextOf(m.content);
      var front: seq<Gemini.GPart<J>> := if text == "" then [] else [Gemini.GText(text)];
      var calls := Gemini.GCalls(codec, m.toolCalls.value);
      assert (front + calls)[|front|..] == calls;
    } else {
      ContentPartsAreKept(m.content);
      PartsAnswerKept<J>(Kept(m.content));
      hide Gemini.GParts, PartsAnswer, Kept, ContentParts;
    }
  }

  // ---------------------------------------------------------------- Gemini to OpenAI

  // The messages of the calls and results among the parts, in order.
  ghost function ToolsBack<J>(codec: Codec<J>, parts: seq<Gemini.GPart<J>>): seq<Message> {
    if parts == [] then []
    else
      var n := |parts| - 1;
      ToolsBack(codec, parts[..n])
      + match parts[n]
        case GCall(name, args) =>
          [Message("assistant", Null, Some([ToolCall(Some(name), Some(name), Some(codec.dumps(args)))]), None)]
        case GResponse(name, response) => [Message("tool", Text(codec.dumps(response)), None, Some(name))]
        case _ => []
  }

  ghost function TextsBack<J>(parts: seq<Gemini.GPart<J>>): seq<string> {
    if parts == [] then []
    else
      var n := |parts| - 1;
      TextsBack(parts[..n]) + match parts[n] case GText(text) => [text] case _ => []
  }

  ghost function ImagesBack<J>(parts: seq<Gemini.GPart<J>>): seq<Part> {
    if parts == [] then []
    else
      var n := |parts| - 1;
      ImagesBack(parts[..n])
      + match parts[n]
        case GInline(mime, data) => [ImagePart("data:" + mime + ";base64," + data, None)]
        case GFile(uri) => [ImagePart(uri, None)]
        case _ => []
  }

  lemma {:induction false} PartsComeBack<J>(codec: Codec<J>, parts: seq<Gemini.GPart<J>>)
    ensures Gemini.ToolMessages(codec, parts) == ToolsBack(codec, parts)
    ensures Gemini.Texts(parts) == TextsBack(parts)
    ensures Gemini.Images(parts) == ImagesBack(parts)
  {
    if parts != [] {
      var n := |parts| - 1;
      assert parts == parts[..n] + [parts[n]];
      PartsComeBack(codec, parts[..n]);
      GeminiLoops.PartStep(codec, parts[..n], parts[n]);
      if parts[n].GInline? {
        assert DataUrl.Join(parts[n].mime, parts[n].data) == "data:" + parts[n].mime + ";base64," + parts[n].data;
      }
      hide Gemini.ToolMessages, Gemini.Texts, Gemini.Images;
    }
  }

  // What any Gemini content comes back as: a message for every call and result,
  // and behind them one with all texts joined in front of all images, if there
  // are any.
  lemma {:induction false} ContentFromWire<J>(codec: Codec<J>, c: Gemini.GContent<J>)
    ensures Gemini.ToolMessages(codec, c.parts) == ToolsBack(codec, c.parts)
    ensures var texts, images := TextsBack(c.parts), ImagesBack(c.parts);
            var role := if c.role == "user" then "user" else "assistant";
            Gemini.PlainMessage(c) ==
            if texts == [] && images == [] then []
            else if images == [] then [Message(role, Text(Lined(texts)), None, None)]
            else if texts == [] then [Message(role, Parts(images), None, None)]
            else [Message(role, Parts([TextPart(Lined(texts))] + images), None, None)]
  {
    PartsComeBack(codec, c.parts);
    JoinIsLined(TextsBack(c.parts));
    hide Gemini.ToolMessages, Gemini.Texts, Gemini.Images, TextsBack, ImagesBack, ToolsBack, JoinLines, Lined;
    assert forall images: seq<Part> :: [] + images == images;
  }
}
