/**
 The server-sent event framing between app/api/v1/admin_routes.py, which prints
 events, and web/src/lib/api.ts, which reads them back from a stream cut into
 arbitrary chunks.

 Both readers are proved to compute a function of the whole text, so where the
 chunks were cut cannot be observed; on printed text that function gives back
 the printed events.  A chunk here is already decoded text.
 */
module SseReader {
  import opened Wrappers

  // ---------------------------------------------------------------- lines

  // JavaScript's `s.split('\n')`.
  function Split(s: string): (parts: seq<string>)
    ensures |parts| > 0
  {
    if s == "" then [""]
    else
      var rest := Split(s[1..]);
      if s[0] == '\n' then [""] + rest else [[s[0]] + rest[0]] + rest[1..]
  }

  // The newline-terminated lines of a text, and what follows the last newline.
  function Lines(s: string): seq<string> {
    Split(s)[..|Split(s)| - 1]
  }

  function Rest(s: string): string {
    Split(s)[|Split(s)| - 1]
  }

  ghost function Unlines(lines: seq<string>): string {
    if lines == [] then "" else lines[0] + "\n" + Unlines(lines[1..])
  }

  ghost function Concat(chunks: seq<string>): string {
    if chunks == [] then "" else chunks[0] + Concat(chunks[1..])
  }

  // `Lines` and `Rest` one character at a time.
  lemma {:induction false} LinesStep(s: string)
    requires s != ""
    ensures var c, lines, rest := s[0], Lines(s[1..]), Rest(s[1..]);
            if c == '\n' then Lines(s) == [""] + lines && Rest(s) == rest
            else if lines == [] then Lines(s) == [] && Rest(s) == [c] + rest
            else Lines(s) == [[c] + lines[0]] + lines[1..] && Rest(s) == rest
  {
  }

  // `Lines` and `Rest` cut a text at its newlines and lose nothing.
  lemma {:induction false} LinesAndRest(s: string)
    ensures Unlines(Lines(s)) + Rest(s) == s
    ensures '\n' !in Rest(s) && forall l :: l in Lines(s) ==> '\n' !in l
  {
    if s != "" {
      LinesStep(s);
      LinesAndRest(s[1..]);
      hide Lines, Rest;
      var c, lines, rest := s[0], Lines(s[1..]), Rest(s[1..]);
      assert s == [c] + s[1..];
      if c == '\n' {
        LineInFront("", lines, rest);
      } else if lines != [] {
        LineInFront([c] + lines[0], lines[1..], rest);
        LineInFront(lines[0], lines[1..], rest);
        assert [lines[0]] + lines[1..] == lines;
      }
    }
  }

  lemma {:induction false} LineInFront(line: string, lines: seq<string>, rest: string)
    ensures Unlines([line] + lines) + rest == line + "\n" + (Unlines(lines) + rest)
    ensures forall l :: l in [line] + lines <==> l == line || l in lines
  {
  }

  // A line without a newline in it is read back as the first line.
  lemma {:induction false} LineFirst(l: string, s: string)
    requires '\n' !in l
    ensures Lines(l + "\n" + s) == [l] + Lines(s) && Rest(l + "\n" + s) == Rest(s)
  {
    var t := l + "\n" + s;
    LinesStep(t);
    if l == "" {
      assert t[1..] == s;
    } else {
      assert t[1..] == l[1..] + "\n" + s;
      LineFirst(l[1..], s);
      assert [l[0]] + l[1..] == l;
    }
  }

  lemma {:induction false} NoNewline(s: string)
    requires '\n' !in s
    ensures Lines(s) == [] && Rest(s) == s
  {
    if s != "" {
      LinesStep(s);
      NoNewline(s[1..]);
      assert [s[0]] + s[1..] == s;
    }
  }

  // They are the only way to do so.
  lemma {:induction false} LinesAreUnique(lines: seq<string>, rest: string)
    requires '\n' !in rest && forall l :: l in lines ==> '\n' !in l
    ensures Lines(Unlines(lines) + rest) == lines && Rest(Unlines(lines) + rest) == rest
  {
    if lines == [] {
      NoNewline(rest);
      assert "" + rest == rest;
    } else {
      var tail := Unlines(lines[1..]) + rest;
      LinesAreUnique(lines[1..], rest);
      LineFirst(lines[0], tail);
      assert Unlines(lines) + rest == lines[0] + "\n" + tail;
    }
  }

  lemma {:induction false} UnlinesAppend(a: seq<string>, b: seq<string>)
    ensures Unlines(a + b) == Unlines(a) + Unlines(b)
  {
    if a == [] {
      assert a + b == b;
    } else {
      assert (a + b)[1..] == a[1..] + b;
      UnlinesAppend(a[1..], b);
    }
  }

  // Reading on from the unfinished line gives the lines of the longer text.
  lemma {:induction false} LinesOfMoreText(seen: string, chunk: string)
    ensures Lines(seen + chunk) == Lines(seen) + Lines(Rest(seen) + chunk)
    ensures Rest(seen + chunk) == Rest(Rest(seen) + chunk)
  {
    hide Lines, Rest;
    LinesAndRest(seen);
    var more := Rest(seen) + chunk;
    LinesAndRest(more);
    var lines := Lines(seen) + Lines(more);
    UnlinesAppend(Lines(seen), Lines(more));
    assert seen + chunk == Unlines(Lines(seen)) + more == Unlines(lines) + Rest(more);
    LinesAreUnique(lines, Rest(more));
  }

  lemma {:induction false} ConcatAppend(chunks: seq<string>, chunk: string)
    ensures Concat(chunks + [chunk]) == Concat(chunks) + chunk
  {
    if chunks == [] {
      assert chunks + [chunk] == [chunk];
    } else {
      assert (chunks + [chunk])[1..] == chunks[1..] + [chunk];
      ConcatAppend(chunks[1..], chunk);
    }
  }

  // ---------------------------------------------------------------- fields

  // The characters `String.prototype.trim` removes.
  predicate IsSpace(c: char) {
    || c in {'\t', '\n', '\U{000B}', '\U{000C}', '\r', ' ', '\U{00A0}', '\U{1680}', '\U{FEFF}'}
    || '\U{2000}' <= c <= '\U{200A}'
    || c in {'\U{2028}', '\U{2029}', '\U{202F}', '\U{205F}', '\U{3000}'}
  }

  function TrimStart(s: string): string {
    if s != "" && IsSpace(s[0]) then TrimStart(s[1..]) else s
  }

  function TrimEnd(s: string): string {
    if s != "" && IsSpace(s[|s| - 1]) then TrimEnd(s[..|s| - 1]) else s
  }

  function Trim(s: string): string {
    TrimEnd(TrimStart(s))
  }

  // The payload of a data line; None for every other line.
  function Payload(line: string): Option<string> {
    var trimmed := Trim(line);
    if "data:" <= trimmed then Some(Trim(trimmed[5..])) else None
  }

  // ---------------------------------------------------------------- discovery events

  // `Undefined` keeps JavaScript's two empty values apart: only `null` counts as
  // "no result".
  datatype Result = Null | Undefined | Value(json: string)

  datatype Outcome = Returns(result: Result) | Throws(message: string)

  // Events are parsed JSON values of a type `E`.  `parse` is what JSON.parse
  // makes of a payload, None when it throws or gives null; the other fields are
  // what the reader looks up in an event.
  datatype Json<!E> = Json(
    parse: string -> Option<E>, kind: E -> string, message: E -> string, result: E -> Result)

  function EventOf<E>(j: Json<E>, line: string): Option<E> {
    match Payload(line) case None => None case Some(data) => j.parse(data)
  }

  function Events<E>(j: Json<E>, lines: seq<string>): seq<E> {
    if lines == [] then []
    else
      match EventOf(j, lines[0])
      case None => Events(j, lines[1..])
      case Some(e) => [e] + Events(j, lines[1..])
  }

  function LastResult<E>(j: Json<E>, events: seq<E>): Result {
    if events == [] then Null
    else
      var e := events[|events| - 1];
      if j.kind(e) == "done" then j.result(e) else LastResult(j, events[..|events| - 1])
  }

  function ErrorText<E>(j: Json<E>, e: E): (r: string)
    ensures r != ""
  {
    if j.message(e) == "" then "Provider unreachable" else j.message(e)
  }

  // "" stands for the initial null; a recorded message is never empty.
  function LastError<E>(j: Json<E>, events: seq<E>): string {
    if events == [] then ""
    else
      var e := events[|events| - 1];
      if j.kind(e) == "error" then ErrorText(j, e) else LastError(j, events[..|events| - 1])
  }

  function Finish(done: Result, lastError: string): Outcome {
    if done == Null then Throws(if lastError == "" then "Provider request failed: no result" else lastError)
    else Returns(done)
  }

  // How a run with these events ends.
  function Ending<E>(j: Json<E>, events: seq<E>): Outcome {
    Finish(LastResult(j, events), LastError(j, events))
  }

  lemma {:induction false} EventsAppend<E>(j: Json<E>, a: seq<string>, b: seq<string>)
    ensures Events(j, a + b) == Events(j, a) + Events(j, b)
  {
    hide EventOf;
    if a == [] {
      assert a + b == b;
    } else {
      assert (a + b)[1..] == a[1..] + b;
      EventsAppend(j, a[1..], b);
    }
  }

  class DiscoverReader<E> {
    const json: Json<E>
    var buffer: string
    var done: Result
    var lastError: string
    // what was passed to `onEvent`, in order
    var delivered: seq<E>

    ghost predicate Read(text: string)
      reads this
    {
      buffer == Rest(text) && Handled(Lines(text))
    }

    ghost predicate Handled(lines: seq<string>)
      reads this
    {
      && delivered == Events(json, lines)
      && done == LastResult(json, delivered) && lastError == LastError(json, delivered)
    }

    constructor (json: Json<E>)
      ensures Read("") && this.json == json
    {
      this.json := json;
      buffer, done, lastError, delivered := "", Null, "", [];
    }

    method HandleLine(line: string, ghost before: seq<string>)
      requires Handled(before)
      modifies this
      ensures Handled(before + [line]) && buffer == old(buffer)
    {
      EventsAppend(json, before, [line]);
      OneLine(json, line);
      var trimmed := Trim(line);
      if !("data:" <= trimmed) {
        return;
      }
      var event := json.parse(Trim(trimmed[5..]));
      if event.None? {
        return;
      }
      if json.kind(event.value) == "error" {
        lastError := ErrorText(json, event.value);
      }
      if json.kind(event.value) == "done" {
        done := json.result(event.value);
      }
      delivered := delivered + [event.value];
    }

    method HandleLines(lines: seq<string>, ghost before: seq<string>)
      requires Handled(before)
      modifies this
      ensures Handled(before + lines) && buffer == old(buffer)
    {
      hide Handled;
      assert before + lines[..0] == before;
      for i := 0 to |lines|
        invariant Handled(before + lines[..i]) && buffer == old(buffer)
      {
        HandleLine(lines[i], before + lines[..i]);
        assert before + lines[..i] + [lines[i]] == before + lines[..i + 1];
      }
      assert lines[..|lines|] == lines;
    }

    method Feed(chunk: string, ghost seen: string)
      requires Read(seen)
      modifies this
      ensures Read(seen + chunk)
    {
      LinesOfMoreText(seen, chunk);
      var parts := Split(buffer + chunk);
      buffer := parts[|parts| - 1];
      hide Handled;
      HandleLines(parts[..|parts| - 1], Lines(seen));
    }
  }

  lemma {:induction false} OneLine<E>(j: Json<E>, line: string)
    ensures Events(j, [line]) == match EventOf(j, line) case None => [] case Some(e) => [e]
  {
    assert [line][1..] == [];
  }

  // The reader of the discovery stream.  What it delivers and how it ends are
  // functions of the text, not of the chunks.
  method DiscoverProviderStream<E>(json: Json<E>, chunks: seq<string>) returns (outcome: Outcome, delivered: seq<E>)
    ensures delivered == Events(json, Lines(Concat(chunks)))
    ensures outcome == Ending(json, delivered)
  {
    var reader := new DiscoverReader(json);
    for i := 0 to |chunks|
      invariant reader.Read(Concat(chunks[..i])) && fresh(reader) && reader.json == json
    {
      ConcatAppend(chunks[..i], chunks[i]);
      assert chunks[..i] + [chunks[i]] == chunks[..i + 1];
      reader.Feed(chunks[i], Concat(chunks[..i]));
    }
    assert chunks[..|chunks|] == chunks;
    outcome, delivered := Finish(reader.done, reader.lastError), reader.delivered;
  }

  // ---------------------------------------------------------------- the printer

  // One event as the server prints it, given its JSON text.
  function Frame(text: string): string {
    "data: " + text + "\n\n"
  }

  function Printed(texts: seq<string>): string {
    if texts == [] then "" else Frame(texts[0]) + Printed(texts[1..])
  }

  // The frames follow each other with nothing in between.
  lemma {:induction false} PrintedOneMore(texts: seq<string>, text: string)
    ensures Printed([]) == "" && Printed(texts + [text]) == Printed(texts) + "data: " + text + "\n\n"
  {
    if texts == [] {
      assert texts + [text] == [text] && [text][1..] == [];
      assert Printed([text]) == Frame(text) + "" == Frame(text);
      assert "" + "data: " == "data: ";
    } else {
      assert (texts + [text])[1..] == texts[1..] + [text];
      PrintedOneMore(texts[1..], text);
      assert Frame(texts[0]) + (Printed(texts[1..]) + "data: " + text + "\n\n") ==
             Frame(texts[0]) + Printed(texts[1..]) + "data: " + text + "\n\n";
    }
  }

  // What a printed JSON object is like: one line, no space at either end.
  predicate OneLineText(text: string) {
    text != "" && '\n' !in text && !IsSpace(text[0]) && !IsSpace(text[|text| - 1])
  }

  // The texts printed are those of the events.
  ghost predicate Prints<E>(j: Json<E>, texts: seq<string>, events: seq<E>) {
    && |texts| == |events|
    && forall i :: 0 <= i < |texts| ==> OneLineText(texts[i]) && j.parse(texts[i]) == Some(events[i])
  }

  lemma {:induction false} PayloadOfFrame(text: string)
    requires OneLineText(text)
    ensures Payload("data: " + text) == Some(text)
  {
    var line := "data: " + text;
    assert line[|line| - 1] == text[|text| - 1] && line[0] == 'd';
    assert Trim(line) == line && line[..5] == "data:";
    assert line[5..] == " " + text && (" " + text)[1..] == text;
    assert TrimStart(" " + text) == TrimStart(text) == text;
  }

  lemma {:induction false} LinesOfFrame(text: string, tail: string)
    requires OneLineText(text)
    ensures Lines(Frame(text) + tail) == ["data: " + text, ""] + Lines(tail)
  {
    hide Lines, Rest;
    LineFirst("data: " + text, "\n" + tail);
    LineFirst("", tail);
    assert "" + "\n" + tail == "\n" + tail;
    assert Frame(text) + tail == ("data: " + text) + "\n" + ("\n" + tail);
    assert ["data: " + text] + ([""] + Lines(tail)) == ["data: " + text, ""] + Lines(tail);
  }

  lemma {:induction false} EventsOfFrame<E>(j: Json<E>, text: string, e: E)
    requires OneLineText(text) && j.parse(text) == Some(e)
    ensures Events(j, ["data: " + text, ""]) == [e]
  {
    PayloadOfFrame(text);
    hide Trim;
    assert Trim("") == "" && Payload("").None?;
    OneLine(j, "data: " + text);
    OneLine(j, "");
    EventsAppend(j, ["data: " + text], [""]);
    assert ["data: " + text] + [""] == ["data: " + text, ""];
  }

  lemma {:induction false} EventsOfPrinted<E>(j: Json<E>, texts: seq<string>, events: seq<E>)
    requires Prints(j, texts, events)
    ensures Events(j, Lines(Printed(texts))) == events
  {
    if texts != [] {
      var tail := Printed(texts[1..]);
      EventsOfPrinted(j, texts[1..], events[1..]);
      hide OneLineText, Events, Lines, Frame;
      LinesOfFrame(texts[0], tail);
      EventsOfFrame(j, texts[0], events[0]);
      EventsAppend(j, ["data: " + texts[0], ""], Lines(tail));
      assert events == [events[0]] + events[1..];
    }
  }

  // However the printed events are cut into chunks, what the reader is proved
  // to deliver is exactly those events, in order, and it ends as they say.
  lemma {:induction false} PrintedIsReadBack<E>(
    j: Json<E>, texts: seq<string>, events: seq<E>, chunks: seq<string>)
    requires Prints(j, texts, events) && Concat(chunks) == Printed(texts)
    ensures var delivered := Events(j, Lines(Concat(chunks)));
            delivered == events && Ending(j, delivered) == Ending(j, events)
  {
    EventsOfPrinted(j, texts, events);
  }

  // A connection that breaks anywhere delivers the events printed so far, up to
  // some point, and nothing else.
  lemma {:induction false} BrokenStreamDeliversPrefix<E>(
    j: Json<E>, texts: seq<string>, events: seq<E>, chunks: seq<string>, lost: string)
    requires Prints(j, texts, events) && Concat(chunks) + lost == Printed(texts)
    ensures Events(j, Lines(Concat(chunks))) <= events
  {
    var seen := Concat(chunks);
    EventsOfPrinted(j, texts, events);
    LinesOfMoreText(seen, lost);
    hide Lines, Rest, Events;
    EventsAppend(j, Lines(seen), Lines(Rest(seen) + lost));
  }

  // A run that ends with a "done" event returns its result, unless that is null
  // and an error is raised instead; a run the server ended with an error before
  // any "done" raises that error.
  lemma {:induction false} RunsEndAsPrinted<E>(j: Json<E>, events: seq<E>, last: E)
    ensures j.kind(last) == "done" ==>
              Ending(j, events + [last]) ==
              if j.result(last) != Null then Returns(j.result(last))
              else Throws(if LastError(j, events) == "" then "Provider request failed: no result"
                          else LastError(j, events))
    ensures j.kind(last) == "error" && (forall e :: e in events ==> j.kind(e) != "done") ==>
              Ending(j, events + [last]) ==
              Throws(if j.message(last) == "" then "Provider unreachable" else j.message(last))
  {
    var all := events + [last];
    assert all[..|all| - 1] == events && all[|all| - 1] == last;
    if forall e :: e in events ==> j.kind(e) != "done" {
      NoDone(j, events);
    }
  }

  lemma {:induction false} NoDone<E>(j: Json<E>, events: seq<E>)
    requires forall e :: e in events ==> j.kind(e) != "done"
    ensures LastResult(j, events) == Null
  {
    if events != [] { NoDone(j, events[..|events| - 1]); }
  }

  // ---------------------------------------------------------------- chat deltas

  // A parsed chat chunk, with its optional fields.
  datatype Delta = Delta(content: Option<string>, reasoning: Option<string>, usage: Option<string>)

  type DeltaParser = string -> Option<Delta>

  function NonEmpty(s: Option<string>): Option<string> {
    if s.Some? && s.value == "" then None else s
  }

  function Cleaned(d: Delta): Delta {
    Delta(NonEmpty(d.content), NonEmpty(d.reasoning), d.usage)
  }

  // What one line yields, if anything.
  function Yield(parse: DeltaParser, line: string): seq<Delta> {
    match Payload(line)
    case None => []
    case Some(data) =>
      match parse(data)
      case None => []
      case Some(d) => if Cleaned(d) == Delta(None, None, None) then [] else [Cleaned(d)]
  }

  predicate IsDone(line: string) {
    Payload(line) == Some("[DONE]")
  }

  // Everything a list of lines yields, up to the end marker.
  function Yields(parse: DeltaParser, lines: seq<string>): seq<Delta> {
    if lines == [] || IsDone(lines[0]) then []
    else Yield(parse, lines[0]) + Yields(parse, lines[1..])
  }

  ghost predicate HasDone(lines: seq<string>) {
    exists l :: l in lines && IsDone(l)
  }

  lemma {:induction false} YieldsAppend(parse: DeltaParser, a: seq<string>, b: seq<string>)
    ensures Yields(parse, a + b) == Yields(parse, a) + if HasDone(a) then [] else Yields(parse, b)
  {
    hide IsDone, Yield;
    if a == [] {
      assert a + b == b;
    } else {
      assert (a + b)[1..] == a[1..] + b;
      YieldsAppend(parse, a[1..], b);
    }
  }

  // Once the end marker is read, nothing that follows is yielded.
  lemma {:induction false} StopsAt(parse: DeltaParser, chunks: seq<string>, i: nat)
    requires i <= |chunks| && HasDone(Lines(Concat(chunks[..i])))
    ensures Yields(parse, Lines(Concat(chunks))) == Yields(parse, Lines(Concat(chunks[..i])))
  {
    ConcatSplit(chunks, i);
    var seen, rest := Concat(chunks[..i]), Concat(chunks[i..]);
    LinesOfMoreText(seen, rest);
    YieldsAppend(parse, Lines(seen), Lines(Rest(seen) + rest));
  }

  lemma {:induction false} ConcatSplit(chunks: seq<string>, i: nat)
    requires i <= |chunks|
    ensures Concat(chunks) == Concat(chunks[..i]) + Concat(chunks[i..])
  {
    if i == 0 {
      assert chunks[0..] == chunks;
    } else {
      ConcatSplit(chunks[1..], i - 1);
      assert chunks[..i][1..] == chunks[1..][..i - 1];
      assert chunks[1..][i - 1..] == chunks[i..];
    }
  }

  method HandleChatLine(parse: DeltaParser, line: string) returns (stop: bool, out: seq<Delta>)
    ensures stop == IsDone(line)
    ensures !stop ==> out == Yield(parse, line)
  {
    stop, out := false, [];
    var trimmed := Trim(line);
    if "data:" <= trimmed {
      var data := Trim(trimmed[5..]);
      if data == "[DONE]" {
        return true, [];
      }
      var parsed := parse(data);
      if parsed.Some? {
        var content, reasoning := parsed.value.content, parsed.value.reasoning;
        if content == Some("") { content := None; }
        if reasoning == Some("") { reasoning := None; }
        if content.Some? || reasoning.Some? || parsed.value.usage.Some? {
          out := [Delta(content, reasoning, parsed.value.usage)];
        }
      }
    }
  }

  // The lines of one chunk, up to the end marker.
  method HandleChatLines(parse: DeltaParser, lines: seq<string>) returns (stop: bool, out: seq<Delta>)
    ensures stop == HasDone(lines)
    ensures out == Yields(parse, lines)
  {
    hide IsDone, Yield;
    out := [];
    for j := 0 to |lines|
      invariant out == Yields(parse, lines[..j]) && !HasDone(lines[..j])
    {
      assert lines[..j + 1] == lines[..j] + [lines[j]];
      YieldsAppend(parse, lines[..j], [lines[j]]);
      var some;
      stop, some := HandleChatLine(parse, lines[j]);
      if stop {
        assert lines == lines[..j] + lines[j..];
        YieldsAppend(parse, lines[..j], lines[j..]);
        return;
      }
      out := out + some;
    }
    assert lines[..|lines|] == lines;
    stop := false;
  }

  // The reader of a chat stream.  What it yields depends on the text only: the
  // deltas of its lines up to the first end marker.
  method StreamChat(parse: DeltaParser, chunks: seq<string>) returns (out: seq<Delta>)
    ensures out == Yields(parse, Lines(Concat(chunks)))
  {
    hide IsDone, Yield;
    out := [];
    var buffer := "";
    for i := 0 to |chunks|
      invariant buffer == Rest(Concat(chunks[..i]))
      invariant out == Yields(parse, Lines(Concat(chunks[..i]))) && !HasDone(Lines(Concat(chunks[..i])))
    {
      ghost var seen := Concat(chunks[..i]);
      assert chunks[..i] + [chunks[i]] == chunks[..i + 1];
      ConcatAppend(chunks[..i], chunks[i]);
      LinesOfMoreText(seen, chunks[i]);
      buffer := buffer + chunks[i];
      var parts := Split(buffer);
      var lines := parts[..|parts| - 1];
      YieldsAppend(parse, Lines(seen), lines);
      buffer := parts[|parts| - 1];
      var stop, some := HandleChatLines(parse, lines);
      out := out + some;
      if stop {
        StopsAt(parse, chunks, i + 1);
        return;
      }
    }
    assert chunks[..|chunks|] == chunks;
  }

  // ---------------------------------------------------------------- in plain terms

  // Trimming takes the white space off both ends and nothing else.
  lemma {:induction false} TrimTakesOffTheEnds(before: string, text: string, after: string)
    requires AllWhite(before) && AllWhite(after)
    requires text == "" || (!White(text[0]) && !White(text[|text| - 1]))
    ensures Trim(before + text + after) == text
  {
    var tail := text + after;
    assert before + text + after == before + tail;
    TrimStartSkips(before, tail);
    if text == "" {
      assert tail == after;
      TrimStartSkips(after, "");
      assert after + "" == after;
      assert TrimStart("") == "";
    } else {
      assert tail[0] == text[0] && TrimStart(tail) == tail;
      TrimEndSkips(text, after);
      assert TrimEnd(text) == text;
    }
  }

  // The white space of the ECMAScript language and its line terminators.
  predicate White(c: char) {
    c in {'\t', '\U{000B}', '\U{000C}', ' ', '\U{00A0}', '\U{FEFF}', '\n', '\r', '\U{2028}', '\U{2029}',
          '\U{1680}', '\U{2000}', '\U{2001}', '\U{2002}', '\U{2003}', '\U{2004}', '\U{2005}', '\U{2006}',
          '\U{2007}', '\U{2008}', '\U{2009}', '\U{200A}', '\U{202F}', '\U{205F}', '\U{3000}'}
  }

  predicate AllWhite(s: string) {
    forall c :: c in s ==> White(c)
  }

  lemma {:induction false} SpaceIsWhite(c: char)
    ensures IsSpace(c) <==> White(c)
  {
  }

  lemma {:induction false} TrimStartSkips(before: string, rest: string)
    requires AllWhite(before)
    ensures TrimStart(before + rest) == TrimStart(rest)
  {
    if before == "" {
      assert before + rest == rest;
    } else {
      assert (before + rest)[1..] == before[1..] + rest;
      SpaceIsWhite(before[0]);
      hide IsSpace, White;
      TrimStartSkips(before[1..], rest);
    }
  }

  lemma {:induction false} TrimEndSkips(text: string, after: string)
    requires AllWhite(after)
    ensures TrimEnd(text + after) == TrimEnd(text)
  {
    if after == "" {
      assert text + after == text;
    } else {
      var n := |after| - 1;
      assert (text + after)[..|text + after| - 1] == text + after[..n];
      SpaceIsWhite(after[n]);
      hide IsSpace, White;
      TrimEndSkips(text, after[..n]);
    }
  }

  // A data line is one that starts with "data:" behind white space; its payload
  // is the rest without the white space around it.
  lemma {:induction false} PayloadInPlainTerms(a: string, b: string, text: string, c: string)
    requires AllWhite(a) && AllWhite(b) && AllWhite(c)
    requires text == "" || (!White(text[0]) && !White(text[|text| - 1]))
    ensures Payload(a + "data:" + b + text + c) == Some(text)
    ensures !("data:" <= text) ==> Payload(a + text + c) == None
  {
    TrimTakesOffTheEnds(a, text, c);
    if text == "" {
      assert a + "data:" + b + text + c == a + "data:" + (b + c);
      TrimTakesOffTheEnds(a, "data:", b + c);
      assert "data:"[5..] == "" && Trim("") == "";
    } else {
      var line := "data:" + b + text;
      assert a + "data:" + b + text + c == a + line + c;
      assert line[|line| - 1] == text[|text| - 1] && line[..5] == "data:" && line[5..] == b + text + "";
      TrimTakesOffTheEnds(a, line, c);
      TrimTakesOffTheEnds(b, text, "");
    }
  }

  // What a parsed chat chunk is yielded as: its content, reasoning and usage,
  // empty texts left out, or nothing when none is left.
  function Yielded(d: Delta): seq<Delta> {
    var content := if d.content == Some("") then None else d.content;
    var reasoning := if d.reasoning == Some("") then None else d.reasoning;
    if content == None && reasoning == None && d.usage == None then []
    else [Delta(content, reasoning, d.usage)]
  }

  function AllYielded(deltas: seq<Delta>): seq<Delta> {
    if deltas == [] then [] else Yielded(deltas[0]) + AllYielded(deltas[1..])
  }

  // The texts printed are those of the deltas.
  ghost predicate PrintsChat(parse: DeltaParser, texts: seq<string>, deltas: seq<Delta>) {
    && |texts| == |deltas|
    && forall i :: 0 <= i < |texts| ==>
         OneLineText(texts[i]) && texts[i] != "[DONE]" && parse(texts[i]) == Some(deltas[i])
  }

  // However a chat stream is cut, the deltas printed before the end marker are
  // yielded, and nothing printed behind it.
  lemma {:induction false} PrintedChatIsReadBack(
    parse: DeltaParser, texts: seq<string>, deltas: seq<Delta>, more: string, chunks: seq<string>)
    requires PrintsChat(parse, texts, deltas)
    requires Concat(chunks) == Printed(texts) + Frame("[DONE]") + more
    ensures Yields(parse, Lines(Concat(chunks))) == AllYielded(deltas)
  {
    hide *;
    ChatLines(parse, texts, deltas, Frame("[DONE]") + more);
    assert Printed(texts) + Frame("[DONE]") + more == Printed(texts) + (Frame("[DONE]") + more);
    NothingBehindTheEnd(parse, more);
    assert AllYielded(deltas) + [] == AllYielded(deltas);
  }

  lemma {:induction false} NothingBehindTheEnd(parse: DeltaParser, more: string)
    ensures Yields(parse, Lines(Frame("[DONE]") + more)) == []
  {
    LinesOfFrame("[DONE]", more);
    PayloadOfFrame("[DONE]");
    hide Lines, Payload, Frame, Yield;
    assert "data: " + "[DONE]" == "data: [DONE]";
    var rest := ["data: [DONE]", ""] + Lines(more);
    assert rest[0] == "data: [DONE]" && IsDone(rest[0]);
  }

  lemma {:induction false} ChatLines(parse: DeltaParser, texts: seq<string>, deltas: seq<Delta>, rest: string)
    requires PrintsChat(parse, texts, deltas)
    ensures Yields(parse, Lines(Printed(texts) + rest)) == AllYielded(deltas) + Yields(parse, Lines(rest))
  {
    hide Lines, Yields, OneLineText, Frame, Yielded;
    if texts == [] {
      assert Printed(texts) + rest == rest;
      assert AllYielded(deltas) + Yields(parse, Lines(rest)) == Yields(parse, Lines(rest));
    } else {
      var tail := Printed(texts[1..]) + rest;
      assert Printed(texts) == Frame(texts[0]) + Printed(texts[1..]);
      assert AllYielded(deltas) == Yielded(deltas[0]) + AllYielded(deltas[1..]);
      assert PrintsChat(parse, texts[1..], deltas[1..]);
      OneChatFrame(parse, texts[0], deltas[0], tail);
      hide *;
      assert Printed(texts) + rest == Frame(texts[0]) + tail;
      ChatLines(parse, texts[1..], deltas[1..], rest);
    }
  }

  lemma {:induction false} OneChatFrame(parse: DeltaParser, text: string, d: Delta, tail: string)
    requires OneLineText(text) && text != "[DONE]" && parse(text) == Some(d)
    ensures Yields(parse, Lines(Frame(text) + tail)) == Yielded(d) + Yields(parse, Lines(tail))
  {
    LinesOfFrame(text, tail);
    OneChatLine(parse, text, d);
    hide *;
    YieldsAppend(parse, ["data: " + text, ""], Lines(tail));
  }

  lemma {:induction false} OneChatLine(parse: DeltaParser, text: string, d: Delta)
    requires OneLineText(text) && text != "[DONE]" && parse(text) == Some(d)
    ensures var lines := ["data: " + text, ""]; Yields(parse, lines) == Yielded(d) && !HasDone(lines)
  {
    var lines := ["data: " + text, ""];
    PayloadOfFrame(text);
    assert Trim("") == "" && Payload("").None?;
    hide Payload;
    assert lines[1..] == [""] && lines[1..][1..] == [];
    assert !IsDone(lines[0]) && !IsDone(lines[1]);
    assert Yields(parse, lines[1..]) == [];
    assert Yield(parse, lines[0]) == Yielded(d);
  }
}
