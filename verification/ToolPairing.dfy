/**
 Tool calls and their results across the translations of
 app/services/translate.py.  A transcript is reduced to the sequence of ids it
 calls and answers; each direction is proved to keep that sequence exactly when
 the transcript puts calls and results where the wire formats allow them.
 */
module ToolPairing {
  import opened Wrappers
  import opened Translate

  datatype Event = Call(id: string) | Answer(id: string)

  // Every answer comes after a call with its id.
  ghost predicate WellPaired(events: seq<Event>) {
    forall j :: 0 <= j < |events| && events[j].Answer? ==>
      exists i :: 0 <= i < j && events[i] == Call(events[j].id)
  }

  // ---------------------------------------------------------------- what a transcript calls and answers

  function CallEvents(calls: seq<ToolCall>): (r: seq<Event>)
    ensures |r| == |calls|
  {
    if calls == [] then [] else [Call(Or(calls[0].id, ""))] + CallEvents(calls[1..])
  }

  function MessageEvents(m: Message): seq<Event> {
    (if m.toolCalls.Some? then CallEvents(m.toolCalls.value) else [])
    + if m.role == "tool" then [Answer(Or(m.toolCallId, ""))] else []
  }

  function OpenAIEvents(messages: seq<Message>): seq<Event> {
    if messages == [] then [] else MessageEvents(messages[0]) + OpenAIEvents(messages[1..])
  }

  function BlockEvents<J>(blocks: seq<Block<J>>): seq<Event> {
    if blocks == [] then []
    else
      var rest := BlockEvents(blocks[1..]);
      match blocks[0]
      case ToolUse(id, _, _) => [Call(Or(id, ""))] + rest
      case ToolResult(id, _) => [Answer(Or(id, ""))] + rest
      case _ => rest
  }

  function AMessageEvents<J>(m: AMessage<J>): seq<Event> {
    match m.content case AText(_) => [] case ABlocks(blocks) => BlockEvents(blocks)
  }

  function AnthropicEvents<J>(messages: seq<AMessage<J>>): seq<Event> {
    if messages == [] then [] else AMessageEvents(messages[0]) + AnthropicEvents(messages[1..])
  }

  // Tool calls sit on assistant turns only.
  predicate CallsInPlace(m: Message) {
    m.role != "assistant" ==> m.toolCalls == None || m.toolCalls == Some([])
  }

  // Uses sit on assistant turns only, results on user turns only, never both.
  predicate BlocksInPlace<J>(m: AMessage<J>) {
    m.content.ABlocks? ==>
      && (HasUse(m.content.blocks) ==> m.role == "assistant")
      && (HasResult(m.content.blocks) ==> m.role == "user")
  }

  // ---------------------------------------------------------------- OpenAI to Anthropic

  lemma {:induction false} BlockEventsConcat<J>(a: seq<Block<J>>, b: seq<Block<J>>)
    ensures BlockEvents(a + b) == BlockEvents(a) + BlockEvents(b)
  {
    if a == [] {
      assert a + b == b;
    } else {
      assert (a + b)[1..] == a[1..] + b;
      BlockEventsConcat(a[1..], b);
    }
  }

  lemma {:induction false} CallBlockEvents<J>(codec: Codec<J>, calls: seq<ToolCall>)
    requires forall c :: c in calls ==> CallParses(codec, c)
    ensures BlockEvents(CallBlocks(codec, calls)) == CallEvents(calls)
  {
    if calls != [] {
      CallBlockEvents(codec, calls[1..]);
      assert CallBlocks(codec, calls)[1..] == CallBlocks(codec, calls[1..]);
    }
  }

  lemma {:induction false} PartBlockEvents<J>(parts: seq<Part>)
    ensures BlockEvents(PartBlocks<J>(parts)) == []
  {
    if parts != [] {
      PartBlockEvents<J>(parts[1..]);
      if !parts[0].OtherPart? { assert PartBlocks<J>(parts)[1..] == PartBlocks<J>(parts[1..]); }
    }
  }

  lemma {:induction false} OneToAnthropicEvents<J>(codec: Codec<J>, m: Message)
    requires m.role != "system" && MessageParses(codec, m)
    ensures var events := AMessageEvents(ToAMessage(codec, m));
            if CallsInPlace(m) then events == MessageEvents(m) else |events| < |MessageEvents(m)|
  {
    if m.role == "tool" {
      var result: Block<J> := ToolResult(Some(Or(m.toolCallId, "")), Text(TextOf(m.content)));
      assert [result][1..] == [];
      assert BlockEvents([result]) == [Answer(Or(m.toolCallId, ""))];
    } else if IsCallTurn(m) {
      CallBlockEvents(codec, m.toolCalls.value);
      BlockEventsConcat<J>(TextBlocks(TextOf(m.content)), CallBlocks(codec, m.toolCalls.value));
      assert BlockEvents(TextBlocks<J>(TextOf(m.content))) == [];
    } else {
      PartBlockEvents<J>(ContentParts(m.content));
    }
  }

  // One Anthropic message per OpenAI message, so the sequence of ids is kept
  // exactly when calls sit on assistant turns.
  lemma {:induction false} ToAnthropicKeepsEventsIffInPlace<J>(codec: Codec<J>, messages: seq<Message>)
    requires AllParse(codec, messages) && forall m :: m in messages ==> m.role != "system"
    ensures var events := AnthropicEvents(ToAMessages(codec, messages));
            && |ToAMessages(codec, messages)| == |messages|
            && |events| <= |OpenAIEvents(messages)|
            && (events == OpenAIEvents(messages) <==> forall m :: m in messages ==> CallsInPlace(m))
  {
    if messages != [] {
      assert messages[0] in messages && messages == [messages[0]] + messages[1..];
      OneToAnthropicEvents(codec, messages[0]);
      ToAnthropicKeepsEventsIffInPlace(codec, messages[1..]);
      assert ToAMessages(codec, messages)[1..] == ToAMessages(codec, messages[1..]);
      SplitEqual(AMessageEvents(ToAMessage(codec, messages[0])), AnthropicEvents(ToAMessages(codec, messages[1..])),
                 MessageEvents(messages[0]), OpenAIEvents(messages[1..]));
      hide AMessageEvents, ToAMessage, MessageEvents, CallsInPlace, MessageParses;
    }
  }

  // Two concatenations with pairwise no longer left parts are equal only
  // part by part.
  lemma {:induction false} SplitEqual<T>(a: seq<T>, b: seq<T>, a': seq<T>, b': seq<T>)
    requires |a| <= |a'| && |b| <= |b'|
    ensures a + b == a' + b' <==> a == a' && b == b'
  {
    if a + b == a' + b' {
      assert (a + b)[..|a|] == a && (a' + b')[..|a|] == a';
      assert (a + b)[|a|..] == b && (a' + b')[|a|..] == b';
    }
  }

  // ---------------------------------------------------------------- Anthropic to OpenAI

  lemma {:induction false} OneEvent(m: Message)
    ensures OpenAIEvents([m]) == MessageEvents(m)
  {
    assert [m][1..] == [];
  }

  lemma {:induction false} BackCalls<J>(codec: Codec<J>, blocks: seq<Block<J>>)
    ensures var calls := CallEvents(BlockCalls(codec, blocks));
            if HasResult(blocks) then |calls| < |BlockEvents(blocks)| else calls == BlockEvents(blocks)
  {
    if blocks != [] {
      BackCalls(codec, blocks[1..]);
      HasTail(blocks);
      if blocks[0].ToolUse? {
        assert BlockCalls(codec, blocks)[1..] == BlockCalls(codec, blocks[1..]);
      }
    }
  }

  lemma {:induction false} BackResults<J>(blocks: seq<Block<J>>)
    ensures var answers := OpenAIEvents(BlockResults(blocks));
            if HasUse(blocks) then |answers| < |BlockEvents(blocks)| else answers == BlockEvents(blocks)
  {
    if blocks != [] {
      var rest := blocks[1..];
      BackResults(rest);
      HasTail(blocks);
      FirstResult(blocks);
      hide OpenAIEvents, BlockResults, HasUse, HasResult;
    }
  }

  lemma {:induction false} FirstResult<J>(blocks: seq<Block<J>>)
    requires blocks != []
    ensures var rest := OpenAIEvents(BlockResults(blocks[1..]));
            OpenAIEvents(BlockResults(blocks)) ==
            if blocks[0].ToolResult? then [Answer(Or(blocks[0].toolUseId, ""))] + rest else rest
  {
    if blocks[0].ToolResult? {
      var first := Message("tool", Text(TextOf(blocks[0].content)), None, Some(Or(blocks[0].toolUseId, "")));
      assert BlockResults(blocks) == [first] + BlockResults(blocks[1..]);
      hide BlockResults, TextOf;
      OpenAIEventsConcat([first], BlockResults(blocks[1..]));
      OneEvent(first);
    }
  }

  lemma {:induction false} HasTail<J>(blocks: seq<Block<J>>)
    requires blocks != []
    ensures HasUse(blocks) <==> blocks[0].ToolUse? || HasUse(blocks[1..])
    ensures HasResult(blocks) <==> blocks[0].ToolResult? || HasResult(blocks[1..])
  {
  }

  lemma {:induction false} NoToolsNoEvents<J>(blocks: seq<Block<J>>)
    ensures BlockEvents(blocks) == [] <==> !HasUse(blocks) && !HasResult(blocks)
  {
    if blocks != [] {
      HasTail(blocks);
      NoToolsNoEvents(blocks[1..]);
    }
  }

  lemma {:induction false} OneToOpenAIEvents<J>(codec: Codec<J>, m: AMessage<J>)
    ensures var events := OpenAIEvents(FromAMessage(codec, m));
            if BlocksInPlace(m) then events == AMessageEvents(m) else |events| < |AMessageEvents(m)|
  {
    var back := FromAMessage(codec, m);
    if m.content.ABlocks? {
      var blocks := m.content.blocks;
      NoToolsNoEvents(blocks);
      BackCalls(codec, blocks);
      BackResults(blocks);
    }
    if |back| == 1 { OneEvent(back[0]); }
    hide BlockEvents, BlockCalls, BlockResults, HasUse, HasResult, HasImageBlock, BlockTexts, BlockParts, CallEvents;
    hide OpenAIEvents, TextOrNull, PlainRole, JoinLines;
  }

  lemma {:induction false} OpenAIEventsConcat(a: seq<Message>, b: seq<Message>)
    ensures OpenAIEvents(a + b) == OpenAIEvents(a) + OpenAIEvents(b)
  {
    hide MessageEvents;
    if a == [] {
      assert a + b == b;
    } else {
      assert (a + b)[1..] == a[1..] + b;
      OpenAIEventsConcat(a[1..], b);
    }
  }

  // A turn with several results is flattened in order, so the sequence of ids
  // is kept exactly when uses and results sit on their turns.
  lemma {:induction false} ToOpenAIKeepsEventsIffInPlace<J>(codec: Codec<J>, messages: seq<AMessage<J>>)
    ensures var events := OpenAIEvents(FromAMessages(codec, messages));
            && |events| <= |AnthropicEvents(messages)|
            && (events == AnthropicEvents(messages) <==> forall m :: m in messages ==> BlocksInPlace(m))
  {
    if messages != [] {
      assert messages[0] in messages && messages == [messages[0]] + messages[1..];
      OneToOpenAIEvents(codec, messages[0]);
      ToOpenAIKeepsEventsIffInPlace(codec, messages[1..]);
      OpenAIEventsConcat(FromAMessage(codec, messages[0]), FromAMessages(codec, messages[1..]));
      SplitEqual(OpenAIEvents(FromAMessage(codec, messages[0])), OpenAIEvents(FromAMessages(codec, messages[1..])),
                 AMessageEvents(messages[0]), AnthropicEvents(messages[1..]));
      hide AMessageEvents, FromAMessage, OpenAIEvents, BlocksInPlace;
    }
  }

  // Hence a well-paired transcript stays well paired both ways.
  lemma {:induction false} PairingSurvives<J>(codec: Codec<J>, messages: seq<Message>, back: seq<AMessage<J>>)
    requires AllParse(codec, messages) && forall m :: m in messages ==> m.role != "system" && CallsInPlace(m)
    requires forall m :: m in back ==> BlocksInPlace(m)
    ensures WellPaired(OpenAIEvents(messages)) <==> WellPaired(AnthropicEvents(ToAMessages(codec, messages)))
    ensures WellPaired(AnthropicEvents(back)) <==> WellPaired(OpenAIEvents(FromAMessages(codec, back)))
  {
    ToAnthropicKeepsEventsIffInPlace(codec, messages);
    ToOpenAIKeepsEventsIffInPlace(codec, back);
  }

  // ---------------------------------------------------------------- there and back

  lemma {:induction false} ToAnthropicPutsBlocksInPlace<J>(codec: Codec<J>, messages: seq<Message>)
    requires AllParse(codec, messages)
    ensures forall m :: m in ToAMessages(codec, messages) ==> BlocksInPlace(m)
  {
    if messages != [] {
      assert messages[0] in messages;
      OneInPlace(codec, messages[0]);
      ToAnthropicPutsBlocksInPlace(codec, messages[1..]);
      hide ToAMessage, BlocksInPlace, MessageParses;
    }
  }

  lemma {:induction false} OneInPlace<J>(codec: Codec<J>, m: Message)
    requires MessageParses(codec, m)
    ensures BlocksInPlace(ToAMessage(codec, m))
  {
    if m.role == "tool" {
      var blocks := ToAMessage(codec, m).content.blocks;
      assert |blocks| == 1 && blocks[0].ToolResult?;
    } else if IsCallTurn(m) {
      OnlyUses(codec, m.toolCalls.value);
      var blocks := ToAMessage(codec, m).content.blocks;
      var text: seq<Block<J>> := TextBlocks(TextOf(m.content));
      forall i | 0 <= i < |blocks| ensures !blocks[i].ToolResult? {
        assert blocks[i] in text || blocks[i] in CallBlocks(codec, m.toolCalls.value);
      }
    } else {
      PartBlockEvents<J>(ContentParts(m.content));
      NoToolsNoEvents<J>(PartBlocks<J>(ContentParts(m.content)));
    }
  }

  lemma {:induction false} OnlyUses<J>(codec: Codec<J>, calls: seq<ToolCall>)
    requires forall c :: c in calls ==> CallParses(codec, c)
    ensures forall b :: b in CallBlocks(codec, calls) ==> b.ToolUse?
  {
    if calls != [] { OnlyUses(codec, calls[1..]); }
  }

  // What leaving out the system messages does to the ids.
  lemma {:induction false} SystemEvents(messages: seq<Message>)
    ensures var rest := NonSystem(messages);
            if forall m :: m in messages && m.role == "system" ==> CallsInPlace(m)
            then OpenAIEvents(rest) == OpenAIEvents(messages)
            else |OpenAIEvents(rest)| < |OpenAIEvents(messages)|
  {
    if messages != [] {
      var m := messages[0];
      SystemEvents(messages[1..]);
      assert messages == [m] + messages[1..];
      assert m.role == "system" ==> (MessageEvents(m) == [] <==> CallsInPlace(m));
      hide MessageEvents, CallsInPlace;
    }
  }

  lemma {:induction false} NonSystemHas(messages: seq<Message>, m: Message)
    ensures m in NonSystem(messages) <==> m in messages && m.role != "system"
  {
    if messages != [] { NonSystemHas(messages[1..], m); }
  }

  // A whole body, system messages and all, comes back from Anthropic with the
  // same sequence of ids exactly when calls sit on assistant turns; then it is
  // well paired exactly when it was.
  lemma {:induction false} RoundTripKeepsEventsIffInPlace<J>(codec: Codec<J>, b: Body<J>)
    requires N(codec, b).Some?
    ensures OpenAIEvents(N(codec, b).value.messages) == OpenAIEvents(b.messages)
            <==> forall m :: m in b.messages ==> CallsInPlace(m)
    ensures (forall m :: m in b.messages ==> CallsInPlace(m)) ==>
              (WellPaired(OpenAIEvents(N(codec, b).value.messages)) <==> WellPaired(OpenAIEvents(b.messages)))
  {
    var plain, system := NonSystem(b.messages), SystemMessages(TextOrNull(JoinLines(SystemTexts(b.messages))));
    var turns := ToAMessages(codec, plain);
    var back := FromAMessages(codec, turns);
    assert N(codec, b).value.messages == system + back && OpenAIEvents(system) == [];
    assert AllParse(codec, plain);
    hide *;
    forall m ensures m in plain <==> m in b.messages && m.role != "system" {
      NonSystemHas(b.messages, m);
    }
    OpenAIEventsConcat(system, back);
    SystemEvents(b.messages);
    PlainRoundTrip(codec, plain);
    assert [] + OpenAIEvents(back) == OpenAIEvents(back);
  }

  lemma {:induction false} PlainRoundTrip<J>(codec: Codec<J>, plain: seq<Message>)
    requires AllParse(codec, plain) && forall m :: m in plain ==> m.role != "system"
    ensures var events := OpenAIEvents(FromAMessages(codec, ToAMessages(codec, plain)));
            && |events| <= |OpenAIEvents(plain)|
            && (events == OpenAIEvents(plain) <==> forall m :: m in plain ==> CallsInPlace(m))
  {
    ToAnthropicKeepsEventsIffInPlace(codec, plain);
    ToAnthropicPutsBlocksInPlace(codec, plain);
    ToOpenAIKeepsEventsIffInPlace(codec, ToAMessages(codec, plain));
  }
}
