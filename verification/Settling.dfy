/**
 The round trip `N` of Translate repeated: a body whose data URLs are not clean
 changes again on its second trip, but every body settles in normal form.
 */
module Settling {
  import opened Wrappers
  import opened DataUrl
  import opened Translate
  import opened RoundTrip

  // The body after `k` round trips; None when one of them raises.
  function Trips<J>(codec: Codec<J>, b: Body<J>, k: nat): Option<Body<J>>
    decreases k
  {
    if k == 0 then Some(b) else match N(codec, b) case None => None case Some(n) => Trips(codec, n, k - 1)
  }

  // ---------------------------------------------------------------- what is left to remove

  function PartsExcess(parts: seq<Part>): nat {
    if parts == [] then 0
    else (if parts[0].ImagePart? then Excess(parts[0].url) else 0) + PartsExcess(parts[1..])
  }

  function MessageExcess(m: Message): nat {
    if m.role == "system" || m.role == "tool" || IsCallTurn(m) then 0 else PartsExcess(ContentParts(m.content))
  }

  function TotalExcess(messages: seq<Message>): nat {
    if messages == [] then 0 else MessageExcess(messages[0]) + TotalExcess(messages[1..])
  }

  lemma {:induction false} NoExcessIffClean(url: string)
    ensures Excess(url) == 0 <==> Clean(url)
  {
    MediaIsMediaType(url);
  }

  lemma {:induction false} PartsNoExcessIffClean(parts: seq<Part>)
    ensures PartsExcess(parts) == 0 <==> forall p :: p in parts && p.ImagePart? ==> Clean(p.url)
  {
    hide Excess, Clean;
    if parts != [] {
      assert parts == [parts[0]] + parts[1..];
      if parts[0].ImagePart? { NoExcessIffClean(parts[0].url); }
      PartsNoExcessIffClean(parts[1..]);
    }
  }

  lemma {:induction false} MessageNoExcessIffClean(m: Message)
    ensures MessageExcess(m) == 0 <==> CleanMessage(m)
  {
    PartsNoExcessIffClean(ContentParts(m.content));
    hide PartsExcess, Clean, ContentParts;
  }

  lemma {:induction false} NoExcessIffAllClean(messages: seq<Message>)
    ensures TotalExcess(messages) == 0 <==> forall m :: m in messages ==> CleanMessage(m)
  {
    hide CleanMessage, MessageExcess;
    if messages != [] {
      assert messages == [messages[0]] + messages[1..];
      MessageNoExcessIffClean(messages[0]);
      NoExcessIffAllClean(messages[1..]);
    }
  }

  // ---------------------------------------------------------------- one trip

  // `after` is less than `before`, or both are zero.
  predicate Less(after: nat, before: nat) {
    after < before || after == before == 0
  }

  lemma {:induction false} PartsHaveLess(parts: seq<Part>)
    ensures Less(PartsExcess(NormParts(parts)), PartsExcess(parts))
  {
    hide Excess, Clean, Normal;
    if parts != [] {
      PartsHaveLess(parts[1..]);
      if parts[0].ImagePart? {
        NoExcessIffClean(parts[0].url);
        TripHasLessExcess(parts[0].url);
      }
      assert NormParts(parts)[1..] == NormParts(parts[1..]);
    }
  }

  lemma {:induction false} SolidStays(parts: seq<Part>)
    requires forall p :: p in parts ==> Solid(p)
    ensures PartsOf(NormParts(parts)) == NormParts(parts)
  {
    var back := NormParts(parts);
    forall i | 0 <= i < |back| ensures Solid(back[i]) {
      assert parts[i] in parts;
      if parts[i].ImagePart? { NormalIsCanonicalIffClean(parts[i].url); }
    }
    PartsOfAreSolid(back);
  }

  lemma {:induction false} TextHasNoExcess(text: string)
    ensures PartsExcess(ContentParts(Text(text))) == 0
  {
  }

  lemma {:induction false} MessageHasLess<J>(codec: Codec<J>, m: Message)
    requires Lawful(codec) && m.role != "system" && MessageParses(codec, m)
    ensures Less(MessageExcess(Norm(codec, m)), MessageExcess(m))
    ensures MessageParses(codec, Norm(codec, m))
  {
    if m.role == "tool" {
    } else if IsCallTurn(m) {
      CallsLandNormal(codec, m.toolCalls.value);
    } else {
      hide Excess, PartsExcess, Solid, NormParts;
      ContentPartsAreSolid(m.content);
      var parts := ContentParts(m.content);
      PartsHaveLess(parts);
      SolidStays(parts);
      PartsNoExcessIffClean(parts);
      TextHasNoExcess(TextOf(m.content));
    }
  }

  lemma {:induction false} MessagesHaveLess<J>(codec: Codec<J>, messages: seq<Message>)
    requires Lawful(codec) && AllParse(codec, messages) && forall m :: m in messages ==> m.role != "system"
    ensures Less(TotalExcess(Norms(codec, messages)), TotalExcess(messages))
    ensures AllParse(codec, Norms(codec, messages))
  {
    hide Lawful, Norm, MessageExcess, MessageParses;
    if messages != [] {
      assert messages[0] in messages;
      MessageHasLess(codec, messages[0]);
      MessagesHaveLess(codec, messages[1..]);
      assert Norms(codec, messages) == [Norm(codec, messages[0])] + Norms(codec, messages[1..]);
    }
  }

  lemma {:induction false} SystemHasNoExcess(messages: seq<Message>)
    ensures TotalExcess(NonSystem(messages)) == TotalExcess(messages)
  {
    hide PartsExcess, ContentParts, IsCallTurn;
    if messages != [] { SystemHasNoExcess(messages[1..]); }
  }

  lemma {:induction false} LeadHasNoExcess<J>(codec: Codec<J>, messages: seq<Message>, norms: seq<Message>)
    ensures TotalExcess(Lead(messages) + norms) == TotalExcess(norms)
    ensures AllParse(codec, norms) ==> AllParse(codec, Lead(messages) + norms)
  {
    var lead := Lead(messages);
    assert lead == [] || (|lead| == 1 && lead[0].role == "system");
    hide Lead, PartsExcess;
    if lead == [] {
      assert lead + norms == norms;
    } else {
      assert (lead + norms)[1..] == norms;
    }
  }

  // A trip of a body that does not raise leaves one that does not raise either,
  // with less left to remove.
  lemma {:induction false} BodyHasLess<J>(codec: Codec<J>, b: Body<J>, n: Body<J>)
    requires Lawful(codec) && N(codec, b) == Some(n)
    ensures N(codec, n).Some? && Less(TotalExcess(n.messages), TotalExcess(b.messages))
  {
    RoundTripRaisesOnlyOnMalformedArguments(codec, b);
    RoundTripRaisesOnlyOnMalformedArguments(codec, n);
    NonSystemOnly(b.messages);
    var others := NonSystem(b.messages);
    hide N, Lawful, NonSystem, MessageParses, TotalExcess, Lead, Norms;
    assert n.messages == Lead(b.messages) + Norms(codec, others);
    SystemHasNoExcess(b.messages);
    MessagesHaveLess(codec, others);
    LeadHasNoExcess(codec, b.messages, Norms(codec, others));
  }

  // ---------------------------------------------------------------- many trips

  lemma {:induction false} NormalStays<J>(codec: Codec<J>, b: Body<J>, k: nat)
    requires NormalBody(codec, b)
    ensures Trips(codec, b, k) == Some(b)
    decreases k
  {
    RoundTripIsIdentityIffNormal(codec, b);
    hide N, NormalBody;
    if k > 0 { NormalStays(codec, b, k - 1); }
  }

  lemma {:induction false} NeverRaises<J>(codec: Codec<J>, b: Body<J>, k: nat)
    requires Lawful(codec) && N(codec, b).Some?
    ensures Trips(codec, b, k).Some?
    decreases k
  {
    if k > 0 {
      var n := N(codec, b).value;
      BodyHasLess(codec, b, n);
      hide N, Lawful, TotalExcess;
      NeverRaises(codec, n, k - 1);
    }
  }

  lemma {:induction false} OneTrip<J>(codec: Codec<J>, b: Body<J>, n: Body<J>)
    requires Lawful(codec) && N(codec, b) == Some(n)
    ensures if TotalExcess(b.messages) == 0 then NormalBody(codec, n)
            else N(codec, n).Some? && TotalExcess(n.messages) < TotalExcess(b.messages)
  {
    BodyHasLess(codec, b, n);
    NoExcessIffAllClean(b.messages);
    hide N, NormalBody, Lawful, TotalExcess, CleanMessage;
    RoundTripLandsNormalIffClean(codec, b, n);
  }

  lemma {:induction false} Settles<J>(codec: Codec<J>, b: Body<J>, k: nat)
    requires Lawful(codec) && N(codec, b).Some? && TotalExcess(b.messages) < k
    ensures Trips(codec, b, k).Some? && NormalBody(codec, Trips(codec, b, k).value)
    decreases k
  {
    hide N, NormalBody, Lawful, TotalExcess;
    var n := N(codec, b).value;
    OneTrip(codec, b, n);
    if TotalExcess(b.messages) == 0 { NormalStays(codec, n, k - 1); } else { Settles(codec, n, k - 1); }
  }

  lemma {:induction false} TripsAgree<J>(codec: Codec<J>, b: Body<J>, j: nat, k: nat)
    requires j <= k && Trips(codec, b, j).Some? && NormalBody(codec, Trips(codec, b, j).value)
    ensures Trips(codec, b, k) == Trips(codec, b, j)
    decreases j
  {
    hide N, NormalBody;
    if j == 0 { NormalStays(codec, b, k); } else { TripsAgree(codec, N(codec, b).value, j - 1, k - 1); }
  }

  // A body that does not raise on its first round trip never does.  It settles:
  // after one trip more than the media types of its unclean data URLs have
  // characters it is in normal form, and stays as it is from then on.
  lemma {:induction false} RoundTripsSettle<J>(codec: Codec<J>, b: Body<J>, k: nat)
    requires Lawful(codec) && N(codec, b).Some?
    ensures Trips(codec, b, k).Some?
    ensures var enough := TotalExcess(b.messages) + 1;
            enough <= k ==> NormalBody(codec, Trips(codec, b, k).value) && Trips(codec, b, k) == Trips(codec, b, enough)
  {
    hide N, NormalBody, Lawful, TotalExcess;
    var enough := TotalExcess(b.messages) + 1;
    NeverRaises(codec, b, k);
    Settles(codec, b, enough);
    if enough <= k {
      Settles(codec, b, k);
      TripsAgree(codec, b, enough, k);
    }
  }
}
