/**
 The retry recursion of app/services/dispatch.py (`_do_request`) over the key
 scheduler: pick a key with the attempt number as offset, send, and on a
 rotating failure mark a rate-limited key as cooling and try again while the
 freshly read key list is longer than the attempts made.

 What the upstream answers, what the clock reads, and what other coroutines do
 to the registry while a request is awaited are inputs, one `Turn` an attempt.
 */
module RetryChain {
  import opened Wrappers
  import opened KeyScheduler
  import opened RetryDrift
  import opened Sets

  const COOLDOWN_SECONDS := 5.0

  // `raised` says that the send threw instead of answering; `meanwhile` is the
  // registry other coroutines left behind during the request, or None when they
  // left it alone.
  datatype Turn = Turn(
    pickTime: real,
    raised: bool,
    status: int,
    authText: bool,
    billingText: bool,
    markTime: real,
    meanwhile: Option<State>)

  datatype Outcome = Answered | UpstreamError(status: int) | SendFailed | Waiting

  datatype Result = Result(sent: seq<Option<string>>, outcome: Outcome, state: State)

  // The `rotate_key` field of app/services/failover.py's decision; the two
  // flags say whether the body has an authentication or a billing hint.
  predicate Rotates(t: Turn) {
    t.status == 401 || t.status == 403 || t.authText || t.status == 402 || t.billingText || t.status == 429
  }

  function AfterAwait(s: State, t: Turn): State {
    match t.meanwhile case None => s case Some(other) => other
  }

  predicate Retries(s: State, pid: string, attempt: nat, t: Turn) {
    && !t.raised && t.status >= 400
    && (Rotates(t) || t.status == 429)
    && |ActiveKeys(s, pid)| > 1 && attempt < |ActiveKeys(s, pid)| - 1
  }

  function Mark(s: State, key: Option<string>, t: Turn): State {
    if t.status == 429 && Truthy(key) then MarkRateLimited(s, key.value, t.markTime, COOLDOWN_SECONDS) else s
  }

  // The chain from attempt number `attempt` on.  `turns` is what has happened
  // so far; when it runs out, the chain is still waiting.
  ghost function Chain(s: State, pid: string, attempt: nat, turns: seq<Turn>): (r: Result)
    ensures |r.sent| <= |turns|
    decreases |turns|
  {
    if turns == [] then Result([], Waiting, s)
    else
      var t, p := turns[0], Pick(s, pid, attempt, turns[0].pickTime);
      var s' := AfterAwait(p.state, t);
      if t.raised then Result([p.key], SendFailed, s')
      else if t.status < 400 then Result([p.key], Answered, s')
      else if Retries(s', pid, attempt, t) then
        var r := Chain(Mark(s', p.key, t), pid, attempt + 1, turns[1..]);
        Result([p.key] + r.sent, r.outcome, r.state)
      else Result([p.key], UpstreamError(t.status), s')
  }

  lemma {:induction false} PickKeepsKeys(s: State, pid: string, offset: nat, now: real)
    ensures ActiveKeys(Pick(s, pid, offset, now).state, pid) == ActiveKeys(s, pid)
    ensures Pick(s, pid, offset, now).state.cooldown == s.cooldown
  {
  }

  // One attempt of a chain that goes on, and what it leaves to the next one.
  lemma {:induction false} ChainGoesOn(s: State, pid: string, attempt: nat, turns: seq<Turn>, p: Picked, s': State)
    requires turns != [] && p == Pick(s, pid, attempt, turns[0].pickTime) && s' == AfterAwait(p.state, turns[0])
    requires Retries(s', pid, attempt, turns[0])
    ensures var next := Mark(s', p.key, turns[0]);
            var r := Chain(next, pid, attempt + 1, turns[1..]);
            && Chain(s, pid, attempt, turns) == Result([p.key] + r.sent, r.outcome, r.state)
            && ActiveKeys(next, pid) == ActiveKeys(s', pid)
  {
  }

  // One attempt of a chain that ends with it.
  lemma {:induction false} ChainEnds(s: State, pid: string, attempt: nat, turns: seq<Turn>, p: Picked, s': State)
    requires turns != [] && p == Pick(s, pid, attempt, turns[0].pickTime) && s' == AfterAwait(p.state, turns[0])
    requires !Retries(s', pid, attempt, turns[0])
    ensures Chain(s, pid, attempt, turns) ==
            Result([p.key], if turns[0].raised then SendFailed
                            else if turns[0].status < 400 then Answered else UpstreamError(turns[0].status), s')
  {
  }

  method DoRequest(m: ProviderManager, pid: string, attempt: nat, turns: seq<Turn>)
    returns (sent: seq<Option<string>>, outcome: Outcome)
    modifies m
    ensures Result(sent, outcome, m.View()) == Chain(old(m.View()), pid, attempt, turns)
    decreases |turns|
  {
    hide Pick;
    if turns == [] {
      return [], Waiting;
    }
    var t := turns[0];
    ghost var p := Pick(m.View(), pid, attempt, t.pickTime);
    var key := m.PickKey(pid, attempt, t.pickTime);
    sent := [key];
    if t.meanwhile.Some? {
      m.Overwrite(t.meanwhile.value);
    }
    ghost var s' := AfterAwait(p.state, t);
    assert m.View() == s' && key == p.key;
    if t.raised {
      return sent, SendFailed;
    }
    if t.status >= 400 {
      if Rotates(t) || t.status == 429 {
        var keys := ActiveKeys(m.View(), pid);
        if |keys| > 1 && attempt < |keys| - 1 {
          if t.status == 429 && Truthy(key) {
            m.MarkKeyRateLimited(key.value, t.markTime, COOLDOWN_SECONDS);
          }
          var rest;
          rest, outcome := DoRequest(m, pid, attempt + 1, turns[1..]);
          return sent + rest, outcome;
        }
      }
      return sent, UpstreamError(t.status);
    }
    return sent, Answered;
  }

  // ---------------------------------------------------------------- one reply in plain terms

  // What a reply does to the chain.  Another key is tried exactly after an
  // answer of 401, 402, 403 or 429, or any other error with an authentication or
  // billing text, if the provider then has more keys than attempts made; after a
  // 429 the key just used is put off for five seconds.
  lemma {:induction false} OneReply(s: State, pid: string, attempt: nat, t: Turn, rest: seq<Turn>, p: Picked)
    requires rest != [] && p == Pick(s, pid, attempt, t.pickTime)
    ensures var after := if t.meanwhile.Some? then t.meanwhile.value else p.state;
            var r := Chain(s, pid, attempt, [t] + rest);
            && r.sent != [] && r.sent[0] == p.key
            && (|r.sent| > 1 <==>
                && !t.raised && t.status >= 400
                && (t.status in {401, 402, 403, 429} || t.authText || t.billingText)
                && attempt + 1 < |ActiveKeys(after, pid)|)
            && (t.raised ==> r.outcome == SendFailed)
            && (!t.raised && t.status < 400 ==> r.outcome == Answered)
            && (!t.raised && t.status >= 400 && |r.sent| == 1 ==> r.outcome == UpstreamError(t.status))
            && (|r.sent| == 1 ==> r.state == after)
            && (|r.sent| > 1 ==>
                  var r' := Chain(MarkedFor(after, p.key, t), pid, attempt + 1, rest);
                  r == Result([p.key] + r'.sent, r'.outcome, r'.state))
  {
    var turns, after := [t] + rest, AfterAwait(p.state, t);
    assert turns[1..] == rest && turns[0] == t;
    RetriesIff(after, pid, attempt, t);
    hide Pick, Chain, Retries, ActiveKeys, Rotates, Mark;
    assert Mark(after, p.key, t) == MarkedFor(after, p.key, t) by { MarkIs(after, p.key, t); }
    if Retries(after, pid, attempt, t) {
      SomethingSent(Mark(after, p.key, t), pid, attempt + 1, rest);
      ChainGoesOn(s, pid, attempt, turns, p, after);
    } else {
      ChainEnds(s, pid, attempt, turns, p, after);
    }
  }

  // A key is put off for five seconds after a 429.
  function MarkedFor(s: State, key: Option<string>, t: Turn): State {
    if t.status == 429 && key.Some? && key.value != ""
    then s.(cooldown := s.cooldown[key.value := t.markTime + 5.0]) else s
  }

  lemma {:induction false} MarkIs(s: State, key: Option<string>, t: Turn)
    ensures Mark(s, key, t) == MarkedFor(s, key, t)
  {
  }

  lemma {:induction false} RetriesIff(s: State, pid: string, attempt: nat, t: Turn)
    ensures Retries(s, pid, attempt, t) <==>
            && !t.raised && t.status >= 400
            && (t.status in {401, 402, 403, 429} || t.authText || t.billingText)
            && attempt + 1 < |ActiveKeys(s, pid)|
  {
  }

  lemma {:induction false} SomethingSent(s: State, pid: string, attempt: nat, turns: seq<Turn>)
    requires turns != []
    ensures Chain(s, pid, attempt, turns).sent != []
  {
    hide Pick;
  }

  // Two attempts: whether the second is made.
  lemma {:induction false} SecondAttemptIff(s: State, pid: string, t: Turn, u: Turn)
    ensures var keys := ActiveKeys(if t.meanwhile.Some? then t.meanwhile.value else s, pid);
            |Chain(s, pid, 0, [t, u]).sent| == 2 <==>
            && !t.raised && t.status >= 400
            && (t.status in {401, 402, 403, 429} || t.authText || t.billingText) && |keys| > 1
  {
    var p := Pick(s, pid, 0, t.pickTime);
    OneReply(s, pid, 0, t, [u], p);
    PickKeepsKeys(s, pid, 0, t.pickTime);
    assert [t] + [u] == [t, u];
    hide Chain, Pick, ActiveKeys;
  }

  // ---------------------------------------------------------------- every chain is bounded

  function Max(a: int, b: int): int {
    if a < b then b else a
  }

  // Whatever the upstream answers and whatever other coroutines do, a chain
  // sends at most max(1, K) requests when no read of the key list exceeds K.
  lemma {:induction false} ChainIsBounded(s: State, pid: string, turns: seq<Turn>, bound: nat)
    requires |ActiveKeys(s, pid)| <= bound
    requires forall t :: t in turns && t.meanwhile.Some? ==> |ActiveKeys(t.meanwhile.value, pid)| <= bound
    ensures |Chain(s, pid, 0, turns).sent| <= Max(1, bound)
  {
    ChainIsBoundedFrom(s, pid, 0, turns, bound);
  }

  lemma {:induction false} ChainIsBoundedFrom(s: State, pid: string, attempt: nat, turns: seq<Turn>, bound: nat)
    requires attempt < Max(1, bound) && |ActiveKeys(s, pid)| <= bound
    requires forall t :: t in turns && t.meanwhile.Some? ==> |ActiveKeys(t.meanwhile.value, pid)| <= bound
    ensures |Chain(s, pid, attempt, turns).sent| <= Max(1, bound) - attempt
    decreases |turns|
  {
    hide Pick, Chain;
    if turns != [] {
      var p := Pick(s, pid, attempt, turns[0].pickTime);
      var s' := AfterAwait(p.state, turns[0]);
      PickKeepsKeys(s, pid, attempt, turns[0].pickTime);
      assert turns[0] in turns && |ActiveKeys(s', pid)| <= bound;
      if Retries(s', pid, attempt, turns[0]) {
        ChainGoesOn(s, pid, attempt, turns, p, s');
        ChainIsBoundedFrom(Mark(s', p.key, turns[0]), pid, attempt + 1, turns[1..], bound);
      } else {
        ChainEnds(s, pid, attempt, turns, p, s');
      }
    }
  }

  // ---------------------------------------------------------------- rate limits only

  ghost predicate DistinctKeys(keys: seq<string>) {
    NoRepeats(keys) && forall i :: 0 <= i < |keys| ==> keys[i] != ""
  }

  // From attempt `attempt` on every reply is a 429, nobody interferes, and the
  // clock at later picks is below the end of every cooldown set on the way.
  ghost predicate OnlyRateLimits(turns: seq<Turn>) {
    && (forall t :: t in turns ==> !t.raised && t.status == 429 && t.meanwhile.None?)
    && (forall i, j :: 0 <= i < j < |turns| ==> turns[i].pickTime <= turns[j].pickTime)
    && (forall i, j :: 0 <= i < j < |turns| ==> turns[j].pickTime < turns[i].markTime + 5.0)
  }

  // At every remaining pick exactly the keys at `tried` are cooling down.
  ghost predicate CoolingExactly(s: State, keys: seq<string>, turns: seq<Turn>, tried: set<nat>) {
    && (forall i :: i in tried ==> i < |keys|)
    && forall t, i: nat :: t in turns && i < |keys| ==> (Live(s.cooldown, keys[i], t.pickTime) <==> i !in tried)
  }

  // The rest of a rate-limited chain sends exactly the keys not tried yet,
  // each once, and then raises.
  lemma {:induction false} RateLimitedRest(
    s: State, pid: string, turns: seq<Turn>, tried: set<nat>)
    requires var n := |ActiveKeys(s, pid)|; |tried| < n && |turns| == n - |tried|
    requires DistinctKeys(ActiveKeys(s, pid)) && OnlyRateLimits(turns)
    requires CoolingExactly(s, ActiveKeys(s, pid), turns, tried)
    ensures var keys, r := ActiveKeys(s, pid), Chain(s, pid, |tried|, turns);
            && r.outcome == UpstreamError(429) && |r.sent| == |turns|
            && NoRepeats(r.sent)
            && (forall i :: 0 <= i < |keys| ==> (Some(keys[i]) in r.sent <==> i !in tried))
    decreases |turns|
  {
    hide Pick, Chain;
    var keys, n, a, t := ActiveKeys(s, pid), |ActiveKeys(s, pid)|, |tried|, turns[0];
    var p := Pick(s, pid, a, t.pickTime);
    assert t in turns;
    PickKeepsKeys(s, pid, a, t.pickTime);
    var i0 := PickedUntried(s, pid, a, t.pickTime, tried);
    if a < n - 1 {
      ChainGoesOn(s, pid, a, turns, p, p.state);
      var s' := Mark(p.state, p.key, t);
      MarkedIsCooling(p.state, keys, turns, tried, i0);
      RateLimitedRest(s', pid, turns[1..], tried + {i0});
      SentOneMore(keys, tried, i0, Chain(s', pid, a + 1, turns[1..]).sent);
      hide OnlyRateLimits, CoolingExactly, NoRepeats, Mark;
    } else {
      ChainEnds(s, pid, a, turns, p, p.state);
      forall i | 0 <= i < n && i !in tried ensures i == i0 {
        OnlyOneLeft(n, tried, i, i0);
      }
    }
  }

  lemma {:induction false} SentOneMore(keys: seq<string>, tried: set<nat>, i0: nat, rest: seq<Option<string>>)
    requires DistinctKeys(keys) && i0 < |keys| && i0 !in tried && NoRepeats(rest)
    requires forall i :: 0 <= i < |keys| ==> (Some(keys[i]) in rest <==> i !in tried + {i0})
    ensures var sent := [Some(keys[i0])] + rest;
            NoRepeats(sent) && forall i :: 0 <= i < |keys| ==> (Some(keys[i]) in sent <==> i !in tried)
  {
    var sent := [Some(keys[i0])] + rest;
    assert Some(keys[i0]) !in rest;
    forall i | 0 <= i < |rest| ensures sent[i + 1] == rest[i] && rest[i] != sent[0] {
      assert rest[i] in rest;
    }
  }

  lemma {:induction false} PickedUntried(s: State, pid: string, offset: nat, now: real, tried: set<nat>)
    returns (i: nat)
    requires |tried| < |ActiveKeys(s, pid)|
    requires forall i: nat :: i < |ActiveKeys(s, pid)| ==>
               (Live(s.cooldown, ActiveKeys(s, pid)[i], now) <==> i !in tried)
    ensures i < |ActiveKeys(s, pid)| && i !in tried && Pick(s, pid, offset, now).key == Some(ActiveKeys(s, pid)[i])
  {
    var keys := ActiveKeys(s, pid);
    var live := LivePositions(s.cooldown, keys, now);
    var untried := FindUntried(|keys|, tried);
    assert untried in live;
    i := Choose(|keys|, live, Start(s, pid, offset));
    assert i in live;
  }

  // Marking a distinct key adds it, and only it, to the keys that stay cooling
  // until the chain ends.
  lemma {:induction false} MarkedIsCooling(s: State, keys: seq<string>, turns: seq<Turn>, tried: set<nat>, i0: nat)
    requires turns != [] && DistinctKeys(keys) && OnlyRateLimits(turns) && CoolingExactly(s, keys, turns, tried)
    requires i0 < |keys|
    ensures OnlyRateLimits(turns[1..])
    ensures CoolingExactly(Mark(s, Some(keys[i0]), turns[0]), keys, turns[1..], tried + {i0})
  {
  }

  lemma {:induction false} FindUntried(n: nat, tried: set<nat>) returns (i: nat)
    requires |tried| < n
    ensures i < n && i !in tried
  {
    var all := Upto(n);
    if forall q :: q in all ==> q in tried {
      SubsetSize(all, tried);
    }
    i :| i in all && i !in tried;
  }

  lemma {:induction false} OnlyOneLeft(n: nat, tried: set<nat>, i: nat, j: nat)
    requires |tried| == n - 1 && (forall q :: q in tried ==> q < n)
    requires i < n && j < n && i !in tried && j !in tried
    ensures i == j
  {
    if i != j {
      var more := tried + {i} + {j};
      SubsetSize(more, Upto(n));
      assert false;
    }
  }

  // A chain that starts with no key cooling, meets nothing but 429s, is left
  // alone and finishes inside the cooldown window tries every key exactly once
  // before it raises, wherever the pointer was.
  lemma {:induction false} RateLimitedChainTriesEveryKeyOnce(s: State, pid: string, turns: seq<Turn>)
    requires var keys := ActiveKeys(s, pid); keys != [] && |turns| == |keys| && DistinctKeys(keys)
    requires OnlyRateLimits(turns)
    requires turns[0].pickTime >= 0.0
    requires forall key :: key in ActiveKeys(s, pid) ==> NotCooling(s.cooldown, key, turns[0].pickTime)
    ensures var keys, r := ActiveKeys(s, pid), Chain(s, pid, 0, turns);
            && r.outcome == UpstreamError(429) && |r.sent| == |keys|
            && NoRepeats(r.sent)
            && (forall i :: 0 <= i < |keys| ==> Some(keys[i]) in r.sent)
  {
    var keys := ActiveKeys(s, pid);
    forall t, i: nat | t in turns && i < |keys| ensures Live(s.cooldown, keys[i], t.pickTime) {
      var j :| 0 <= j < |turns| && turns[j] == t;
      assert turns[0].pickTime <= turns[j].pickTime;
      assert keys[i] in keys && NotCooling(s.cooldown, keys[i], turns[0].pickTime);
    }
    RateLimitedRest(s, pid, turns, {});
  }

  // ---------------------------------------------------------------- other rotating failures

  // Every reply asks for another key without being a 429, nobody interferes,
  // and the clock does not run backwards.
  ghost predicate OnlyRotations(turns: seq<Turn>) {
    && (forall t :: t in turns ==>
          && !t.raised && t.status >= 400 && t.status != 429 && t.meanwhile.None?
          && (t.status in {401, 402, 403} || t.authText || t.billingText))
    && forall i, j :: 0 <= i < j < |turns| ==> turns[i].pickTime <= turns[j].pickTime
  }

  // The positions such a chain picks: the offset is added to a pointer that
  // already moved on, so every step is one position longer than the last.
  ghost function Stride(n: nat, lives: seq<set<nat>>, start: nat, attempt: nat): (w: seq<nat>)
    requires start < n
    ensures |w| == |lives| && forall k :: 0 <= k < |w| ==> w[k] < n
  {
    if lives == [] then []
    else
      var p := Choose(n, lives[0], start);
      [p] + Stride(n, lives[1..], Wrap(Next(n, p) + attempt + 1, n), attempt + 1)
  }

  lemma {:induction false} StrideStep(n: nat, lives: seq<set<nat>>, start: nat, attempt: nat, k: nat)
    requires start < n && k < |lives|
    ensures var w := Stride(n, lives, start, attempt);
            w[k] == Choose(n, lives[k], if k == 0 then start else Wrap(Next(n, w[k - 1]) + attempt + k, n))
  {
    hide Choose, Wrap;
    if k > 0 {
      StrideStep(n, lives[1..], Wrap(Next(n, Choose(n, lives[0], start)) + attempt + 1, n), attempt + 1, k - 1);
    }
  }

  ghost function LiveAtTurns(s: State, pid: string, turns: seq<Turn>): (lives: seq<set<nat>>)
    ensures |lives| == |turns|
  {
    seq(|turns|, k requires 0 <= k < |turns| => LivePositions(s.cooldown, ActiveKeys(s, pid), turns[k].pickTime))
  }

  lemma {:induction false} RotationsGoOn(turns: seq<Turn>)
    requires turns != [] && OnlyRotations(turns)
    ensures OnlyRotations(turns[1..])
    ensures var t := turns[0]; !t.raised && t.status >= 400 && t.status != 429 && Rotates(t) && t.meanwhile.None?
  {
    assert turns[0] in turns;
  }

  lemma {:induction false} LiveAtLaterTurns(s: State, s': State, pid: string, turns: seq<Turn>)
    requires turns != [] && s'.cooldown == s.cooldown && ActiveKeys(s', pid) == ActiveKeys(s, pid)
    ensures var lives := LiveAtTurns(s, pid, turns);
            && lives[0] == LivePositions(s.cooldown, ActiveKeys(s, pid), turns[0].pickTime)
            && lives[1..] == LiveAtTurns(s', pid, turns[1..])
  {
    hide LivePositions, ActiveKeys;
  }

  lemma {:induction false} ChainStrides(s: State, pid: string, attempt: nat, turns: seq<Turn>, k: nat)
    requires k < |turns| == |ActiveKeys(s, pid)| - attempt && OnlyRotations(turns)
    ensures var keys, r := ActiveKeys(s, pid), Chain(s, pid, attempt, turns);
            var w := Stride(|keys|, LiveAtTurns(s, pid, turns), Start(s, pid, attempt), attempt);
            |r.sent| == |turns| && w[k] < |keys| && r.sent[k] == Some(keys[w[k]])
    decreases |turns|
  {
    hide Chain, Choose, LivePositions, LiveAtTurns, Wrap, Pick, ActiveKeys, OnlyRotations;
    var keys, n := ActiveKeys(s, pid), |ActiveKeys(s, pid)|;
    var lives := LiveAtTurns(s, pid, turns);
    var p := Choose(n, lives[0], Start(s, pid, attempt));
    var s' := s.(pointer := s.pointer[pid := Next(n, p)]);
    PickMovesOn(s, pid, attempt, turns[0].pickTime);
    RotationsGoOn(turns);
    LiveAtLaterTurns(s, s, pid, turns);
    if attempt < n - 1 {
      ChainGoesOn(s, pid, attempt, turns, Picked(Some(keys[p]), s'), s');
      LiveAtLaterTurns(s, s', pid, turns);
      ChainStrides(s', pid, attempt + 1, turns[1..], if k == 0 then 0 else k - 1);
    } else {
      ChainEnds(s, pid, attempt, turns, Picked(Some(keys[p]), s'), s');
    }
  }

  // The position of a pick while nothing is live.
  function Drifted(n: nat, start: nat, k: nat): (p: nat)
    requires n > 0
    ensures p < n
  {
    Wrap(start + Drift(k), n)
  }

  lemma {:induction false} WrapNext(n: nat, x: nat, y: nat)
    requires n > 0
    ensures Wrap(Next(n, Wrap(x, n)) + y, n) == Wrap(x + 1 + y, n)
  {
    hide Wrap, Rounds;
    var r := Wrap(x, n);
    var z := Next(n, r) + y;
    var a := RoundsAndRest(x, n);
    var b := RoundsAndRest(z, n);
    RoundsAdd(a, b, n);
    RoundsAdd(a + b, 1, n);
    WrapIsRest(x + 1 + y, n, if r + 1 == n then a + b + 1 else a + b, Wrap(z, n));
  }

  // While every key is cooling, the picks drift.
  lemma {:induction false} CoolingPicksDrift(n: nat, lives: seq<set<nat>>, start: nat, k: nat)
    requires start < n && k < |lives| && forall j :: 0 <= j <= k ==> lives[j] == {}
    ensures Stride(n, lives, start, 0)[k] == Drifted(n, start, k)
  {
    hide Stride, Wrap;
    StrideStep(n, lives, start, 0, k);
    if k == 0 {
      WrapAround(start, n, 0);
    } else {
      CoolingPicksDrift(n, lives, start, k - 1);
      WrapNext(n, start + Drift(k - 1), k);
    }
  }

  // All positions but one are met while every key is cooling, which takes three
  // keys or a power of two, and the last pick finds that one live.
  ghost predicate LeftoverReturns(n: nat, lives: seq<set<nat>>, start: nat)
    requires start < n == |lives| && n >= 2
  {
    && (forall k :: 0 <= k < n - 1 ==> lives[k] == {})
    && (n == 3 || PowerOfTwo(n))
    && exists p :: IsNearest(n, lives[n - 1], Drifted(n, start, n - 2), p) && IsLeftover(n, start, p)
  }

  ghost predicate IsLeftover(n: nat, start: nat, p: nat)
    requires n > 0
  {
    forall k :: 0 <= k < n - 1 ==> Drifted(n, start, k) != p
  }

  // The last pick starts where the one before it ended.
  lemma {:induction false} LastStartsBehind(n: nat, lives: seq<set<nat>>, start: nat)
    requires start < n == |lives| && n >= 2
    ensures var w := Stride(n, lives, start, 0); w[n - 1] == Choose(n, lives[n - 1], w[n - 2])
  {
    hide Stride, Wrap;
    var w := Stride(n, lives, start, 0);
    var p := w[n - 2];
    StrideStep(n, lives, start, 0, n - 1);
    WrapAround(p, n, n);
    WrapAround(p, n, 0);
    WrapNext(n, p, n - 1);
  }

  lemma {:induction false} StrideCoversIff(n: nat, lives: seq<set<nat>>, start: nat)
    requires start < n == |lives| && n >= 2
    requires forall i, j :: 0 <= i < j < n ==> lives[i] <= lives[j]
    requires forall i, p :: 0 <= i < n && p in lives[i] ==> p < n
    ensures NoRepeats(Stride(n, lives, start, 0)) <==> LeftoverReturns(n, lives, start)
  {
    hide Stride, Wrap;
    var w := Stride(n, lives, start, 0);
    LastStartsBehind(n, lives, start);
    if NoRepeats(w) {
      OnlyTheLastPickIsLive(n, lives, start);
      assert forall k :: 0 <= k < n - 1 ==> lives[k] <= lives[n - 2];
    }
    if forall k :: 0 <= k < n - 1 ==> lives[k] == {} {
      forall k | 0 <= k < n - 1 ensures w[k] == Drifted(n, start, k) {
        CoolingPicksDrift(n, lives, start, k);
      }
      OthersMetIff(n, start);
      hide Drifted, PowerOfTwo;
      LastPickDecides(n, w, lives[n - 1], start);
    }
  }

  lemma {:induction false} OthersMetIff(n: nat, start: nat)
    requires n > 0
    ensures (forall i, j :: 0 <= i < j < n - 1 ==> Drifted(n, start, i) != Drifted(n, start, j))
            <==> n == 3 || PowerOfTwo(n)
  {
    hide Wrap, PowerOfTwo, Drift;
    DriftMeetsOthersIff(n);
    forall i, j | 0 <= i < j < n - 1
      ensures Drifted(n, start, i) == Drifted(n, start, j) <==> Wrap(Drift(i), n) == Wrap(Drift(j), n)
    {
      ShiftedMeetIff(start, Drift(i), Drift(j), n);
    }
  }

  lemma {:induction false} OnlyTheLastPickIsLive(n: nat, lives: seq<set<nat>>, start: nat)
    requires start < n == |lives| && n >= 2 && lives[n - 2] <= lives[n - 1]
    requires var last := lives[n - 1]; forall p :: p in last ==> p < n
    requires NoRepeats(Stride(n, lives, start, 0))
    ensures lives[n - 2] == {} && lives[n - 1] != {}
  {
    hide Stride, Wrap, Choose;
    var w := Stride(n, lives, start, 0);
    LastStartsBehind(n, lives, start);
    StrideStep(n, lives, start, 0, n - 2);
    assert w[n - 2] != w[n - 1];
    StaysIfLive(n, lives[n - 1], w[n - 2]);
    ChosenIsLive(n, lives[n - 2], if n == 2 then start else Wrap(Next(n, w[n - 3]) + n - 2, n));
  }

  lemma {:induction false} StaysIfLive(n: nat, live: set<nat>, p: nat)
    requires p < n && forall q :: q in live ==> q < n
    ensures p in live || live == {} ==> Choose(n, live, p) == p
  {
    assert Distance(n, p, p) == 0;
    assert p in live ==> Distance(n, p, Choose(n, live, p)) == 0;
  }

  lemma {:induction false} ChosenIsLive(n: nat, live: set<nat>, start: nat)
    requires start < n && forall q :: q in live ==> q < n
    ensures live == {} || Choose(n, live, start) in live
  {
    if live != {} {
      var q :| q in live;
      assert q < n;
    }
  }

  lemma {:induction false} LastPickDecides(n: nat, w: seq<nat>, last: set<nat>, start: nat)
    requires start < n == |w| && n >= 2 && forall p :: p in last ==> p < n
    requires forall k :: 0 <= k < n - 1 ==> w[k] == Drifted(n, start, k)
    requires w[n - 2] < n && w[n - 1] == Choose(n, last, w[n - 2])
    ensures NoRepeats(w) <==>
            && (forall i, j :: 0 <= i < j < n - 1 ==> Drifted(n, start, i) != Drifted(n, start, j))
            && exists p :: IsNearest(n, last, Drifted(n, start, n - 2), p) && IsLeftover(n, start, p)
  {
    hide Drifted;
    var p, from := w[n - 1], w[n - 2];
    assert from == Drifted(n, start, n - 2);
    NearestOrStart(n, last, from);
    hide Choose, IsNearest;
    DistinctByLast(w);
    forall i, j | 0 <= i < j < n - 1 ensures w[i] != w[j] <==> Drifted(n, start, i) != Drifted(n, start, j) {
    }
    assert IsLeftover(n, start, p) <==> forall k :: 0 <= k < n - 1 ==> w[k] != p;
  }

  lemma {:induction false} NearestOrStart(n: nat, live: set<nat>, start: nat)
    requires start < n && forall q :: q in live ==> q < n
    ensures var p := Choose(n, live, start);
            if live == {} then p == start && forall q :: !IsNearest(n, live, start, q)
            else forall q :: IsNearest(n, live, start, q) <==> q == p
  {
    if live != {} {
      var q :| q in live;
      assert q < n;
    }
  }

  lemma {:induction false} DistinctByLast(w: seq<nat>)
    requires w != []
    ensures var n := |w|;
            NoRepeats(w) <==>
            (forall i, j :: 0 <= i < j < n - 1 ==> w[i] != w[j]) && forall k :: 0 <= k < n - 1 ==> w[k] != w[n - 1]
  {
  }

  // What the retry design promises for 429s fails for other rotating failures.
  // Such a chain reaches every key of the provider exactly when there is a
  // single one, or there are three or a power of two, every key is cooling until
  // the last attempt, and the last pick finds the key left over to be the
  // nearest one whose cooldown has ended.
  lemma {:induction false} RotatingChainReachesEveryKeyIff(s: State, pid: string, turns: seq<Turn>)
    requires var keys := ActiveKeys(s, pid); keys != [] && |turns| == |keys| && NoRepeats(keys)
    requires OnlyRotations(turns)
    ensures var keys := ActiveKeys(s, pid);
            (forall key :: key in keys ==> Some(key) in Chain(s, pid, 0, turns).sent)
            <==> |keys| == 1 || LeftoverReturns(|keys|, LiveAtTurns(s, pid, turns), Start(s, pid, 0))
  {
    hide Chain, Stride, OnlyRotations, LeftoverReturns;
    var keys, sent := ActiveKeys(s, pid), Chain(s, pid, 0, turns).sent;
    var n, lives, start := |keys|, LiveAtTurns(s, pid, turns), Start(s, pid, 0);
    var w := Stride(n, lives, start, 0);
    ChainStrides(s, pid, 0, turns, 0);
    forall k | 0 <= k < n ensures |sent| == n && w[k] < n && sent[k] == Some(keys[w[k]]) {
      ChainStrides(s, pid, 0, turns, k);
    }
    KeysReachedIffCovered(keys, sent, w);
    CoversIffDistinct(w, n);
    if n >= 2 {
      LiveGrows(s, pid, turns);
      StrideCoversIff(n, lives, start);
    }
  }

  lemma {:induction false} KeysReachedIffCovered(keys: seq<string>, sent: seq<Option<string>>, w: seq<nat>)
    requires NoRepeats(keys) && |keys| == |sent| == |w|
    requires forall k :: 0 <= k < |w| ==> w[k] < |keys| && sent[k] == Some(keys[w[k]])
    ensures (forall key :: key in keys ==> Some(key) in sent) <==> forall p :: 0 <= p < |keys| ==> p in w
  {
    if forall key :: key in keys ==> Some(key) in sent {
      forall p | 0 <= p < |keys| ensures p in w {
        assert keys[p] in keys && Some(keys[p]) in sent;
        var k := IndexOf(sent, Some(keys[p]));
        assert w[k] == p;
      }
    }
    if forall p :: 0 <= p < |keys| ==> p in w {
      forall key | key in keys ensures Some(key) in sent {
        var p := IndexOf(keys, key);
        var k := IndexOf(w, p);
        assert sent[k] == Some(key);
      }
    }
  }

  lemma {:induction false} IndexOf<T>(s: seq<T>, x: T) returns (k: nat)
    requires x in s
    ensures k < |s| && s[k] == x
  {
    k :| 0 <= k < |s| && s[k] == x;
  }

  // Keys only come back while nothing marks them.
  lemma {:induction false} LiveGrows(s: State, pid: string, turns: seq<Turn>)
    requires OnlyRotations(turns)
    ensures var lives := LiveAtTurns(s, pid, turns);
            && (forall i, j :: 0 <= i < j < |turns| ==> lives[i] <= lives[j])
            && forall i, p :: 0 <= i < |turns| && p in lives[i] ==> p < |ActiveKeys(s, pid)|
  {
  }

  ghost predicate AllCooling(s: State, pid: string, now: real) {
    forall key :: key in ActiveKeys(s, pid) ==> key in s.cooldown && s.cooldown[key] > now
  }

  // So unless every key is cooling at the first pick and one is live again at
  // the last, every key is reached only when there is a single one.
  lemma {:induction false} RotatingChainReachesEveryKeyOnlyIfAlone(s: State, pid: string, turns: seq<Turn>)
    requires var keys := ActiveKeys(s, pid); keys != [] && |turns| == |keys| && NoRepeats(keys)
    requires OnlyRotations(turns) && turns[0].pickTime >= 0.0
    requires AllCooling(s, pid, turns[0].pickTime) ==> AllCooling(s, pid, turns[|turns| - 1].pickTime)
    ensures (forall key :: key in ActiveKeys(s, pid) ==> Some(key) in Chain(s, pid, 0, turns).sent)
            <==> |ActiveKeys(s, pid)| == 1
  {
    RotatingChainReachesEveryKeyIff(s, pid, turns);
    assert turns[|turns| - 1].pickTime >= 0.0;
    hide Chain, OnlyRotations, ActiveKeys, AllCooling, LivePositions, Wrap;
    var keys, lives := ActiveKeys(s, pid), LiveAtTurns(s, pid, turns);
    CoolingIffNoneLive(s, pid, turns[0].pickTime);
    CoolingIffNoneLive(s, pid, turns[|turns| - 1].pickTime);
    hide LeftoverReturns;
    if |keys| >= 2 {
      LeftoverWasCooling(|keys|, lives, Start(s, pid, 0));
    }
  }

  lemma {:induction false} LeftoverWasCooling(n: nat, lives: seq<set<nat>>, start: nat)
    requires start < n == |lives| && n >= 2
    ensures LeftoverReturns(n, lives, start) ==> lives[0] == {} && lives[n - 1] != {}
  {
  }

  lemma {:induction false} CoolingIffNoneLive(s: State, pid: string, now: real)
    requires now >= 0.0
    ensures AllCooling(s, pid, now) <==> LivePositions(s.cooldown, ActiveKeys(s, pid), now) == {}
  {
    var keys := ActiveKeys(s, pid);
    if key :| key in keys && Live(s.cooldown, key, now) {
      var i :| 0 <= i < |keys| && keys[i] == key;
      assert i in LivePositions(s.cooldown, keys, now);
    }
  }

  // The smallest instance: with two keys a 401 is retried on the same key.
  lemma {:induction false} TwoKeysRetryTheSameKey(turns: seq<Turn>)
    requires |turns| == 2
    requires forall t :: t in turns ==> t == Turn(1.0, false, 401, false, false, 1.0, None)
    ensures var s := State(map["p" := Some("a")], map["p" := ["b"]], map[], map[]);
            var sent := Chain(s, "p", 0, turns).sent;
            |sent| == 2 && sent[0] == sent[1]
  {
    var s := State(map["p" := Some("a")], map["p" := ["b"]], map[], map[]);
    var lives := LiveAtTurns(s, "p", turns);
    assert ActiveKeys(s, "p") == ["a", "b"];
    assert turns[0] in turns && turns[1] in turns;
    ChainStrides(s, "p", 0, turns, 0);
    ChainStrides(s, "p", 0, turns, 1);
    LastStartsBehind(2, lives, Start(s, "p", 0));
  }

  // A cooldown that ends during the chain lets it reach the other key.
  lemma {:induction false} EndedCooldownReachesTheOtherKey(first: Turn, second: Turn)
    requires first == Turn(1.0, false, 401, false, false, 1.0, None)
    requires second == Turn(3.0, false, 401, false, false, 3.0, None)
    ensures var s := State(map["p" := Some("a")], map["p" := ["b"]], map[], map["a" := 5.0, "b" := 2.0]);
            Chain(s, "p", 0, [first, second]).sent == [Some("a"), Some("b")]
  {
    var s := State(map["p" := Some("a")], map["p" := ["b"]], map[], map["a" := 5.0, "b" := 2.0]);
    var turns := [first, second];
    var lives := LiveAtTurns(s, "p", turns);
    assert ActiveKeys(s, "p") == ["a", "b"];
    assert turns[0] in turns && turns[1] in turns;
    assert lives[0] == {} && lives[1] == {1};
    hide Pick, Chain;
    ChainStrides(s, "p", 0, turns, 0);
    ChainStrides(s, "p", 0, turns, 1);
    LastStartsBehind(2, lives, Start(s, "p", 0));
    WrapAround(0, 2, 0);
    hide Stride, LiveAtTurns, Wrap;
  }

  // A provider with two keys, none cooling.
  function TwoKeys(pointer: nat): State {
    State(map["p" := Some("a")], map["p" := ["b"]], map["p" := pointer], map[])
  }

  lemma {:induction false} PickOfTwo(pointer: nat, offset: nat, now: real)
    requires pointer + offset < 2 && now >= 0.0
    ensures Pick(TwoKeys(pointer), "p", offset, now) ==
            if pointer + offset == 0 then Picked(Some("a"), TwoKeys(1)) else Picked(Some("b"), TwoKeys(0))
  {
    var s := TwoKeys(pointer);
    assert ActiveKeys(s, "p") == ["a", "b"];
    WrapAround(0, 2, pointer + offset);
    hide Wrap;
    LivePickIsStart(s, "p", offset, now);
    hide Pick;
    assert map["p" := pointer]["p" := 1] == map["p" := 1] && map["p" := pointer]["p" := 0] == map["p" := 0];
  }

  // So does another request that picks a key in between.
  lemma {:induction false} AnotherPickReachesTheOtherKey(first: Turn, second: Turn)
    requires var mine := Pick(TwoKeys(0), "p", 0, 1.0).state;
             first == Turn(1.0, false, 401, false, false, 1.0, Some(Pick(mine, "p", 0, 1.5).state))
    requires second == Turn(2.0, false, 401, false, false, 2.0, None)
    ensures Chain(TwoKeys(0), "p", 0, [first, second]).sent == [Some("a"), Some("b")]
  {
    var s, turns := TwoKeys(0), [first, second];
    assert ActiveKeys(s, "p") == ["a", "b"];
    PickOfTwo(0, 0, 1.0);
    PickOfTwo(1, 0, 1.5);
    PickOfTwo(0, 1, 2.0);
    hide Pick;
    ChainGoesOn(s, "p", 0, turns, Picked(Some("a"), TwoKeys(1)), s);
    ChainEnds(s, "p", 1, turns[1..], Picked(Some("b"), s), s);
  }
}
