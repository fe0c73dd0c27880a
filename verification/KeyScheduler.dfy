/**
 Key selection of app/services/provider_manager.py: a moving pointer per
 provider, a cooldown time stamp per key, and a cyclic scan that skips keys
 still cooling down.

 `ProviderManager` is the object; `Pick` of a `State` is the specification
 its scan loop is proved against.  The fairness results are about whole
 sequences of picks.
 */
module KeyScheduler {
  import opened Wrappers
  import opened Sets

  // ---------------------------------------------------------------- state

  // The part of the registry that key selection reads and writes.  `primary`
  // has one entry per known provider: its own key, if it has one.
  datatype State = State(
    primary: map<string, Option<string>>,
    pool: map<string, seq<string>>,
    pointer: map<string, nat>,
    cooldown: map<string, real>)

  // Python's truth value of an optional string.
  predicate Truthy(key: Option<string>) {
    key.Some? && key.value != ""
  }

  // All active keys of a provider: its own key first, then the pool.
  function ActiveKeys(s: State, pid: string): seq<string> {
    var pool := if pid in s.pool then s.pool[pid] else [];
    if pid in s.primary && Truthy(s.primary[pid]) then [s.primary[pid].value] + pool else pool
  }

  predicate Live(cooldown: map<string, real>, key: string, now: real) {
    (if key in cooldown then cooldown[key] else 0.0) <= now
  }

  ghost function LivePositions(cooldown: map<string, real>, keys: seq<string>, now: real): set<nat> {
    set i: nat | i < |keys| && Live(cooldown, keys[i], now)
  }

  function Pointer(s: State, pid: string): nat {
    if pid in s.pointer then s.pointer[pid] else 0
  }

  // ---------------------------------------------------------------- one pick, on positions

  // How far clockwise `to` is from `from` on a ring of `n` positions.
  function Distance(n: nat, from: nat, to: nat): (d: nat)
    requires from < n && to < n
    ensures d < n
  {
    if from <= to then to - from else to + n - from
  }

  ghost predicate IsNearest(n: nat, live: set<nat>, start: nat, p: nat)
    requires start < n
  {
    && p < n && p in live
    && forall q :: q in live && q < n ==> Distance(n, start, p) <= Distance(n, start, q)
  }

  // The position `k` steps clockwise from `start`.
  function At(n: nat, start: nat, k: nat): (p: nat)
    requires start < n && k < n
    ensures p < n
  {
    if start + k < n then start + k else start + k - n
  }

  // None of the first `k` positions from `start` on is live.
  ghost predicate NoneBefore(n: nat, live: set<nat>, start: nat, k: nat)
    requires start < n
  {
    forall q :: q in live && q < n ==> k <= Distance(n, start, q)
  }

  ghost function ChooseFrom(n: nat, live: set<nat>, start: nat, k: nat): (p: nat)
    requires start < n && k <= n && NoneBefore(n, live, start, k)
    ensures p < n
    ensures (exists q :: q in live && q < n) ==> IsNearest(n, live, start, p)
    ensures !(exists q :: q in live && q < n) ==> p == start
    decreases n - k
  {
    if k == n then start
    else if At(n, start, k) in live then At(n, start, k)
    else
      assert forall q :: q in live && q < n && Distance(n, start, q) == k ==> q == At(n, start, k);
      ChooseFrom(n, live, start, k + 1)
  }

  // The position a pick selects: the nearest live one, or the start when no
  // position is live.
  ghost function Choose(n: nat, live: set<nat>, start: nat): (p: nat)
    requires start < n
    ensures p < n
    ensures (exists q :: q in live && q < n) ==> IsNearest(n, live, start, p)
    ensures !(exists q :: q in live && q < n) ==> p == start
  {
    ChooseFrom(n, live, start, 0)
  }

  // ---------------------------------------------------------------- one pick, on the state

  // The position after `p`, clockwise.
  function Next(n: nat, p: nat): (q: nat)
    requires p < n
    ensures q < n
  {
    if p + 1 == n then 0 else p + 1
  }

  // A number wrapped around the ring.
  function Wrap(x: nat, n: nat): (r: nat)
    requires n > 0
    ensures r < n
  {
    x % n
  }

  // `q` times around the ring.
  function Rounds(q: int, n: nat): int {
    q * n
  }

  lemma {:induction false} RoundsAdd(p: int, q: int, n: nat)
    ensures Rounds(p + q, n) == Rounds(p, n) + Rounds(q, n)
    ensures Rounds(0, n) == 0 && Rounds(1, n) == n
  {
  }

  lemma {:induction false} RoundsAndRest(x: nat, n: nat) returns (q: nat)
    requires n > 0
    ensures x == Rounds(q, n) + Wrap(x, n)
  {
    q := x / n;
  }

  lemma {:induction false} AtLeastARound(q: int, n: nat)
    ensures q >= 1 ==> Rounds(q, n) >= n
    ensures q <= -1 ==> Rounds(q, n) + n <= 0
  {
  }

  lemma {:induction false} WrapIsRest(x: nat, n: nat, q: nat, r: nat)
    requires x == Rounds(q, n) + r && r < n
    ensures Wrap(x, n) == r
  {
    var p := RoundsAndRest(x, n);
    RoundsAdd(q - p, p, n);
    hide Rounds, Wrap;
    AtLeastARound(q - p, n);
    RoundsAdd(0, 0, n);
  }

  // A walk of less than a round.
  lemma {:induction false} WrapAround(start: nat, n: nat, k: nat)
    requires start < n && k <= n
    ensures Wrap(start + k, n) == if k == n then start else At(n, start, k)
  {
    RoundsAdd(0, 1, n);
    hide Rounds, Wrap;
    if start + k < n { WrapIsRest(start + k, n, 0, start + k); } else { WrapIsRest(start + k, n, 1, start + k - n); }
  }

  // Where the scan of a pick starts.
  function Start(s: State, pid: string, offset: nat): (start: nat)
    requires ActiveKeys(s, pid) != []
    ensures start < |ActiveKeys(s, pid)|
  {
    Wrap(Pointer(s, pid) + offset, |ActiveKeys(s, pid)|)
  }

  datatype Picked = Picked(key: Option<string>, state: State)

  ghost function Pick(s: State, pid: string, offset: nat, now: real): (r: Picked) {
    var keys := ActiveKeys(s, pid);
    if keys == [] then
      Picked(if pid in s.primary then s.primary[pid] else None, s)
    else
      var p := Choose(|keys|, LivePositions(s.cooldown, keys, now), Start(s, pid, offset));
      Picked(Some(keys[p]), s.(pointer := s.pointer[pid := Next(|keys|, p)]))
  }

  // How a scan that stops at a live position, or runs out, determines the pick.
  lemma {:induction false} ScanDeterminesPick(s: State, pid: string, offset: nat, now: real, p: nat)
    requires var keys := ActiveKeys(s, pid); keys != [] && p < |keys|
    requires var keys, start := ActiveKeys(s, pid), Start(s, pid, offset);
             var live := LivePositions(s.cooldown, keys, now);
             IsNearest(|keys|, live, start, p) || (NoneBefore(|keys|, live, start, |keys|) && p == start)
    ensures var keys := ActiveKeys(s, pid);
            Pick(s, pid, offset, now) == Picked(Some(keys[p]), s.(pointer := s.pointer[pid := Next(|keys|, p)]))
  {
  }

  // ---------------------------------------------------------------- a pick in plain terms

  // The key was never rate limited, or its cooldown has ended.
  predicate NotCooling(cooldown: map<string, real>, key: string, now: real) {
    key !in cooldown || cooldown[key] <= now
  }

  // The `k`-th key from `start` on.
  function KeyAt(keys: seq<string>, start: nat, k: nat): string
    requires keys != []
  {
    keys[(start + k) % |keys|]
  }

  // `k` steps around the ring end where the remainder says.
  lemma {:induction false} StepsAround(n: nat, start: nat, k: nat)
    requires start < n && k < n
    ensures (start + k) % n == At(n, start, k) && Next(n, At(n, start, k)) == (start + k + 1) % n
  {
    WrapAround(start, n, k);
    WrapAround(start, n, k + 1);
    assert Wrap(start + k, n) == (start + k) % n && Wrap(start + k + 1, n) == (start + k + 1) % n;
  }

  // The keys are the provider's own, if it has one, and its pool.  The scan
  // starts at the pointer plus the offset.  The first key from there on that was
  // never rate limited, or whose cooldown has ended, is handed out, and the
  // pointer moves behind it; with every key cooling it is the one at the start.
  lemma {:induction false} PickInPlainTerms(
    s: State, pid: string, offset: nat, now: real, keys: seq<string>, start: nat)
    requires now >= 0.0
    requires keys == (if pid in s.primary && s.primary[pid].Some? && s.primary[pid].value != ""
                      then [s.primary[pid].value] else []) + (if pid in s.pool then s.pool[pid] else [])
    requires keys != [] ==> start == ((if pid in s.pointer then s.pointer[pid] else 0) + offset) % |keys|
    ensures keys == [] ==>
              Pick(s, pid, offset, now) == Picked(if pid in s.primary then s.primary[pid] else None, s)
    ensures forall k :: 0 <= k < |keys| && FirstAvailable(s, keys, start, now, k) ==>
              Pick(s, pid, offset, now) ==
              Picked(Some(KeyAt(keys, start, k)), s.(pointer := s.pointer[pid := (start + k + 1) % |keys|]))
    ensures keys != [] && (forall key :: key in keys ==> !NotCooling(s.cooldown, key, now)) ==>
              Pick(s, pid, offset, now) ==
              Picked(Some(keys[start]), s.(pointer := s.pointer[pid := (start + 1) % |keys|]))
  {
    assert keys == ActiveKeys(s, pid);
    if keys != [] {
      assert start == Start(s, pid, offset);
      hide Pick, Wrap, NotCooling, ActiveKeys, FirstAvailable;
      forall k | 0 <= k < |keys| && FirstAvailable(s, keys, start, now, k)
        ensures Pick(s, pid, offset, now) ==
                Picked(Some(KeyAt(keys, start, k)), s.(pointer := s.pointer[pid := (start + k + 1) % |keys|]))
      {
        FirstAvailableIsPicked(s, pid, offset, now, k);
      }
      if forall key :: key in keys ==> !NotCooling(s.cooldown, key, now) {
        CoolingIsStart(s, pid, offset, now);
      }
    }
  }

  lemma {:induction false} FirstAvailableIsPicked(s: State, pid: string, offset: nat, now: real, k: nat)
    requires now >= 0.0 && k < |ActiveKeys(s, pid)|
    requires FirstAvailable(s, ActiveKeys(s, pid), Start(s, pid, offset), now, k)
    ensures var keys, start := ActiveKeys(s, pid), Start(s, pid, offset);
            Pick(s, pid, offset, now) ==
            Picked(Some(KeyAt(keys, start, k)), s.(pointer := s.pointer[pid := (start + k + 1) % |keys|]))
  {
    var keys, start := ActiveKeys(s, pid), Start(s, pid, offset);
    PickMovesOn(s, pid, offset, now);
    FirstAvailableIsNearest(s, keys, start, now, k);
    StepsAround(|keys|, start, k);
    hide Pick, Choose, Wrap, FirstAvailable, LivePositions, ActiveKeys;
  }

  lemma {:induction false} CoolingIsStart(s: State, pid: string, offset: nat, now: real)
    requires now >= 0.0 && ActiveKeys(s, pid) != []
    requires forall key :: key in ActiveKeys(s, pid) ==> !NotCooling(s.cooldown, key, now)
    ensures var keys, start := ActiveKeys(s, pid), Start(s, pid, offset);
            Pick(s, pid, offset, now) ==
            Picked(Some(keys[start]), s.(pointer := s.pointer[pid := (start + 1) % |keys|]))
  {
    var keys, start := ActiveKeys(s, pid), Start(s, pid, offset);
    assert forall i :: 0 <= i < |keys| ==> keys[i] in keys;
    assert LivePositions(s.cooldown, keys, now) == {};
    PickMovesOn(s, pid, offset, now);
    StepsAround(|keys|, start, 0);
    hide Pick, Choose, Wrap, LivePositions, ActiveKeys;
  }

  // The `k`-th key from `start` on is not cooling, and all before it are.
  ghost predicate FirstAvailable(s: State, keys: seq<string>, start: nat, now: real, k: nat)
    requires k < |keys|
  {
    && NotCooling(s.cooldown, KeyAt(keys, start, k), now)
    && forall j :: 0 <= j < k ==> !NotCooling(s.cooldown, KeyAt(keys, start, j), now)
  }

  lemma {:induction false} FirstAvailableIsNearest(s: State, keys: seq<string>, start: nat, now: real, k: nat)
    requires now >= 0.0 && start < |keys| && k < |keys| && FirstAvailable(s, keys, start, now, k)
    ensures Choose(|keys|, LivePositions(s.cooldown, keys, now), start) == At(|keys|, start, k)
  {
    var n, live := |keys|, LivePositions(s.cooldown, keys, now);
    forall j | 0 <= j <= k ensures At(n, start, j) in live <==> j == k {
      StepsAround(n, start, j);
      assert KeyAt(keys, start, j) == keys[At(n, start, j)];
    }
    var p := At(n, start, k);
    assert Distance(n, start, p) == k;
    forall q | q in live && q < n ensures k <= Distance(n, start, q) {
      var d := Distance(n, start, q);
      assert At(n, start, d) == q;
    }
  }

  function MarkRateLimited(s: State, key: string, now: real, seconds: real): State {
    s.(cooldown := s.cooldown[key := now + seconds])
  }

  // ---------------------------------------------------------------- the object

  class ProviderManager {
    var primary: map<string, Option<string>>
    var providerKeys: map<string, seq<string>>
    var rrCounter: map<string, nat>
    var keyCooldown: map<string, real>

    function View(): State
      reads this
    {
      State(primary, providerKeys, rrCounter, keyCooldown)
    }

    constructor (s: State)
      ensures View() == s
    {
      primary, providerKeys, rrCounter, keyCooldown := s.primary, s.pool, s.pointer, s.cooldown;
    }

    // Everything another coroutine may do to the registry while a request is
    // awaited.
    method Overwrite(s: State)
      modifies this
      ensures View() == s
    {
      primary, providerKeys, rrCounter, keyCooldown := s.primary, s.pool, s.pointer, s.cooldown;
    }

    // The first live position from `start` on, around the ring.
    method Scan(keys: seq<string>, start: nat, now: real) returns (found: Option<nat>)
      requires start < |keys|
      ensures var live := LivePositions(keyCooldown, keys, now);
              match found
              case Some(p) => IsNearest(|keys|, live, start, p)
              case None => NoneBefore(|keys|, live, start, |keys|)
    {
      var n := |keys|;
      ghost var live := LivePositions(keyCooldown, keys, now);
      for k := 0 to n
        invariant NoneBefore(n, live, start, k)
      {
        var idx := (start + k) % n;
        WrapAround(start, n, k);
        if Live(keyCooldown, keys[idx], now) {
          return Some(idx);
        }
        assert forall q :: q in live && q < n && Distance(n, start, q) == k ==> q == idx;
      }
      return None;
    }

    method PickKey(pid: string, offset: nat, now: real) returns (key: Option<string>)
      modifies this`rrCounter
      ensures Picked(key, View()) == Pick(old(View()), pid, offset, now)
    {
      hide LivePositions, IsNearest, NoneBefore, Choose;
      var keys := ActiveKeys(View(), pid);
      if keys == [] {
        return if pid in primary then primary[pid] else None;
      }
      var n := |keys|;
      var start := (Pointer(View(), pid) + offset) % n;
      var found := Scan(keys, start, now);
      // all keys cooling down: plain round-robin
      var idx := if found.Some? then found.value else start;
      ScanDeterminesPick(View(), pid, offset, now, idx);
      WrapAround(idx, n, 1);
      rrCounter := rrCounter[pid := (idx + 1) % n];
      return Some(keys[idx]);
    }

    method MarkKeyRateLimited(apiKey: string, now: real, cooldownSeconds: real)
      modifies this`keyCooldown
      ensures View() == MarkRateLimited(old(View()), apiKey, now, cooldownSeconds)
    {
      keyCooldown := keyCooldown[apiKey := now + cooldownSeconds];
    }
  }

  // ---------------------------------------------------------------- many picks, on positions

  // The positions of consecutive picks; the set of live positions may be
  // different at each of them.
  ghost function Walk(n: nat, lives: seq<set<nat>>, start: nat): (w: seq<nat>)
    requires start < n
    ensures |w| == |lives|
  {
    if lives == [] then []
    else
      var p := Choose(n, lives[0], start);
      [p] + Walk(n, lives[1..], Next(n, p))
  }

  // A position that stays live is reached within its distance.
  lemma {:induction false} WalkReaches(n: nat, lives: seq<set<nat>>, start: nat, i: nat)
    requires start < n && i < n
    requires Distance(n, start, i) < |lives|
    requires forall j :: 0 <= j <= Distance(n, start, i) ==> i in lives[j]
    ensures i in Walk(n, lives, start)[..Distance(n, start, i) + 1]
    decreases |lives|
  {
    var p := Choose(n, lives[0], start);
    var d := Distance(n, start, i);
    var w := Walk(n, lives, start);
    if p == i {
      assert w[0] == i;
    } else {
      var rest := Next(n, p);
      assert Distance(n, rest, i) < d;
      forall j | 0 <= j <= Distance(n, rest, i) ensures i in lives[1..][j] {
        assert lives[1..][j] == lives[j + 1];
      }
      WalkReaches(n, lives[1..], rest, i);
      var j :| 0 <= j < Distance(n, rest, i) + 1 && Walk(n, lives[1..], rest)[j] == i;
      assert w[j + 1] == i;
    }
  }

  // The live positions met before `i` when scanning from `start`.
  ghost function Ahead(n: nat, live: set<nat>, start: nat, i: nat): set<nat>
    requires start < n && i < n
  {
    set q | q in live && q < n && Distance(n, start, q) < Distance(n, start, i)
  }

  lemma {:induction false} PickRemovesFromAhead(n: nat, live: set<nat>, start: nat, i: nat)
    requires start < n && i in live && i < n
    requires forall q :: q in live ==> q < n
    ensures var p := Choose(n, live, start);
            Ahead(n, live, Next(n, p), i) == if i == p then live - {p} else Ahead(n, live, start, i) - {p}
    ensures i == Choose(n, live, start) <==> Ahead(n, live, start, i) == {}
  {
    var p := Choose(n, live, start);
    var rest := Next(n, p);
    assert Distance(n, rest, p) == n - 1;
    forall q | q in live && q != p
      ensures Distance(n, rest, q) == Distance(n, start, q) - Distance(n, start, p) - 1
      ensures Distance(n, rest, q) < n - 1
    {
      assert Distance(n, start, p) < Distance(n, start, q);
    }
    if i != p {
      assert p in Ahead(n, live, start, i);
    }
  }

  // Under a constant set of live positions, the r-th pick is the live position
  // with exactly r live positions ahead of it.
  lemma {:induction false} PickByRank(n: nat, live: set<nat>, start: nat, count: nat, r: nat, i: nat)
    requires start < n && i in live && (forall q :: q in live ==> q < n)
    requires r < count <= |live|
    ensures Walk(n, seq(count, _ => live), start)[r] == i <==> |Ahead(n, live, start, i)| == r
    decreases count
  {
    var lives := seq(count, _ => live);
    var p := Choose(n, live, start);
    PickRemovesFromAhead(n, live, start, i);
    PickRemovesFromAhead(n, live, start, p);
    assert lives[1..] == seq(count - 1, _ => live);
    if r > 0 {
      PickByRank(n, live, Next(n, p), count - 1, r - 1, i);
      if i != p { assert p in Ahead(n, live, start, i); }
    }
  }

  lemma {:induction false} AheadIsSmall(n: nat, live: set<nat>, start: nat, i: nat)
    requires start < n && i in live && i < n
    ensures |Ahead(n, live, start, i)| < |live|
  {
    assert Ahead(n, live, start, i) <= live - {i};
    SubsetSize(Ahead(n, live, start, i), live - {i});
  }

  // Each live position is picked by exactly one of |live| consecutive picks.
  lemma {:induction false} EachLiveOnce(n: nat, live: set<nat>, start: nat, i: nat)
    requires start < n && i in live && (forall q :: q in live ==> q < n)
    ensures var w := Walk(n, seq(|live|, _ => live), start);
            var r := |Ahead(n, live, start, i)|;
            r < |w| && w[r] == i && forall r' :: 0 <= r' < |w| && w[r'] == i ==> r' == r
  {
    AheadIsSmall(n, live, start, i);
    var w := Walk(n, seq(|live|, _ => live), start);
    forall r | 0 <= r < |w| ensures w[r] == i <==> |Ahead(n, live, start, i)| == r {
      PickByRank(n, live, start, |live|, r, i);
    }
  }

  // A provider that was never used and has no key cooling starts with its own
  // key, and goes on to its pool.
  lemma {:induction false} FreshProviderStartsWithItsOwnKey(s: State, pid: string, now: real)
    requires pid in s.primary && Truthy(s.primary[pid]) && pid !in s.pointer
    requires forall key :: key in ActiveKeys(s, pid) ==> Live(s.cooldown, key, now)
    ensures var r := Pick(s, pid, 0, now);
            && r.key == s.primary[pid]
            && (pid in s.pool && s.pool[pid] != [] ==> Pick(r.state, pid, 0, now).key == Some(s.pool[pid][0]))
  {
    var keys := ActiveKeys(s, pid);
    LivePickIsStart(s, pid, 0, now);
    var s' := s.(pointer := s.pointer[pid := Next(|keys|, 0)]);
    StartAfter(s, pid, 0);
    LivePickIsStart(s', pid, 0, now);
  }

  // With no key cooling, a pick takes the position it starts from.
  lemma {:induction false} LivePickIsStart(s: State, pid: string, offset: nat, now: real)
    requires ActiveKeys(s, pid) != [] && forall key :: key in ActiveKeys(s, pid) ==> Live(s.cooldown, key, now)
    ensures var keys, p := ActiveKeys(s, pid), Start(s, pid, offset);
            Pick(s, pid, offset, now) == Picked(Some(keys[p]), s.(pointer := s.pointer[pid := Next(|keys|, p)]))
  {
  }

  // ---------------------------------------------------------------- many picks, on the state

  // What the rest of the program does to the cooldowns before a pick, and the
  // clock reading of that pick.
  datatype World = World(cooldown: map<string, real>, now: real)

  // The keys handed out by consecutive picks without retry offset.
  ghost function Picks(s: State, pid: string, worlds: seq<World>): (keys: seq<Option<string>>)
    ensures |keys| == |worlds|
    decreases |worlds|
  {
    if worlds == [] then []
    else
      var r := Pick(s.(cooldown := worlds[0].cooldown), pid, 0, worlds[0].now);
      [r.key] + Picks(r.state, pid, worlds[1..])
  }

  ghost function LiveAt(keys: seq<string>, worlds: seq<World>): (lives: seq<set<nat>>)
    ensures |lives| == |worlds|
    ensures forall j :: 0 <= j < |worlds| ==> lives[j] == LivePositions(worlds[j].cooldown, keys, worlds[j].now)
  {
    if worlds == [] then []
    else [LivePositions(worlds[0].cooldown, keys, worlds[0].now)] + LiveAt(keys, worlds[1..])
  }

  lemma {:induction false} PickMovesOn(s: State, pid: string, offset: nat, now: real)
    requires ActiveKeys(s, pid) != []
    ensures var keys := ActiveKeys(s, pid);
            var p := Choose(|keys|, LivePositions(s.cooldown, keys, now), Start(s, pid, offset));
            var s' := s.(pointer := s.pointer[pid := Next(|keys|, p)]);
            && Pick(s, pid, offset, now) == Picked(Some(keys[p]), s')
            && ActiveKeys(s', pid) == keys && Pointer(s', pid) == Next(|keys|, p)
            && Start(s', pid, 0) == Next(|keys|, p)
  {
    hide Wrap, Choose, LivePositions;
    var keys := ActiveKeys(s, pid);
    StartAfter(s, pid, Choose(|keys|, LivePositions(s.cooldown, keys, now), Start(s, pid, offset)));
  }

  lemma {:induction false} StartAfter(s: State, pid: string, p: nat)
    requires p < |ActiveKeys(s, pid)|
    ensures var s' := s.(pointer := s.pointer[pid := Next(|ActiveKeys(s, pid)|, p)]);
            ActiveKeys(s', pid) == ActiveKeys(s, pid) && Pointer(s', pid) == Next(|ActiveKeys(s, pid)|, p)
            && Start(s', pid, 0) == Next(|ActiveKeys(s, pid)|, p)
  {
    hide Wrap;
    WrapAround(Next(|ActiveKeys(s, pid)|, p), |ActiveKeys(s, pid)|, 0);
  }

  lemma {:induction false} PicksFollowWalk(s: State, pid: string, worlds: seq<World>, j: nat, start: nat)
    requires ActiveKeys(s, pid) != [] && j < |worlds| && start == Start(s, pid, 0)
    ensures var keys := ActiveKeys(s, pid);
            var p := Walk(|keys|, LiveAt(keys, worlds), start)[j];
            p < |keys| && Picks(s, pid, worlds)[j] == Some(keys[p])
    decreases j
  {
    hide Pick, Choose, LivePositions, Wrap;
    var keys, s0 := ActiveKeys(s, pid), s.(cooldown := worlds[0].cooldown);
    var lives := LiveAt(keys, worlds);
    var p := Choose(|keys|, lives[0], start);
    var r := Pick(s0, pid, 0, worlds[0].now);
    PickMovesOn(s0, pid, 0, worlds[0].now);
    assert r.key == Some(keys[p]);
    if j > 0 {
      assert lives[1..] == LiveAt(keys, worlds[1..]);
      PicksFollowWalk(r.state, pid, worlds[1..], j - 1, Next(|keys|, p));
      assert Walk(|keys|, lives, start)[j] == Walk(|keys|, lives[1..], Next(|keys|, p))[j - 1];
      assert Picks(s, pid, worlds)[j] == Picks(r.state, pid, worlds[1..])[j - 1];
    }
  }

  // Bounded wait: whatever happens to the other keys' cooldowns, a key that is
  // never cooling is handed out within as many picks as there are keys.
  lemma {:induction false} BoundedWait(s: State, pid: string, worlds: seq<World>, i: nat)
    requires i < |ActiveKeys(s, pid)| <= |worlds|
    requires forall j :: 0 <= j < |ActiveKeys(s, pid)| ==>
               worlds[j].now >= 0.0 && NotCooling(worlds[j].cooldown, ActiveKeys(s, pid)[i], worlds[j].now)
    ensures Some(ActiveKeys(s, pid)[i]) in Picks(s, pid, worlds)[..|ActiveKeys(s, pid)|]
  {
    var keys := ActiveKeys(s, pid);
    var n, start := |keys|, Start(s, pid, 0);
    var w := Walk(n, LiveAt(keys, worlds), start);
    WalkReaches(n, LiveAt(keys, worlds), start, i);
    var j :| 0 <= j < Distance(n, start, i) + 1 && w[j] == i;
    PicksFollowWalk(s, pid, worlds, j, start);
  }

  // `order` lists the positions of `live`, each once.
  ghost predicate ListsOnce(order: seq<nat>, live: set<nat>) {
    && (forall i :: i in order <==> i in live)
    && forall a, b :: 0 <= a < b < |order| ==> order[a] != order[b]
  }

  lemma {:induction false} WalkListsOnce(n: nat, live: set<nat>, start: nat)
    requires start < n && (forall q :: q in live ==> q < n)
    ensures ListsOnce(Walk(n, seq(|live|, _ => live), start), live)
  {
    var w := Walk(n, seq(|live|, _ => live), start);
    WalkStaysLive(n, live, start, |live|);
    forall i | i in live ensures i in w && forall a, b :: 0 <= a < b < |w| && w[a] == i ==> w[b] != i {
      EachLiveOnce(n, live, start, i);
    }
    assert forall a :: 0 <= a < |w| ==> w[a] in live;
  }

  // With no position live, a walk is the plain round-robin it is with all live.
  lemma {:induction false} CoolingWalksOn(n: nat, none: set<nat>, all: set<nat>, start: nat, count: nat)
    requires start < n && none == {} && all == Upto(n)
    ensures Walk(n, seq(count, _ => none), start) == Walk(n, seq(count, _ => all), start)
    decreases count
  {
    if count > 0 {
      assert start in all && Distance(n, start, start) == 0;
      assert Choose(n, none, start) == start && Choose(n, all, start) == start;
      hide Choose;
      var a, b := seq(count, _ => none), seq(count, _ => all);
      assert a[1..] == seq(count - 1, _ => none) && b[1..] == seq(count - 1, _ => all);
      CoolingWalksOn(n, none, all, Next(n, start), count - 1);
      assert Walk(n, a, start) == [start] + Walk(n, a[1..], Next(n, start));
      assert Walk(n, b, start) == [start] + Walk(n, b[1..], Next(n, start));
    }
  }

  // The positions handed out while `live` are the live ones: those, or all when
  // every key is cooling.
  ghost function Served(n: nat, live: set<nat>): set<nat> {
    if live == {} then Upto(n) else live
  }

  lemma {:induction false} LiveAre(cooldown: map<string, real>, keys: seq<string>, now: real, live: set<nat>)
    requires now >= 0.0 && forall i :: i in live ==> i < |keys|
    requires forall i: nat :: i < |keys| ==> (i in live <==> NotCooling(cooldown, keys[i], now))
    ensures LivePositions(cooldown, keys, now) == live
  {
  }

  // Fair rotation: while the same positions stay live, as many consecutive
  // picks as there are live positions hand out each of them exactly once; with
  // every key cooling, as many as there are keys hand out every key once.
  lemma {:induction false} FairRotation(s: State, pid: string, worlds: seq<World>, live: set<nat>)
    returns (order: seq<nat>)
    requires ActiveKeys(s, pid) != [] && |worlds| == |Served(|ActiveKeys(s, pid)|, live)|
    requires forall w :: w in worlds ==> w.now >= 0.0
    requires forall w, i: nat :: w in worlds && i < |ActiveKeys(s, pid)| ==>
               (i in live <==> NotCooling(w.cooldown, ActiveKeys(s, pid)[i], w.now))
    requires forall i :: i in live ==> i < |ActiveKeys(s, pid)|
    ensures |order| == |worlds| && ListsOnce(order, Served(|ActiveKeys(s, pid)|, live))
    ensures forall j :: 0 <= j < |worlds| ==>
              order[j] < |ActiveKeys(s, pid)| && Picks(s, pid, worlds)[j] == Some(ActiveKeys(s, pid)[order[j]])
  {
    var keys := ActiveKeys(s, pid);
    var n, start, count := |keys|, Start(s, pid, 0), |worlds|;
    hide Start, ActiveKeys, Walk, Picks, ListsOnce, Choose;
    forall w | w in worlds ensures LivePositions(w.cooldown, keys, w.now) == live {
      LiveAre(w.cooldown, keys, w.now, live);
    }
    hide LivePositions, NotCooling;
    assert LiveAt(keys, worlds) == seq(count, _ => live);
    order := Walk(n, seq(count, _ => live), start);
    if live == {} { CoolingWalksOn(n, live, Upto(n), start, count); }
    WalkListsOnce(n, Served(n, live), start);
    forall j | 0 <= j < |worlds|
      ensures order[j] < n && Picks(s, pid, worlds)[j] == Some(keys[order[j]])
    {
      PicksFollowWalk(s, pid, worlds, j, start);
    }
  }

  lemma {:induction false} WalkStaysLive(n: nat, live: set<nat>, start: nat, count: nat)
    requires start < n && (count > 0 ==> live != {}) && (forall q :: q in live ==> q < n)
    ensures forall p :: p in Walk(n, seq(count, _ => live), start) ==> p in live && p < n
    decreases count
  {
    if count > 0 {
      var lives := seq(count, _ => live);
      assert lives[1..] == seq(count - 1, _ => live);
      var q :| q in live;
      WalkStaysLive(n, live, Next(n, Choose(n, live, start)), count - 1);
    }
  }
}
