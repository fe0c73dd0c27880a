/**
 The response cache of app/services/cache.py: an insertion-ordered dictionary
 with a capacity, a time to live, recency moves and pattern invalidation.

 `CacheService` is the object itself.  Its methods are proved against `Step`,
 and everything the cache promises is then stated about `Run`, the store
 reached by an arbitrary history of calls, in terms of that history alone:
 `Written`, `Held` and `Later` never look at the store.
 */
module LruCache {
  import opened Wrappers
  import opened Sets
  import opened Text

  // ---------------------------------------------------------------- data

  datatype Entry = Entry(key: string, value: string, expires: real)

  datatype Config = Config(maxEntries: int, ttl: real)

  // One locked call of the cache, with the clock reading it sees.
  datatype Op =
    | Get(key: string, now: real)
    | Set(key: string, value: string, now: real)
    | Invalidate(pattern: string, now: real)

  // `KeyError` is what popping from an empty dictionary raises, which happens
  // exactly when the capacity is not positive.
  datatype Outcome = Hit(value: string) | Miss | Stored | KeyError | Removed(count: nat)

  // ---------------------------------------------------------------- dictionary operations

  function Find(store: seq<Entry>, key: string): (r: Option<Entry>)
    ensures r.Some? ==> r.value.key == key
  {
    if store == [] then None
    else if store[0].key == key then Some(store[0])
    else Find(store[1..], key)
  }

  // `key in store`.
  predicate HasKey(store: seq<Entry>, key: string) {
    Find(store, key).Some?
  }

  // `del store[key]`, the order of the others kept.
  function Without(store: seq<Entry>, key: string): seq<Entry> {
    if store == [] then []
    else if store[0].key == key then store[1..]
    else [store[0]] + Without(store[1..], key)
  }

  // The entries `invalidate` leaves.
  function Unmatched(store: seq<Entry>, pattern: string): (r: seq<Entry>)
    ensures |r| <= |store|
  {
    if store == [] then []
    else if OccursIn(pattern, store[0].key) then Unmatched(store[1..], pattern)
    else [store[0]] + Unmatched(store[1..], pattern)
  }

  // ---------------------------------------------------------------- one call

  function GetStep(store: seq<Entry>, key: string, now: real): (seq<Entry>, Outcome) {
    match Find(store, key)
    case None => (store, Miss)
    case Some(entry) =>
      if entry.expires <= now then (Without(store, key), Miss)
      else (Without(store, key) + [entry], Hit(entry.value))
  }

  function SetStep(cfg: Config, store: seq<Entry>, key: string, value: string, now: real): (seq<Entry>, Outcome) {
    var entry := Entry(key, value, now + cfg.ttl);
    if HasKey(store, key) then (Without(store, key) + [entry], Stored)
    else if |store| >= cfg.maxEntries then
      if store == [] then (store, KeyError) else (store[1..] + [entry], Stored)
    else (store + [entry], Stored)
  }

  function Step(cfg: Config, store: seq<Entry>, op: Op): (seq<Entry>, Outcome) {
    match op
    case Get(key, now) => GetStep(store, key, now)
    case Set(key, value, now) => SetStep(cfg, store, key, value, now)
    case Invalidate(pattern, _) =>
      (Unmatched(store, pattern), Removed(|store| - |Unmatched(store, pattern)|))
  }

  // The store after a whole history of calls on an empty cache.
  function Run(cfg: Config, h: seq<Op>): seq<Entry> {
    if h == [] then [] else Step(cfg, Run(cfg, h[..|h| - 1]), h[|h| - 1]).0
  }

  // What the next call answers after that history.
  function Answer(cfg: Config, h: seq<Op>, op: Op): Outcome {
    Step(cfg, Run(cfg, h), op).1
  }

  // ---------------------------------------------------------------- the history, without the store

  // What the last uncancelled write of `k` left: its value and its deadline.
  ghost function Written(cfg: Config, h: seq<Op>, k: string): Option<(string, real)> {
    if h == [] then None
    else
      var before := h[..|h| - 1];
      match h[|h| - 1]
      case Get(_, _) => Written(cfg, before, k)
      case Set(x, value, now) => if x == k then Some((value, now + cfg.ttl)) else Written(cfg, before, k)
      case Invalidate(pattern, _) => if OccursIn(pattern, k) then None else Written(cfg, before, k)
  }

  ghost predicate Fresh(cfg: Config, h: seq<Op>, k: string, now: real) {
    var w := Written(cfg, h, k);
    w.Some? && now < w.value.1
  }

  // Whether `k` still occupies a slot.  A write of another key pushes it out
  // exactly when it makes `maxEntries` other keys more recent than `k`.
  ghost predicate Held(cfg: Config, h: seq<Op>, k: string)
    decreases |h|
  {
    if h == [] then false
    else
      var before := h[..|h| - 1];
      match h[|h| - 1]
      case Get(x, now) => Held(cfg, before, k) && (x == k ==> Fresh(cfg, before, k, now))
      case Set(x, _, _) =>
        if x == k then 0 < cfg.maxEntries
        else Held(cfg, before, k) && |Later(cfg, before, k) + {x}| < cfg.maxEntries
      case Invalidate(pattern, _) => Held(cfg, before, k) && !OccursIn(pattern, k)
  }

  // The other keys written or hit since `k` last was, and not dropped since.
  ghost function Later(cfg: Config, h: seq<Op>, k: string): set<string>
    decreases |h|
  {
    if h == [] then {}
    else
      var before := h[..|h| - 1];
      match h[|h| - 1]
      case Get(x, now) =>
        if x == k then {}
        else if Held(cfg, before, x) && Fresh(cfg, before, x, now) then Later(cfg, before, k) + {x}
        else Later(cfg, before, k) - {x}
      case Set(x, _, _) => if x == k then {} else Later(cfg, before, k) + {x}
      case Invalidate(pattern, _) => set x | x in Later(cfg, before, k) && !OccursIn(pattern, x)
  }

  // ---------------------------------------------------------------- what a store says about a key

  ghost predicate Distinct(store: seq<Entry>) {
    store == [] || (!HasKey(store[1..], store[0].key) && Distinct(store[1..]))
  }

  ghost function KeySet(store: seq<Entry>): set<string> {
    if store == [] then {} else {store[0].key} + KeySet(store[1..])
  }

  // The keys more recent than `k` in a store.
  ghost function After(store: seq<Entry>, k: string): set<string> {
    if store == [] then {}
    else if store[0].key == k then KeySet(store[1..])
    else After(store[1..], k)
  }

  // The store is exactly what the history says: who is in it, in which order
  // of recency, with which value and deadline.
  ghost predicate AgreesOn(cfg: Config, h: seq<Op>, store: seq<Entry>, k: string) {
    && (HasKey(store, k) <==> Held(cfg, h, k))
    && (HasKey(store, k) ==>
          && After(store, k) == Later(cfg, h, k)
          && Written(cfg, h, k) == Some((Find(store, k).value.value, Find(store, k).value.expires)))
  }

  ghost predicate Agrees(cfg: Config, h: seq<Op>, store: seq<Entry>) {
    && Distinct(store)
    && |store| <= (if 0 < cfg.maxEntries then cfg.maxEntries else 0)
    && forall k :: AgreesOn(cfg, h, store, k)
  }

  lemma {:induction false} KeySetHas(store: seq<Entry>, k: string)
    ensures k in KeySet(store) <==> HasKey(store, k)
  {
    if store != [] { KeySetHas(store[1..], k); }
  }

  lemma {:induction false} KeySetSize(store: seq<Entry>)
    requires Distinct(store)
    ensures |KeySet(store)| == |store|
  {
    if store != [] {
      KeySetSize(store[1..]);
      KeySetHas(store[1..], store[0].key);
    }
  }

  lemma {:induction false} WithoutKeySet(store: seq<Entry>, x: string)
    requires Distinct(store)
    ensures KeySet(Without(store, x)) == KeySet(store) - {x}
  {
    if store != [] {
      KeySetHas(store[1..], store[0].key);
      if store[0].key != x { WithoutKeySet(store[1..], x); }
    }
  }

  lemma {:induction false} WithoutKey(store: seq<Entry>, x: string, k: string)
    requires Distinct(store)
    ensures Distinct(Without(store, x))
    ensures |Without(store, x)| == if HasKey(store, x) then |store| - 1 else |store|
    ensures Find(Without(store, x), k) == if k == x then None else Find(store, k)
    ensures k != x ==> After(Without(store, x), k) == After(store, k) - {x}
  {
    if store != [] {
      if store[0].key == x {
        After0(store[1..], k, x);
      } else {
        WithoutKey(store[1..], x, k);
        WithoutKey(store[1..], x, store[0].key);
        WithoutKeySet(store[1..], x);
      }
    }
  }

  // A key that is not there is not after any other.
  lemma {:induction false} After0(store: seq<Entry>, k: string, x: string)
    ensures x in After(store, k) ==> HasKey(store, x)
  {
    if store != [] {
      if store[0].key == k { KeySetHas(store[1..], x); } else { After0(store[1..], k, x); }
    }
  }

  lemma {:induction false} AppendKeySet(store: seq<Entry>, e: Entry)
    ensures KeySet(store + [e]) == KeySet(store) + {e.key}
  {
    if store != [] {
      assert (store + [e])[1..] == store[1..] + [e];
      AppendKeySet(store[1..], e);
    }
  }

  lemma {:induction false} AppendKey(store: seq<Entry>, e: Entry, k: string)
    requires Distinct(store) && !HasKey(store, e.key)
    ensures Distinct(store + [e])
    ensures Find(store + [e], k) == if k == e.key then Some(e) else Find(store, k)
    ensures HasKey(store, k) ==> After(store + [e], k) == After(store, k) + {e.key}
    ensures k == e.key ==> After(store + [e], k) == {}
  {
    if store != [] {
      assert (store + [e])[1..] == store[1..] + [e];
      AppendKey(store[1..], e, k);
      AppendKey(store[1..], e, store[0].key);
      AppendKeySet(store[1..], e);
    }
  }

  lemma {:induction false} UnmatchedKeySet(store: seq<Entry>, pattern: string)
    ensures KeySet(Unmatched(store, pattern)) == set x | x in KeySet(store) && !OccursIn(pattern, x)
  {
    if store != [] { UnmatchedKeySet(store[1..], pattern); }
  }

  lemma {:induction false} UnmatchedKey(store: seq<Entry>, pattern: string, k: string)
    requires Distinct(store)
    ensures Distinct(Unmatched(store, pattern))
    ensures Find(Unmatched(store, pattern), k) == if OccursIn(pattern, k) then None else Find(store, k)
    ensures !OccursIn(pattern, k) ==>
              After(Unmatched(store, pattern), k) == set x | x in After(store, k) && !OccursIn(pattern, x)
  {
    if store != [] {
      UnmatchedKey(store[1..], pattern, k);
      UnmatchedKey(store[1..], pattern, store[0].key);
      UnmatchedKeySet(store[1..], pattern);
    }
  }

  // How full a store has to be for `k` to have `n` keys after it.
  lemma {:induction false} AfterSize(store: seq<Entry>, k: string)
    requires Distinct(store) && HasKey(store, k)
    ensures After(store, k) <= KeySet(store) - {k}
    ensures |After(store, k)| == |store| - 1 <==> store[0].key == k
    ensures |After(store, k)| < |store|
  {
    KeySetHas(store[1..], store[0].key);
    KeySetSize(store[1..]);
    if store[0].key != k {
      AfterSize(store[1..], k);
    }
  }

  // ---------------------------------------------------------------- one call keeps the agreement

  // A hit moves its key to the end.
  lemma {:induction false} HitAgrees(cfg: Config, h: seq<Op>, store: seq<Entry>, key: string, now: real, k: string)
    requires Agrees(cfg, h, store) && HasKey(store, key) && now < Find(store, key).value.expires
    ensures AgreesOn(cfg, h + [Get(key, now)], Without(store, key) + [Find(store, key).value], k)
  {
    var h' := h + [Get(key, now)];
    assert h'[..|h'| - 1] == h;
    assert AgreesOn(cfg, h, store, k) && AgreesOn(cfg, h, store, key);
    WithoutKey(store, key, k);
    WithoutKey(store, key, key);
    AppendKey(Without(store, key), Find(store, key).value, k);
  }

  // A get of an expired or absent key leaves it out.
  lemma {:induction false} MissAgrees(cfg: Config, h: seq<Op>, store: seq<Entry>, key: string, now: real, k: string)
    requires Agrees(cfg, h, store) && (HasKey(store, key) ==> Find(store, key).value.expires <= now)
    ensures AgreesOn(cfg, h + [Get(key, now)], if HasKey(store, key) then Without(store, key) else store, k)
  {
    var h' := h + [Get(key, now)];
    assert h'[..|h'| - 1] == h;
    assert AgreesOn(cfg, h, store, k) && AgreesOn(cfg, h, store, key);
    After0(store, k, key);
    WithoutKey(store, key, k);
  }

  lemma {:induction false} GetAgrees(cfg: Config, h: seq<Op>, store: seq<Entry>, key: string, now: real, k: string)
    requires Agrees(cfg, h, store)
    ensures AgreesOn(cfg, h + [Get(key, now)], GetStep(store, key, now).0, k)
  {
    hide Agrees, AgreesOn, Without;
    if HasKey(store, key) && now < Find(store, key).value.expires {
      HitAgrees(cfg, h, store, key, now, k);
    } else {
      MissAgrees(cfg, h, store, key, now, k);
    }
  }

  // Writing a key that is there moves it to the end and pushes nobody out.
  lemma {:induction false} ReplaceAgrees(
    cfg: Config, h: seq<Op>, store: seq<Entry>, key: string, value: string, now: real, k: string)
    requires Agrees(cfg, h, store) && HasKey(store, key)
    ensures AgreesOn(cfg, h + [Set(key, value, now)], Without(store, key) + [Entry(key, value, now + cfg.ttl)], k)
  {
    var h' := h + [Set(key, value, now)];
    assert h'[..|h'| - 1] == h;
    assert AgreesOn(cfg, h, store, k) && AgreesOn(cfg, h, store, key);
    WithoutKey(store, key, k);
    WithoutKey(store, key, key);
    AppendKey(Without(store, key), Entry(key, value, now + cfg.ttl), k);
    if HasKey(store, k) && k != key { OthersFit(store, k, key); }
    SetMeans(cfg, h, key, value, now, k);
    hide Held, Later, Written, Without, KeySet, After;
  }

  // What one more write adds to the history's account of `k`.
  lemma {:induction false} SetMeans(cfg: Config, h: seq<Op>, key: string, value: string, now: real, k: string)
    ensures var h' := h + [Set(key, value, now)];
            && Written(cfg, h', k) == (if key == k then Some((value, now + cfg.ttl)) else Written(cfg, h, k))
            && Later(cfg, h', k) == (if key == k then {} else Later(cfg, h, k) + {key})
            && (Held(cfg, h', k) <==>
                if key == k then 0 < cfg.maxEntries else Held(cfg, h, k) && |Later(cfg, h, k) + {key}| < cfg.maxEntries)
  {
    var h' := h + [Set(key, value, now)];
    assert h'[..|h'| - 1] == h;
  }

  lemma {:induction false} OthersFit(store: seq<Entry>, k: string, x: string)
    requires Distinct(store) && HasKey(store, k) && HasKey(store, x) && x != k
    ensures |After(store, k) + {x}| < |store|
  {
    AfterSize(store, k);
    KeySetSize(store);
    KeySetHas(store, x);
    KeySetHas(store, k);
    SubsetSize(After(store, k) + {x}, KeySet(store) - {k});
  }

  // Writing a new key into a store with room.
  lemma {:induction false} InsertAgrees(
    cfg: Config, h: seq<Op>, store: seq<Entry>, key: string, value: string, now: real, k: string)
    requires Agrees(cfg, h, store) && !HasKey(store, key) && |store| < cfg.maxEntries
    ensures AgreesOn(cfg, h + [Set(key, value, now)], store + [Entry(key, value, now + cfg.ttl)], k)
  {
    var h' := h + [Set(key, value, now)];
    assert h'[..|h'| - 1] == h;
    assert AgreesOn(cfg, h, store, k);
    AppendKey(store, Entry(key, value, now + cfg.ttl), k);
    if HasKey(store, k) { AfterSize(store, k); }
  }

  // Writing a new key into a full store drops the least recent one, and only it.
  lemma {:induction false} EvictAgrees(
    cfg: Config, h: seq<Op>, store: seq<Entry>, key: string, value: string, now: real, k: string)
    requires Agrees(cfg, h, store) && !HasKey(store, key) && |store| >= cfg.maxEntries && store != []
    ensures AgreesOn(cfg, h + [Set(key, value, now)], store[1..] + [Entry(key, value, now + cfg.ttl)], k)
  {
    var h' := h + [Set(key, value, now)];
    assert h'[..|h'| - 1] == h;
    assert AgreesOn(cfg, h, store, k);
    AppendKey(store[1..], Entry(key, value, now + cfg.ttl), k);
    if HasKey(store, k) {
      AfterSize(store, k);
      After0(store, k, key);
    }
  }

  lemma {:induction false} SetAgrees(
    cfg: Config, h: seq<Op>, store: seq<Entry>, key: string, value: string, now: real, k: string)
    requires Agrees(cfg, h, store)
    ensures AgreesOn(cfg, h + [Set(key, value, now)], SetStep(cfg, store, key, value, now).0, k)
  {
    if HasKey(store, key) {
      ReplaceAgrees(cfg, h, store, key, value, now, k);
    } else if |store| < cfg.maxEntries {
      InsertAgrees(cfg, h, store, key, value, now, k);
    } else if store != [] {
      EvictAgrees(cfg, h, store, key, value, now, k);
    } else {
      var h' := h + [Set(key, value, now)];
      assert h'[..|h'| - 1] == h;
      assert AgreesOn(cfg, h, store, k);
    }
  }

  lemma {:induction false} StepAgrees(cfg: Config, h: seq<Op>, store: seq<Entry>, op: Op)
    requires Agrees(cfg, h, store)
    ensures Agrees(cfg, h + [op], Step(cfg, store, op).0)
  {
    var store' := Step(cfg, store, op).0;
    forall k ensures AgreesOn(cfg, h + [op], store', k) {
      match op
      case Get(key, now) => GetAgrees(cfg, h, store, key, now, k);
      case Set(key, value, now) => SetAgrees(cfg, h, store, key, value, now, k);
      case Invalidate(pattern, now) =>
        assert (h + [op])[..|h + [op]| - 1] == h;
        assert AgreesOn(cfg, h, store, k);
        UnmatchedKey(store, pattern, k);
    }
    match op
    case Get(key, now) =>
      if HasKey(store, key) {
        WithoutKey(store, key, key);
        AppendKey(Without(store, key), Find(store, key).value, key);
      }
    case Set(key, value, now) =>
      var entry := Entry(key, value, now + cfg.ttl);
      if HasKey(store, key) {
        WithoutKey(store, key, key);
        AppendKey(Without(store, key), entry, key);
      } else if |store| < cfg.maxEntries {
        AppendKey(store, entry, key);
      } else if store != [] {
        AppendKey(store[1..], entry, key);
      }
    case Invalidate(pattern, now) => UnmatchedKey(store, pattern, "");
  }

  lemma {:induction false} RunAgrees(cfg: Config, h: seq<Op>)
    ensures Agrees(cfg, h, Run(cfg, h))
  {
    if h != [] {
      var before := h[..|h| - 1];
      RunAgrees(cfg, before);
      StepAgrees(cfg, before, Run(cfg, before), h[|h| - 1]);
      assert before + [h[|h| - 1]] == h;
    }
  }

  // ---------------------------------------------------------------- what every history promises

  // A get hits exactly when the last uncancelled write of the key has not
  // expired and its slot has not been taken, and returns what that write wrote.
  lemma {:induction false} GetIsExact(cfg: Config, h: seq<Op>, k: string, now: real)
    ensures Answer(cfg, h, Get(k, now)) ==
            if Held(cfg, h, k) && Fresh(cfg, h, k, now) then Hit(Written(cfg, h, k).value.0) else Miss
  {
    RunAgrees(cfg, h);
    assert AgreesOn(cfg, h, Run(cfg, h), k);
  }

  // No write of `k` and no invalidation covering it at or after position `from`.
  ghost predicate Undisturbed(h: seq<Op>, from: nat, k: string) {
    forall i :: from <= i < |h| ==>
      && !(h[i].Set? && h[i].key == k)
      && !(h[i].Invalidate? && OccursIn(h[i].pattern, k))
  }

  lemma {:induction false} WrittenByLastSet(cfg: Config, h: seq<Op>, k: string) returns (i: nat)
    requires Written(cfg, h, k).Some?
    ensures i < |h| && h[i].Set? && h[i].key == k && Undisturbed(h, i + 1, k)
    ensures Written(cfg, h, k) == Some((h[i].value, h[i].now + cfg.ttl))
  {
    var last := h[|h| - 1];
    if last.Set? && last.key == k {
      i := |h| - 1;
    } else {
      var before := h[..|h| - 1];
      i := WrittenByLastSet(cfg, before, k);
      assert Written(cfg, h, k) == Written(cfg, before, k);
      assert last.Invalidate? ==> !OccursIn(last.pattern, k);
      hide Written, OccursIn;
      assert h[i] == before[i];
    }
  }

  lemma {:induction false} LastSetIsWritten(cfg: Config, h: seq<Op>, k: string, i: nat)
    requires i < |h| && h[i].Set? && h[i].key == k && Undisturbed(h, i + 1, k)
    ensures Written(cfg, h, k) == Some((h[i].value, h[i].now + cfg.ttl))
  {
    if i < |h| - 1 { LastSetIsWritten(cfg, h[..|h| - 1], k, i); }
  }

  // Soundness: a hit returns the value of the most recent write of that key,
  // made strictly less than the time to live ago, with no matching
  // invalidation since.
  lemma {:induction false} HitIsSound(cfg: Config, h: seq<Op>, k: string, now: real, v: string)
    requires Answer(cfg, h, Get(k, now)) == Hit(v)
    ensures exists i :: 0 <= i < |h| && h[i].Set? && h[i].key == k && h[i].value == v
                        && Undisturbed(h, i + 1, k) && now - h[i].now < cfg.ttl
  {
    GetIsExact(cfg, h, k, now);
    var i := WrittenByLastSet(cfg, h, k);
  }

  // Position `i` wrote `k`, or read it and hit.
  ghost predicate Touches(cfg: Config, h: seq<Op>, i: nat, k: string)
    requires i < |h|
  {
    match h[i]
    case Get(x, _) => x == k && Answer(cfg, h[..i], h[i]).Hit?
    case Set(x, _, _) => x == k && Answer(cfg, h[..i], h[i]).Stored?
    case Invalidate(_, _) => false
  }

  // The keys other than `k` written or hit from position `from` on.
  ghost function TouchedOthers(cfg: Config, h: seq<Op>, from: nat, k: string): set<string>
    decreases |h|
  {
    if |h| <= from then {}
    else
      var rest := TouchedOthers(cfg, h[..|h| - 1], from, k);
      var op := h[|h| - 1];
      if !op.Invalidate? && op.key != k && Touches(cfg, h, |h| - 1, op.key) then rest + {op.key} else rest
  }

  // `TouchedOthers` is the set it is named after.
  lemma {:induction false} TouchedOthersMeaning(cfg: Config, h: seq<Op>, from: nat, k: string, x: string)
    ensures x in TouchedOthers(cfg, h, from, k) <==>
            x != k && exists i :: from <= i < |h| && Touches(cfg, h, i, x)
  {
    if from < |h| {
      var before := h[..|h| - 1];
      TouchedOthersMeaning(cfg, before, from, k, x);
      forall i | 0 <= i < |before| ensures Touches(cfg, before, i, x) == Touches(cfg, h, i, x) {
        assert before[..i] == h[..i];
      }
      assert h[..|h| - 1] == before;
    }
  }

  ghost predicate Monotone(h: seq<Op>, now: real) {
    forall i :: 0 <= i < |h| ==> h[i].now <= now
  }

  // From a touch of `k` on, `k` keeps its slot while fewer than `maxEntries`
  // others are touched.
  lemma {:induction false} KeepsSlot(cfg: Config, h: seq<Op>, k: string, touch: nat, deadline: real)
    requires touch < |h| && Touches(cfg, h, touch, k) && Undisturbed(h, touch + 1, k)
    requires Fresh(cfg, h, k, deadline) && Monotone(h, deadline)
    requires |TouchedOthers(cfg, h, touch + 1, k)| < cfg.maxEntries
    ensures Held(cfg, h, k) && Later(cfg, h, k) <= TouchedOthers(cfg, h, touch + 1, k)
  {
    var before, last := h[..|h| - 1], h[|h| - 1];
    if touch == |h| - 1 {
      RunAgrees(cfg, before);
      assert AgreesOn(cfg, before, Run(cfg, before), k);
    } else {
      assert Touches(cfg, before, touch, k) by { assert before[..touch] == h[..touch]; }
      SubsetSize(TouchedOthers(cfg, before, touch + 1, k), TouchedOthers(cfg, h, touch + 1, k));
      KeepsSlot(cfg, before, k, touch, deadline);
      match last
      case Get(x, now) =>
        GetIsExact(cfg, before, x, now);
      case Set(x, value, now) =>
        assert Touches(cfg, h, |h| - 1, x) by {
          RunAgrees(cfg, before);
        }
        SubsetSize(Later(cfg, before, k) + {x}, TouchedOthers(cfg, h, touch + 1, k));
      case Invalidate(_, _) =>
    }
  }

  // Completeness: a key written at position `write` and last known touched at
  // position `touch` is returned as long as its write has not expired, no
  // matching invalidation came since, and fewer than `maxEntries` other keys
  // were written or hit since that touch.
  lemma {:induction false} LruIsComplete(cfg: Config, h: seq<Op>, k: string, write: nat, touch: nat, now: real)
    requires write <= touch < |h| && h[write].Set? && h[write].key == k && Undisturbed(h, write + 1, k)
    requires Touches(cfg, h, touch, k)
    requires Monotone(h, now) && now < h[write].now + cfg.ttl
    requires |TouchedOthers(cfg, h, touch + 1, k)| < cfg.maxEntries
    ensures Answer(cfg, h, Get(k, now)) == Hit(h[write].value)
  {
    LastSetIsWritten(cfg, h, k, write);
    KeepsSlot(cfg, h, k, touch, now);
    GetIsExact(cfg, h, k, now);
  }

  lemma {:induction false} DistinctPositions(store: seq<Entry>, i: nat, j: nat)
    requires Distinct(store) && i < j < |store|
    ensures store[i].key != store[j].key
    ensures store[j].key in After(store, store[i].key)
  {
    KeySetAt(store[1..], j - 1);
    if i == 0 {
      KeySetHas(store[1..], store[j].key);
    } else {
      KeySetAt(store[1..], i - 1);
      KeySetHas(store[1..], store[i].key);
      DistinctPositions(store[1..], i - 1, j - 1);
    }
  }

  lemma {:induction false} KeySetAt(store: seq<Entry>, i: nat)
    requires i < |store|
    ensures store[i].key in KeySet(store)
  {
    if i > 0 { KeySetAt(store[1..], i - 1); }
  }

  // The store never outgrows its capacity.
  lemma {:induction false} NeverOverCapacity(cfg: Config, h: seq<Op>)
    ensures |Run(cfg, h)| <= if 0 < cfg.maxEntries then cfg.maxEntries else 0
  {
    RunAgrees(cfg, h);
  }

  // It never holds a key twice, and lists its keys from the least to the most
  // recently written or hit.
  lemma {:induction false} DistinctInRecencyOrder(cfg: Config, h: seq<Op>, i: nat, j: nat)
    requires i < j < |Run(cfg, h)|
    ensures Run(cfg, h)[i].key != Run(cfg, h)[j].key
    ensures Run(cfg, h)[j].key in Later(cfg, h, Run(cfg, h)[i].key)
    ensures Run(cfg, h)[i].key !in Later(cfg, h, Run(cfg, h)[j].key)
  {
    RunAgrees(cfg, h);
    var store := Run(cfg, h);
    DistinctPositions(store, i, j);
    NotAfterEarlier(store, i, j);
    KeySetAt(store, i);
    KeySetAt(store, j);
    KeySetHas(store, store[i].key);
    KeySetHas(store, store[j].key);
    assert AgreesOn(cfg, h, store, store[i].key) && AgreesOn(cfg, h, store, store[j].key);
  }

  lemma {:induction false} NotAfterEarlier(store: seq<Entry>, i: nat, j: nat)
    requires Distinct(store) && i < j < |store|
    ensures store[i].key !in After(store, store[j].key)
  {
    DistinctPositions(store, i, j);
    if i == 0 {
      if store[0].key in After(store[1..], store[j].key) {
        After0(store[1..], store[j].key, store[0].key);
      }
    } else {
      KeySetAt(store[1..], j - 1);
      KeySetHas(store[1..], store[j].key);
      NotAfterEarlier(store[1..], i - 1, j - 1);
    }
  }

  // A write fails exactly when the cache was configured with no room at all.
  lemma {:induction false} SetFailsOnlyWithoutCapacity(cfg: Config, h: seq<Op>, k: string, v: string, now: real)
    ensures Answer(cfg, h, Set(k, v, now)) == if cfg.maxEntries <= 0 then KeyError else Stored
  {
    RunAgrees(cfg, h);
  }

  ghost function MatchingKeys(store: seq<Entry>, pattern: string): set<string> {
    set k | k in KeySet(store) && OccursIn(pattern, k)
  }

  lemma {:induction false} UnmatchedSize(store: seq<Entry>, pattern: string)
    requires Distinct(store)
    ensures |store| - |Unmatched(store, pattern)| == |MatchingKeys(store, pattern)|
    ensures KeySet(Unmatched(store, pattern)) == KeySet(store) - MatchingKeys(store, pattern)
  {
    UnmatchedKeySet(store, pattern);
    UnmatchedKey(store, pattern, "");
    KeySetSize(store);
    KeySetSize(Unmatched(store, pattern));
    assert KeySet(store) == KeySet(Unmatched(store, pattern)) + MatchingKeys(store, pattern);
    assert KeySet(Unmatched(store, pattern)) !! MatchingKeys(store, pattern);
  }

  // An invalidation removes exactly the held keys containing the pattern and
  // returns how many it removed.
  lemma {:induction false} InvalidateIsExact(cfg: Config, h: seq<Op>, pattern: string, now: real)
    ensures var matching := MatchingKeys(Run(cfg, h), pattern);
            && (forall k :: k in matching <==> Held(cfg, h, k) && OccursIn(pattern, k))
            && Answer(cfg, h, Invalidate(pattern, now)) == Removed(|matching|)
            && KeySet(Run(cfg, h + [Invalidate(pattern, now)])) == KeySet(Run(cfg, h)) - matching
  {
    hide OccursIn, Held, Later, Written;
    var store, op := Run(cfg, h), Invalidate(pattern, now);
    assert (h + [op])[..|h + [op]| - 1] == h;
    RunAgrees(cfg, h);
    UnmatchedSize(store, pattern);
    forall k ensures k in MatchingKeys(store, pattern) <==> Held(cfg, h, k) && OccursIn(pattern, k) {
      KeySetHas(store, k);
      assert AgreesOn(cfg, h, store, k);
    }
  }

  // It keeps every other entry with its value and its place.
  lemma {:induction false} InvalidateKeepsOrder(
    cfg: Config, h: seq<Op>, pattern: string, now: real, i: nat, j: nat)
    requires i < j < |Run(cfg, h)|
    requires !OccursIn(pattern, Run(cfg, h)[i].key) && !OccursIn(pattern, Run(cfg, h)[j].key)
    ensures InOrder(Run(cfg, h + [Invalidate(pattern, now)]), Run(cfg, h)[i], Run(cfg, h)[j])
  {
    hide OccursIn;
    var op := Invalidate(pattern, now);
    assert (h + [op])[..|h + [op]| - 1] == h;
    UnmatchedKeepsOrder(Run(cfg, h), pattern, i, j);
  }

  ghost predicate InOrder(store: seq<Entry>, a: Entry, b: Entry) {
    exists i, j :: 0 <= i < j < |store| && store[i] == a && store[j] == b
  }

  lemma {:induction false} UnmatchedHas(store: seq<Entry>, pattern: string, i: nat) returns (i': nat)
    requires i < |store| && !OccursIn(pattern, store[i].key)
    ensures i' < |Unmatched(store, pattern)| && Unmatched(store, pattern)[i'] == store[i]
  {
    if i == 0 { i' := 0; }
    else {
      i' := UnmatchedHas(store[1..], pattern, i - 1);
      if !OccursIn(pattern, store[0].key) { i' := i' + 1; }
    }
  }

  lemma {:induction false} UnmatchedKeepsOrder(store: seq<Entry>, pattern: string, i: nat, j: nat)
    requires i < j < |store| && !OccursIn(pattern, store[i].key) && !OccursIn(pattern, store[j].key)
    ensures InOrder(Unmatched(store, pattern), store[i], store[j])
  {
    var kept, rest := Unmatched(store, pattern), Unmatched(store[1..], pattern);
    if i == 0 {
      var j' := UnmatchedHas(store[1..], pattern, j - 1);
      assert kept[0] == store[0] && kept[j' + 1] == store[j];
    } else {
      UnmatchedKeepsOrder(store[1..], pattern, i - 1, j - 1);
      var a, b :| 0 <= a < b < |rest| && rest[a] == store[i] && rest[b] == store[j];
      if !OccursIn(pattern, store[0].key) {
        assert kept[a + 1] == store[i] && kept[b + 1] == store[j];
      }
    }
  }

  // ---------------------------------------------------------------- deletion, one key at a time

  // The keys `invalidate` collects before it deletes any.
  function Matching(store: seq<Entry>, pattern: string): seq<string> {
    if store == [] then []
    else if OccursIn(pattern, store[0].key) then [store[0].key] + Matching(store[1..], pattern)
    else Matching(store[1..], pattern)
  }

  function DeleteAll(store: seq<Entry>, keys: seq<string>): seq<Entry>
    decreases keys
  {
    if keys == [] then store else DeleteAll(Without(store, keys[0]), keys[1..])
  }

  lemma {:induction false} DeleteAllSkips(e: Entry, rest: seq<Entry>, keys: seq<string>)
    requires e.key !in keys
    ensures DeleteAll([e] + rest, keys) == [e] + DeleteAll(rest, keys)
    decreases keys
  {
    if keys != [] {
      assert ([e] + rest)[1..] == rest;
      DeleteAllSkips(e, Without(rest, keys[0]), keys[1..]);
    }
  }

  lemma {:induction false} MatchingMatches(store: seq<Entry>, pattern: string, k: string)
    ensures k in Matching(store, pattern) <==> HasKey(store, k) && OccursIn(pattern, k)
  {
    if store != [] { MatchingMatches(store[1..], pattern, k); }
  }

  // Deleting the collected keys one by one leaves exactly the unmatched entries.
  lemma {:induction false} DeletingMatching(store: seq<Entry>, pattern: string)
    ensures DeleteAll(store, Matching(store, pattern)) == Unmatched(store, pattern)
    ensures |store| == |Unmatched(store, pattern)| + |Matching(store, pattern)|
  {
    if store != [] {
      DeletingMatching(store[1..], pattern);
      if !OccursIn(pattern, store[0].key) {
        MatchingMatches(store[1..], pattern, store[0].key);
        DeleteAllSkips(store[0], store[1..], Matching(store[1..], pattern));
        assert [store[0]] + store[1..] == store;
      }
    }
  }

  lemma {:induction false} MatchingDistinct(store: seq<Entry>, pattern: string)
    requires Distinct(store)
    ensures forall i, j :: 0 <= i < j < |Matching(store, pattern)| ==>
              Matching(store, pattern)[i] != Matching(store, pattern)[j]
  {
    if store != [] {
      MatchingDistinct(store[1..], pattern);
      MatchingMatches(store[1..], pattern, store[0].key);
    }
  }

  lemma {:induction false} MatchingAppend(store: seq<Entry>, e: Entry, pattern: string)
    ensures Matching(store + [e], pattern) ==
            Matching(store, pattern) + if OccursIn(pattern, e.key) then [e.key] else []
  {
    if store != [] {
      assert (store + [e])[1..] == store[1..] + [e];
      MatchingAppend(store[1..], e, pattern);
    }
  }

  // ---------------------------------------------------------------- the object

  class CacheService {
    var store: seq<Entry>
    const maxEntries: int
    const ttl: real
    ghost var history: seq<Op>

    ghost function Configuration(): Config { Config(maxEntries, ttl) }

    ghost predicate Valid()
      reads this
    {
      store == Run(Configuration(), history)
    }

    constructor (maxEntries: int, ttl: real)
      ensures Valid() && history == [] && store == []
      ensures this.maxEntries == maxEntries && this.ttl == ttl
    {
      this.maxEntries, this.ttl := maxEntries, ttl;
      store, history := [], [];
    }

    method Get(key: string, now: real) returns (value: Option<string>)
      requires Valid()
      modifies this
      ensures Valid() && history == old(history) + [Op.Get(key, now)]
      ensures Answer(Configuration(), old(history), Op.Get(key, now)) ==
              match value case None => Miss case Some(v) => Hit(v)
    {
      ghost var was := history;
      history := history + [Op.Get(key, now)];
      assert history[..|history| - 1] == was;
      var entry := Find(store, key);
      if entry.None? {
        return None;
      }
      if entry.value.expires <= now {
        store := Without(store, key);
        return None;
      }
      store := Without(store, key) + [entry.value];
      return Some(entry.value.value);
    }

    // `stored` is false when the original raises instead.
    method Set(key: string, value: string, now: real) returns (stored: bool)
      requires Valid()
      modifies this
      ensures Valid() && history == old(history) + [Op.Set(key, value, now)]
      ensures Answer(Configuration(), old(history), Op.Set(key, value, now)) == if stored then Stored else KeyError
    {
      ghost var was := history;
      history := history + [Op.Set(key, value, now)];
      assert history[..|history| - 1] == was;
      var entry := Entry(key, value, now + ttl);
      if HasKey(store, key) {
        store := Without(store, key) + [entry];
      } else {
        if |store| >= maxEntries {
          if store == [] {
            return false;
          }
          store := store[1..];
        }
        store := store + [entry];
      }
      return true;
    }

    method Delete(key: string)
      requires HasKey(store, key)
      modifies this`store
      ensures store == Without(old(store), key)
    {
      store := Without(store, key);
    }

    method CollectMatching(pattern: string) returns (keys: seq<string>)
      ensures keys == Matching(store, pattern)
    {
      hide OccursIn, Matching;
      keys := [];
      assert Matching(store[..0], pattern) == [] by { NoneMatch(pattern); }
      for i := 0 to |store|
        invariant keys == Matching(store[..i], pattern)
      {
        assert store[..i + 1] == store[..i] + [store[i]];
        MatchingAppend(store[..i], store[i], pattern);
        if OccursIn(pattern, store[i].key) {
          keys := keys + [store[i].key];
        }
      }
      assert store[..|store|] == store;
    }

    method DeleteKeys(keys: seq<string>) returns (count: nat)
      requires Distinct(store) && (forall i, j :: 0 <= i < j < |keys| ==> keys[i] != keys[j])
      requires forall i :: 0 <= i < |keys| ==> HasKey(store, keys[i])
      modifies this`store
      ensures store == DeleteAll(old(store), keys) && count == |keys|
    {
      count := 0;
      assert keys[0..] == keys;
      for j := 0 to |keys|
        invariant DeleteAll(store, keys[j..]) == DeleteAll(old(store), keys) && count == j
        invariant Distinct(store)
        invariant forall i :: j <= i < |keys| ==> HasKey(store, keys[i])
      {
        forall i | j < i < |keys| ensures HasKey(Without(store, keys[j]), keys[i]) {
          WithoutKey(store, keys[j], keys[i]);
        }
        WithoutKey(store, keys[j], keys[j]);
        assert keys[j..][1..] == keys[j + 1..];
        assert DeleteAll(store, keys[j..]) == DeleteAll(Without(store, keys[j]), keys[j + 1..]);
        hide Without, HasKey, DeleteAll, Distinct;
        Delete(keys[j]);
        count := count + 1;
      }
    }

    method Invalidate(pattern: string, now: real) returns (count: nat)
      requires Valid()
      modifies this
      ensures Valid() && history == old(history) + [Op.Invalidate(pattern, now)]
      ensures Answer(Configuration(), old(history), Op.Invalidate(pattern, now)) == Removed(count)
    {
      ghost var was := history;
      history := history + [Op.Invalidate(pattern, now)];
      assert history[..|history| - 1] == was;
      RunAgrees(Configuration(), was);
      hide OccursIn, Matching, Unmatched, Distinct, HasKey, DeleteAll;
      var toDelete := CollectMatching(pattern);
      DeletingMatching(store, pattern);
      MatchingDistinct(store, pattern);
      forall i | 0 <= i < |toDelete| ensures HasKey(store, toDelete[i]) {
        MatchingMatches(store, pattern, toDelete[i]);
      }
      count := DeleteKeys(toDelete);
    }
  }

  lemma {:induction false} NoneMatch(pattern: string)
    ensures Matching([], pattern) == []
  {
  }
}
