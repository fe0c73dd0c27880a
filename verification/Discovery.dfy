/**
 Discovery of a provider's models (app/services/discovery.py): the listing is
 deduplicated, imported row by row, tested with results arriving in any order,
 and the outcome is kept in a bounded history.
 */
module Discovery {
  import opened Wrappers
  import Pricing

  // ---------------------------------------------------------------- the listing

  // One raw listing entry; `id` is None when it is not a non-empty string.
  datatype Entry = Entry(id: Option<string>, item: Pricing.Item)

  datatype Listed = Listed(id: string, meta: Pricing.Listed)

  const PREFIX := "models/"

  function ModelId(gemini: bool, id: string): string {
    if gemini && PREFIX <= id then id[|PREFIX|..] else id
  }

  function Known(gemini: bool, e: Entry): seq<Listed> {
    if e.id.None? || e.id.value == "" then [] else [Listed(ModelId(gemini, e.id.value), Pricing.ListedOf(e.item))]
  }

  function RawItems(gemini: bool, entries: seq<Entry>): seq<Listed> {
    if entries == [] then []
    else RawItems(gemini, entries[..|entries| - 1]) + Known(gemini, entries[|entries| - 1])
  }

  predicate HasId(items: seq<Listed>, id: string) {
    exists i :: 0 <= i < |items| && items[i].id == id
  }

  // The items whose id does not occur earlier.
  function FirstOccurrences(items: seq<Listed>): seq<Listed> {
    if items == [] then []
    else
      var n := |items| - 1;
      FirstOccurrences(items[..n]) + if HasId(items[..n], items[n].id) then [] else [items[n]]
  }

  ghost predicate DistinctIds(items: seq<Listed>) {
    forall i, j :: 0 <= i < j < |items| ==> items[i].id != items[j].id
  }

  lemma {:induction false} HasIdAppend(items: seq<Listed>, item: Listed, id: string)
    ensures HasId(items + [item], id) <==> HasId(items, id) || item.id == id
  {
    var all := items + [item];
    assert all[|items|] == item;
    if i :| 0 <= i < |items| && items[i].id == id {
      assert all[i].id == id;
    }
  }

  lemma {:induction false} FirstOccurrencesAreDistinct(items: seq<Listed>)
    ensures DistinctIds(FirstOccurrences(items))
    ensures forall id :: HasId(FirstOccurrences(items), id) <==> HasId(items, id)
    ensures forall x :: x in FirstOccurrences(items) ==> x in items
  {
    if items != [] {
      var init, last := items[..|items| - 1], items[|items| - 1];
      var before := FirstOccurrences(init);
      FirstOccurrencesAreDistinct(init);
      assert items == init + [last];
      if HasId(init, last.id) {
        assert FirstOccurrences(items) == before;
      } else {
        assert FirstOccurrences(items) == before + [last];
        assert forall i :: 0 <= i < |before| ==> before[i].id != last.id;
      }
      forall id ensures HasId(FirstOccurrences(items), id) <==> HasId(items, id) {
        HasIdAppend(init, last, id);
        HasIdAppend(before, last, id);
      }
    }
  }

  method CollectRaw(gemini: bool, entries: seq<Entry>) returns (raw: seq<Listed>)
    ensures raw == RawItems(gemini, entries)
  {
    raw := [];
    for i := 0 to |entries|
      invariant raw == RawItems(gemini, entries[..i])
    {
      assert entries[..i + 1][..i] == entries[..i];
      var e := entries[i];
      if e.id.Some? && e.id.value != "" {
        raw := raw + [Listed(ModelId(gemini, e.id.value), Pricing.ListedOf(e.item))];
      }
    }
    assert entries[..|entries|] == entries;
  }

  method ParseModelItems(gemini: bool, entries: seq<Entry>) returns (result: seq<Listed>)
    ensures result == FirstOccurrences(RawItems(gemini, entries))
  {
    var raw := CollectRaw(gemini, entries);
    hide RawItems;
    var seen: set<string> := {};
    result := [];
    for i := 0 to |raw|
      invariant result == FirstOccurrences(raw[..i])
      invariant forall id :: id in seen <==> HasId(raw[..i], id)
    {
      ghost var before, now := raw[..i], raw[..i + 1];
      assert now == before + [raw[i]] && now[..i] == before;
      forall id ensures HasId(now, id) <==> HasId(before, id) || raw[i].id == id {
        HasIdAppend(before, raw[i], id);
      }
      assert FirstOccurrences(now) == FirstOccurrences(before) + if HasId(before, raw[i].id) then [] else [raw[i]];
      hide HasId, FirstOccurrences;
      if raw[i].id !in seen {
        seen := seen + {raw[i].id};
        result := result + [raw[i]];
      }
    }
    assert raw[..|raw|] == raw;
  }

  // ---------------------------------------------------------------- importing

  datatype Row = Row(providerId: string, alias: string, meta: Pricing.Meta, premium: bool)

  predicate At(rows: seq<Row>, i: int, provider: string, alias: string) {
    0 <= i < |rows| && rows[i].providerId == provider && rows[i].alias == alias
  }

  // The position of the row with that provider and alias, or the row count.
  function Lookup(rows: seq<Row>, provider: string, alias: string): (i: nat)
    ensures i <= |rows| && (i < |rows| ==> At(rows, i, provider, alias))
    ensures forall j :: At(rows, j, provider, alias) ==> i <= j
  {
    if rows == [] then 0
    else if At(rows, 0, provider, alias) then 0
    else
      var i := 1 + Lookup(rows[1..], provider, alias);
      assert forall j :: At(rows, j, provider, alias) ==> j > 0 && At(rows[1..], j - 1, provider, alias);
      i
  }

  ghost predicate UniquePairs(rows: seq<Row>) {
    forall i, j :: 0 <= i < j < |rows| ==> rows[i].providerId != rows[j].providerId || rows[i].alias != rows[j].alias
  }

  function NewMeta(d: Pricing.Listed): Pricing.Meta {
    Pricing.Meta(
      if d.pricing.Some? then Some(Pricing.Prices(d.pricing.value)) else None, d.free, d.kind, d.limits, false)
  }

  datatype Imported = Imported(rows: seq<Row>, imported: nat, skipped: nat, events: seq<Progress>)

  datatype Progress = Progress(current: nat, total: nat, model: string, added: bool)

  // One listed model: merged into its row, or added unless the insertion fails.
  function ImportOne(s: Imported, provider: string, item: Listed, total: nat, fails: bool): Imported {
    var i := Lookup(s.rows, provider, item.id);
    if i < |s.rows| then
      var meta := Pricing.Merge(s.rows[i].meta, item.meta);
      Imported(if meta.1 then s.rows[i := s.rows[i].(meta := meta.0)] else s.rows, s.imported, s.skipped + 1,
               s.events + [Progress(s.imported + s.skipped + 1, total, item.id, false)])
    else if fails then
      Imported(s.rows, s.imported, s.skipped + 1,
               s.events + [Progress(s.imported + s.skipped + 1, total, item.id, false)])
    else
      Imported(s.rows + [Row(provider, item.id, NewMeta(item.meta), false)], s.imported + 1, s.skipped,
               s.events + [Progress(s.imported + s.skipped + 1, total, item.id, true)])
  }

  function ImportAll(
    rows: seq<Row>, provider: string, listing: seq<Listed>, total: nat, fails: string -> bool): Imported
  {
    if listing == [] then Imported(rows, 0, 0, [])
    else
      var n := |listing| - 1;
      ImportOne(ImportAll(rows, provider, listing[..n], total, fails),
                provider, listing[n], total, fails(listing[n].id))
  }

  method ImportListing(rows: seq<Row>, provider: string, listing: seq<Listed>, fails: string -> bool)
    returns (r: Imported)
    ensures r == ImportAll(rows, provider, listing, |listing|, fails)
  {
    hide Pricing.Merge, NewMeta, Lookup;
    var table, imported, skipped, events, total := rows, 0, 0, [], |listing|;
    for i := 0 to |listing|
      invariant Imported(table, imported, skipped, events) == ImportAll(rows, provider, listing[..i], total, fails)
    {
      assert listing[..i + 1][..i] == listing[..i];
      var item := listing[i];
      var existing := Lookup(table, provider, item.id);
      if existing < |table| {
        skipped := skipped + 1;
        var meta, changed := Pricing.MergeProviderMeta(table[existing].meta, item.meta);
        if changed {
          table := table[existing := table[existing].(meta := meta)];
        }
        events := events + [Progress(imported + skipped, total, item.id, false)];
        continue;
      }
      if fails(item.id) {
        skipped := skipped + 1;
        events := events + [Progress(imported + skipped, total, item.id, false)];
        continue;
      }
      table := table + [Row(provider, item.id, NewMeta(item.meta), false)];
      imported := imported + 1;
      events := events + [Progress(imported + skipped, total, item.id, true)];
    }
    assert listing[..|listing|] == listing;
    r := Imported(table, imported, skipped, events);
  }

  // Every listed model is either imported or skipped, progress counts 1 to the
  // total without a gap, and no provider ever has an alias twice.
  lemma {:induction false} ImportCountsAndStaysUnique(
    rows: seq<Row>, provider: string, listing: seq<Listed>, total: nat, fails: string -> bool)
    requires UniquePairs(rows)
    ensures var r := ImportAll(rows, provider, listing, total, fails);
            && r.imported + r.skipped == |listing| && Counts(r.events, listing)
            && UniquePairs(r.rows) && |r.rows| == |rows| + r.imported
  {
    if listing != [] {
      var n := |listing| - 1;
      ImportCountsAndStaysUnique(rows, provider, listing[..n], total, fails);
      var s := ImportAll(rows, provider, listing[..n], total, fails);
      var r := ImportAll(rows, provider, listing, total, fails);
      assert r == ImportOne(s, provider, listing[n], total, fails(listing[n].id));
      hide ImportOne, ImportAll, UniquePairs, At, Counts;
      assert |s.events| == n by { CountsLength(s.events, listing[..n]); }
      OneStaysUnique(s, provider, listing[n], total, fails(listing[n].id));
      CountsOn(s.events, r.events, listing);
    }
  }

  ghost predicate Counts(events: seq<Progress>, listing: seq<Listed>) {
    && |events| == |listing|
    && forall i :: 0 <= i < |events| ==> events[i].current == i + 1 && events[i].model == listing[i].id
  }

  lemma {:induction false} CountsLength(events: seq<Progress>, listing: seq<Listed>)
    requires Counts(events, listing)
    ensures |events| == |listing|
  {
  }

  lemma {:induction false} CountsOn(before: seq<Progress>, events: seq<Progress>, listing: seq<Listed>)
    requires |events| == |before| + 1 == |listing| && events[..|before|] == before
    requires Counts(before, listing[..|before|])
    requires events[|before|].current == |listing| && events[|before|].model == listing[|before|].id
    ensures Counts(events, listing)
  {
    assert forall i :: 0 <= i < |before| ==> events[i] == before[i] && listing[..|before|][i] == listing[i];
  }

  lemma {:induction false} OneStaysUnique(s: Imported, provider: string, item: Listed, total: nat, fails: bool)
    requires UniquePairs(s.rows)
    ensures var r := ImportOne(s, provider, item, total, fails);
            && UniquePairs(r.rows) && r.imported + r.skipped == s.imported + s.skipped + 1
            && |r.rows| - |s.rows| == r.imported - s.imported
            && |r.events| == |s.events| + 1 && r.events[..|s.events|] == s.events
            && r.events[|s.events|].current == s.imported + s.skipped + 1 && r.events[|s.events|].model == item.id
  {
    if Lookup(s.rows, provider, item.id) == |s.rows| {
      forall i | 0 <= i < |s.rows| ensures s.rows[i].providerId != provider || s.rows[i].alias != item.id {
        assert At(s.rows, i, provider, item.id) <==> s.rows[i].providerId == provider && s.rows[i].alias == item.id;
      }
    }
    hide Lookup, Pricing.Merge, NewMeta;
  }

  // ---------------------------------------------------------------- importing the same listing again

  // The row of a listed model is there and merging the model again keeps it.
  ghost predicate Settled(rows: seq<Row>, provider: string, item: Listed) {
    var i := Lookup(rows, provider, item.id);
    i < |rows| && Pricing.Merge(rows[i].meta, item.meta) == (rows[i].meta, false)
  }

  ghost predicate FromItem(item: Listed) {
    exists raw :: item.meta == Pricing.ListedOf(raw)
  }

  lemma {:induction false} NewMetaIsMerged(d: Pricing.Listed)
    ensures Pricing.Merge(NewMeta(d), d) == (NewMeta(d), false)
  {
    var prices := if d.pricing.Some? then Pricing.Prices(d.pricing.value) else map[];
    var limits := if d.limits.Some? then d.limits.value else map[];
    Pricing.DiffersIffAdds(map[], prices);
    Pricing.DiffersIffAdds(map[], limits);
    Pricing.NothingDiffers(prices);
    Pricing.NothingDiffers(limits);
    assert map[] + prices == prices && prices + prices == prices;
    assert map[] + limits == limits && limits + limits == limits;
    hide Pricing.Differs, Pricing.Prices;
  }

  lemma {:induction false} OneSettles(s: Imported, provider: string, item: Listed, total: nat)
    requires FromItem(item)
    ensures Settled(ImportOne(s, provider, item, total, false).rows, provider, item)
  {
    var raw :| item.meta == Pricing.ListedOf(raw);
    var i, r := Lookup(s.rows, provider, item.id), ImportOne(s, provider, item, total, false);
    hide Pricing.Merge, Pricing.ListedOf, NewMeta, Lookup;
    forall j | 0 <= j < i ensures !At(r.rows, j, provider, item.id) {
      assert !At(s.rows, j, provider, item.id);
    }
    assert At(r.rows, i, provider, item.id);
    LookupAt(r.rows, provider, item.id, i);
    if i < |s.rows| {
      Pricing.MergeFlagIsExact(s.rows[i].meta, raw);
    } else {
      NewMetaIsMerged(item.meta);
    }
  }

  // Where a pair is found, if not before.
  lemma {:induction false} LookupAt(rows: seq<Row>, provider: string, alias: string, i: nat)
    requires At(rows, i, provider, alias) && forall j :: 0 <= j < i ==> !At(rows, j, provider, alias)
    ensures Lookup(rows, provider, alias) == i
  {
  }

  lemma {:induction false} OtherKeepsSettled(
    s: Imported, provider: string, item: Listed, other: Listed, total: nat, fails: bool)
    requires Settled(s.rows, provider, item) && item.id != other.id
    ensures Settled(ImportOne(s, provider, other, total, fails).rows, provider, item)
  {
    var i, r := Lookup(s.rows, provider, item.id), ImportOne(s, provider, other, total, fails);
    hide Pricing.Merge, NewMeta;
    assert At(r.rows, i, provider, item.id);
    forall j | 0 <= j < i ensures !At(r.rows, j, provider, item.id) {
      assert !At(s.rows, j, provider, item.id);
    }
    LookupAt(r.rows, provider, item.id, i);
    assert r.rows[i] == s.rows[i];
  }

  lemma {:induction false} AllSettle(
    rows: seq<Row>, provider: string, listing: seq<Listed>, total: nat, fails: string -> bool, k: nat)
    requires DistinctIds(listing) && k < |listing|
    requires forall item :: item in listing ==> FromItem(item) && !fails(item.id)
    ensures Settled(ImportAll(rows, provider, listing, total, fails).rows, provider, listing[k])
  {
    var n := |listing| - 1;
    var s := ImportAll(rows, provider, listing[..n], total, fails);
    assert listing[n] in listing;
    hide Settled, ImportOne, FromItem;
    if k == n {
      OneSettles(s, provider, listing[n], total);
    } else {
      forall item | item in listing[..n] ensures item in listing {}
      AllSettle(rows, provider, listing[..n], total, fails, k);
      OtherKeepsSettled(s, provider, listing[k], listing[n], total, fails(listing[n].id));
    }
  }

  lemma {:induction false} SettledImportsNothing(
    rows: seq<Row>, provider: string, listing: seq<Listed>, total: nat, fails: string -> bool)
    requires forall k :: 0 <= k < |listing| ==> Settled(rows, provider, listing[k])
    ensures var r := ImportAll(rows, provider, listing, total, fails); r.rows == rows && r.imported == 0
  {
    if listing != [] {
      var n := |listing| - 1;
      forall k | 0 <= k < n ensures Settled(rows, provider, listing[..n][k]) {
        assert listing[..n][k] == listing[k];
      }
      SettledImportsNothing(rows, provider, listing[..n], total, fails);
    }
  }

  // Discovering the same listing again after a run without failures imports
  // nothing and changes no row, whatever would fail now.
  lemma {:induction false} RepeatImportsNothing(
    rows: seq<Row>, provider: string, listing: seq<Listed>, total: nat, fails: string -> bool, fails': string -> bool)
    requires DistinctIds(listing) && forall item :: item in listing ==> FromItem(item) && !fails(item.id)
    ensures var first := ImportAll(rows, provider, listing, total, fails);
            var again := ImportAll(first.rows, provider, listing, total, fails');
            again.rows == first.rows && again.imported == 0
  {
    var first := ImportAll(rows, provider, listing, total, fails);
    forall k | 0 <= k < |listing| ensures Settled(first.rows, provider, listing[k]) {
      AllSettle(rows, provider, listing, total, fails, k);
    }
    SettledImportsNothing(first.rows, provider, listing, total, fails');
  }

  // What is parsed from a response is such a listing.
  lemma {:induction false} ParsedListing(gemini: bool, entries: seq<Entry>)
    ensures var listing := FirstOccurrences(RawItems(gemini, entries));
            DistinctIds(listing) && forall item :: item in listing ==> FromItem(item)
  {
    FirstOccurrencesAreDistinct(RawItems(gemini, entries));
    RawFromItems(gemini, entries);
  }

  lemma {:induction false} RawFromItems(gemini: bool, entries: seq<Entry>)
    ensures forall x :: x in RawItems(gemini, entries) ==> FromItem(x)
  {
    if entries != [] {
      RawFromItems(gemini, entries[..|entries| - 1]);
    }
  }

  // ---------------------------------------------------------------- tests that finish in any order

  datatype Status = Ok | Listing | Premium | Error | RateLimited

  predicate IsOk(s: Status) {
    s == Ok || s == Listing
  }

  function MarkPremium(rows: seq<Row>, provider: string, id: string): seq<Row> {
    var i := Lookup(rows, provider, id);
    if i < |rows| then rows[i := rows[i].(premium := true)] else rows
  }

  // A row after the tests: premium if it was, or if its model tested premium.
  ghost predicate MarkedAsTested(
    before: Row, after: Row, provider: string, done: seq<string>, status: string -> Status) {
    var found := before.providerId == provider && before.alias in done && status(before.alias) == Premium;
    after == before.(premium := before.premium || found)
  }

  function CountOk(ids: seq<string>, status: string -> Status): nat {
    if ids == [] then 0
    else CountOk(ids[..|ids| - 1], status) + if IsOk(status(ids[|ids| - 1])) then 1 else 0
  }

  lemma {:induction false} MarkPremiumStep(
    rows: seq<Row>, now: seq<Row>, provider: string, done: seq<string>, id: string, status: string -> Status)
    requires UniquePairs(rows) && |now| == |rows|
    requires forall i :: 0 <= i < |rows| ==> MarkedAsTested(rows[i], now[i], provider, done, status)
    ensures var after := if status(id) == Premium then MarkPremium(now, provider, id) else now;
            |after| == |rows|
            && forall i :: 0 <= i < |rows| ==> MarkedAsTested(rows[i], after[i], provider, done + [id], status)
  {
    var k := Lookup(now, provider, id);
    forall i | 0 <= i < |rows| && rows[i].providerId == provider && rows[i].alias == id ensures i == k {
      assert At(now, i, provider, id);
      assert MarkedAsTested(rows[k], now[k], provider, done, status);
      assert rows[k].providerId == provider && rows[k].alias == id;
    }
    if k < |now| { assert MarkedAsTested(rows[k], now[k], provider, done, status); }
  }

  lemma {:induction false} NothingTested(rows: seq<Row>, provider: string, status: string -> Status)
    ensures forall i :: 0 <= i < |rows| ==> MarkedAsTested(rows[i], rows[i], provider, [], status)
  {
  }

  // The tests as they finish, in the order `order`.
  method CollectTests(rows: seq<Row>, provider: string, order: seq<string>, status: string -> Status)
    returns (statusMap: map<string, Status>, events: seq<Progress>, marked: seq<Row>)
    requires UniquePairs(rows)
    ensures forall id :: id in statusMap <==> id in order
    ensures forall id :: id in statusMap ==> statusMap[id] == status(id)
    ensures |marked| == |rows|
    ensures forall i :: 0 <= i < |rows| ==> MarkedAsTested(rows[i], marked[i], provider, order, status)
    ensures |events| == |order|
    ensures forall i :: 0 <= i < |order| ==> events[i] == Progress(i + 1, |order|, order[i], IsOk(status(order[i])))
  {
    marked, events, statusMap := rows, [], map[];
    NothingTested(rows, provider, status);
    assert order[..0] == [];
    hide MarkedAsTested, MarkPremium, UniquePairs, IsOk;
    for n := 0 to |order|
      invariant forall id :: id in statusMap <==> id in order[..n]
      invariant forall id :: id in statusMap ==> statusMap[id] == status(id)
      invariant |marked| == |rows|
      invariant forall i :: 0 <= i < |rows| ==> MarkedAsTested(rows[i], marked[i], provider, order[..n], status)
      invariant |events| == n
      invariant forall i :: 0 <= i < n ==> events[i] == Progress(i + 1, |order|, order[i], IsOk(status(order[i])))
    {
      var mid := order[n];
      assert order[..n + 1] == order[..n] + [mid];
      MarkPremiumStep(rows, marked, provider, order[..n], mid, status);
      statusMap := statusMap[mid := status(mid)];
      events := events + [Progress(n + 1, |order|, mid, IsOk(status(mid)))];
      if status(mid) == Premium {
        marked := MarkPremium(marked, provider, mid);
      }
    }
    assert order[..|order|] == order;
  }

  // The results, their count and the premium marks come out the same for every
  // order in which the tests finish.
  method GatherTests(
    rows: seq<Row>, provider: string, listing: seq<string>, order: seq<string>, status: string -> Status)
    returns (ordered: seq<Status>, okCount: nat, events: seq<Progress>, marked: seq<Row>)
    requires UniquePairs(rows) && |order| == |listing| && multiset(order) == multiset(listing)
    ensures |ordered| == |listing| && forall i :: 0 <= i < |listing| ==> ordered[i] == status(listing[i])
    ensures okCount == |set i | 0 <= i < |listing| && status(listing[i]) in {Ok, Listing}|
    ensures |marked| == |rows|
    ensures forall i :: 0 <= i < |rows| ==>
              var tested := rows[i].providerId == provider && rows[i].alias in listing;
              marked[i] == rows[i].(premium := rows[i].premium || (tested && status(rows[i].alias) == Premium))
    ensures |events| == |listing|
    ensures forall i :: 0 <= i < |events| ==>
              events[i] == Progress(i + 1, |listing|, order[i], status(order[i]) in {Ok, Listing})
  {
    var statusMap;
    statusMap, events, marked := CollectTests(rows, provider, order, status);
    forall id ensures id in order <==> id in listing {
      assert id in order <==> id in multiset(order);
      assert id in listing <==> id in multiset(listing);
    }
    assert forall i :: 0 <= i < |rows| ==> MarkedAsTested(rows[i], marked[i], provider, order, status);
    assert forall i :: 0 <= i < |order| ==> (IsOk(status(order[i])) <==> status(order[i]) in {Ok, Listing});
    hide MarkedAsTested, UniquePairs, IsOk;
    ordered, okCount := [], 0;
    for i := 0 to |listing|
      invariant |ordered| == i && forall j :: 0 <= j < i ==> ordered[j] == status(listing[j])
      invariant okCount == CountOk(listing[..i], status)
    {
      assert listing[..i + 1][..i] == listing[..i] && listing[i] in listing;
      ordered := ordered + [statusMap[listing[i]]];
      if IsOk(statusMap[listing[i]]) {
        okCount := okCount + 1;
      }
    }
    assert listing[..|listing|] == listing;
    OkAreCounted(listing, status);
  }

  lemma {:induction false} OkAreCounted(ids: seq<string>, status: string -> Status)
    ensures CountOk(ids, status) == |set i | 0 <= i < |ids| && status(ids[i]) in {Ok, Listing}|
  {
    if ids != [] {
      var n := |ids| - 1;
      OkAreCounted(ids[..n], status);
      var fewer := set i | 0 <= i < n && status(ids[..n][i]) in {Ok, Listing};
      var all := set i | 0 <= i < |ids| && status(ids[i]) in {Ok, Listing};
      assert forall i :: 0 <= i < n ==> ids[..n][i] == ids[i];
      assert all == fewer + if status(ids[n]) in {Ok, Listing} then {n} else {};
      assert n !in fewer;
    }
  }

  // ---------------------------------------------------------------- history

  const HISTORY_CAP := 100

  // The rows of the history in the order they were created.
  datatype TestRun = TestRun(providerId: string, result: string)

  function Of(runs: seq<TestRun>, provider: string): seq<TestRun> {
    if runs == [] then []
    else
      var n := |runs| - 1;
      Of(runs[..n], provider) + if runs[n].providerId == provider then [runs[n]] else []
  }

  // All rows but those of the provider beyond its `keep` newest.
  function Newest(runs: seq<TestRun>, provider: string, keep: nat): seq<TestRun> {
    if runs == [] then []
    else
      var n := |runs| - 1;
      if runs[n].providerId != provider then Newest(runs[..n], provider, keep) + [runs[n]]
      else if keep == 0 then Newest(runs[..n], provider, 0)
      else Newest(runs[..n], provider, keep - 1) + [runs[n]]
  }

  function SaveTestRun(runs: seq<TestRun>, run: TestRun): seq<TestRun> {
    var all := runs + [run];
    if |Of(all, run.providerId)| > HISTORY_CAP then Newest(all, run.providerId, HISTORY_CAP) else all
  }

  function SaveAll(saved: seq<TestRun>): seq<TestRun> {
    if saved == [] then [] else SaveTestRun(SaveAll(saved[..|saved| - 1]), saved[|saved| - 1])
  }

  function Last<T>(s: seq<T>, k: nat): seq<T> {
    if |s| <= k then s else s[|s| - k..]
  }

  lemma {:induction false} LastAppend<T>(s: seq<T>, x: T, k: nat)
    ensures k > 0 ==> Last(s + [x], k) == Last(s, k - 1) + [x]
    ensures k > 0 ==> Last(Last(s, k) + [x], k) == Last(s + [x], k)
    ensures |s| < k ==> Last(s, k) + [x] == s + [x]
  {
  }

  lemma {:induction false} OfAppend(runs: seq<TestRun>, run: TestRun, provider: string)
    ensures Of(runs + [run], provider) == Of(runs, provider) + if run.providerId == provider then [run] else []
  {
  }

  lemma {:induction false} NewestOf(runs: seq<TestRun>, provider: string, keep: nat, other: string)
    ensures Of(Newest(runs, provider, keep), other) ==
            if other == provider then Last(Of(runs, other), keep) else Of(runs, other)
  {
    if runs != [] {
      var n := |runs| - 1;
      var run, init := runs[n], runs[..n];
      var k := if run.providerId == provider && keep > 0 then keep - 1 else keep;
      NewestOf(init, provider, k, other);
      assert Newest(runs, provider, keep) ==
             Newest(init, provider, k) + if run.providerId == provider && keep == 0 then [] else [run];
      assert Of(runs, other) == Of(init, other) + if run.providerId == other then [run] else [];
      OfAppend(Newest(init, provider, k), run, other);
      LastAppend(Of(init, other), run, keep);
      hide Newest, Of;
      assert Newest(init, provider, k) + [] == Newest(init, provider, k) && Of(init, other) + [] == Of(init, other);
    }
  }

  // However many runs are saved for however many providers, the history of
  // each is exactly its newest hundred, in order.
  lemma {:induction false} HistoryIsNewestHundred(saved: seq<TestRun>, provider: string)
    ensures var mine := Of(saved, provider);
            Of(SaveAll(saved), provider) == if |mine| <= 100 then mine else mine[|mine| - 100..]
  {
    HistoryIsLast(saved, provider);
  }

  lemma {:induction false} HistoryIsLast(saved: seq<TestRun>, provider: string)
    ensures Of(SaveAll(saved), provider) == Last(Of(saved, provider), HISTORY_CAP)
  {
    if saved != [] {
      var n := |saved| - 1;
      var run, init := saved[n], saved[..n];
      HistoryIsLast(init, provider);
      assert SaveAll(saved) == SaveTestRun(SaveAll(init), run);
      assert Of(saved, provider) == Of(init, provider) + if run.providerId == provider then [run] else [];
      hide SaveAll;
      SavedHistory(SaveAll(init), run, provider);
      LastAppend(Of(init, provider), run, HISTORY_CAP);
      hide Of, SaveTestRun, Last;
      assert Of(init, provider) + [] == Of(init, provider);
    }
  }

  // One saved run drops the oldest one when there are too many.
  lemma {:induction false} SavedHistory(runs: seq<TestRun>, run: TestRun, provider: string)
    requires |Of(runs, provider)| <= HISTORY_CAP
    ensures Of(SaveTestRun(runs, run), provider) ==
            if run.providerId == provider then Last(Of(runs, provider) + [run], HISTORY_CAP) else Of(runs, provider)
  {
    OfAppend(runs, run, provider);
    NewestOf(runs + [run], run.providerId, HISTORY_CAP, provider);
    hide Of, Newest;
    assert Of(runs, provider) + [] == Of(runs, provider);
  }

  // ---------------------------------------------------------------- in plain terms

  // `places` lists the numbers below `n` with the property, in order.
  ghost predicate ListsThose(places: seq<nat>, n: nat, those: nat -> bool) {
    && (forall j, k :: 0 <= j < k < |places| ==> places[j] < places[k])
    && (forall k :: 0 <= k < |places| ==> places[k] < n)
    && forall i: nat :: i < n ==> (i in places <==> those(i))
  }

  lemma {:induction false} ListsOneMore(places: seq<nat>, n: nat, before: nat -> bool, those: nat -> bool)
    requires ListsThose(places, n, before) && forall i: nat :: i < n ==> before(i) == those(i)
    ensures ListsThose(if those(n) then places + [n] else places, n + 1, those)
  {
    var longer := places + [n];
    assert forall i: nat :: i in longer <==> i in places || i == n;
  }

  // The items taken are those at the places, each standing in the relation to
  // what was made of it.
  ghost predicate Taken<T, U>(items: seq<T>, places: seq<nat>, made: seq<U>, relation: (T, U) -> bool) {
    && |places| == |made|
    && forall k :: 0 <= k < |made| ==> places[k] < |items| && relation(items[places[k]], made[k])
  }

  lemma {:induction false} TakenOneMore<T, U>(
    items: seq<T>, places: seq<nat>, made: seq<U>, relation: (T, U) -> bool, n: nat, x: U)
    requires n == |items| - 1 && Taken(items[..n], places, made, relation)
    ensures Taken(items, places, made, relation)
    ensures relation(items[n], x) ==> Taken(items, places + [n], made + [x], relation)
  {
  }

  function Usable(entries: seq<Entry>): nat -> bool {
    (i: nat) => i < |entries| && entries[i].id.Some? && entries[i].id.value != ""
  }

  function ReadFrom(gemini: bool): (Entry, Listed) -> bool {
    (e: Entry, x: Listed) =>
      && e.id.Some? && x.meta == Pricing.ListedOf(e.item)
      && (if gemini && "models/" <= e.id.value then "models/" + x.id == e.id.value else x.id == e.id.value)
  }

  // The raw listing: every entry with a usable id, a Gemini id without its
  // "models/" in front.
  lemma {:induction false} RawItemsAreUsable(gemini: bool, entries: seq<Entry>) returns (places: seq<nat>)
    ensures ListsThose(places, |entries|, Usable(entries))
    ensures Taken(entries, places, RawItems(gemini, entries), ReadFrom(gemini))
  {
    if entries == [] {
      places := [];
    } else {
      var n := |entries| - 1;
      places := RawItemsAreUsable(gemini, entries[..n]);
      ListsOneMore(places, n, Usable(entries[..n]), Usable(entries));
      var raw, last := RawItems(gemini, entries[..n]), Known(gemini, entries[n]);
      assert RawItems(gemini, entries) == raw + last;
      OneKnown(gemini, entries[n]);
      hide RawItems, Known, ListsThose, Taken, ReadFrom;
      if Usable(entries)(n) {
        TakenOneMore(entries, places, raw, ReadFrom(gemini), n, last[0]);
        places := places + [n];
        assert raw + last == raw + [last[0]];
      } else {
        TakenOneMore(entries, places, raw, ReadFrom(gemini), n, Listed("", Pricing.ListedOf(entries[n].item)));
        assert raw + last == raw;
      }
    }
  }

  lemma {:induction false} OneKnown(gemini: bool, e: Entry)
    ensures var x := Known(gemini, e);
            if e.id.Some? && e.id.value != "" then |x| == 1 && ReadFrom(gemini)(e, x[0]) else x == []
  {
    hide Pricing.ListedOf;
  }

  function NewId(items: seq<Listed>): nat -> bool {
    (i: nat) => i < |items| && forall j :: 0 <= j < i ==> items[j].id != items[i].id
  }

  // Of equal ids the first one stays, and the others keep their order.
  lemma {:induction false} FirstOccurrencesAreFirst(items: seq<Listed>) returns (places: seq<nat>)
    ensures ListsThose(places, |items|, NewId(items))
    ensures Taken(items, places, FirstOccurrences(items), (a: Listed, b: Listed) => a == b)
  {
    if items == [] {
      places := [];
    } else {
      var n := |items| - 1;
      var same := (a: Listed, b: Listed) => a == b;
      places := FirstOccurrencesAreFirst(items[..n]);
      NewIdIff(items);
      NewIdBefore(items);
      var before := FirstOccurrences(items[..n]);
      assert FirstOccurrences(items) == before + if HasId(items[..n], items[n].id) then [] else [items[n]];
      hide ListsThose, FirstOccurrences, HasId, Taken, NewId;
      ListsOneMore(places, n, NewId(items[..n]), NewId(items));
      TakenOneMore(items, places, before, same, n, items[n]);
      assert before + [] == before;
      if !HasId(items[..n], items[n].id) {
        places := places + [n];
      }
    }
  }

  lemma {:induction false} NewIdBefore(items: seq<Listed>)
    requires items != []
    ensures forall i: nat :: i < |items| - 1 ==> NewId(items[..|items| - 1])(i) == NewId(items)(i)
  {
    var init := items[..|items| - 1];
    forall i: nat | i < |init| ensures NewId(init)(i) == NewId(items)(i) {
      assert forall j :: 0 <= j <= i ==> init[j] == items[j];
    }
  }

  lemma {:induction false} NewIdIff(items: seq<Listed>)
    requires items != []
    ensures var n := |items| - 1; NewId(items)(n) <==> !HasId(items[..n], items[n].id)
  {
  }

  // What one listed model does to the table.
  lemma {:induction false} ImportOneInPlainTerms(s: Imported, provider: string, item: Listed, total: nat, fails: bool)
    requires UniquePairs(s.rows) && FromItem(item)
    ensures var r := ImportOne(s, provider, item, total, fails);
            var known := exists row :: row in s.rows && row.providerId == provider && row.alias == item.id;
            && r.imported == s.imported + (if known || fails then 0 else 1)
            && r.skipped == s.skipped + (if known || fails then 1 else 0)
            && r.events == s.events + [Progress(s.imported + s.skipped + 1, total, item.id, !known && !fails)]
            && r.rows[..|s.rows|] == AfterMerge(s.rows, provider, item)
            && r.rows[|s.rows|..] ==
               if known || fails then []
               else
                 var nothing := Pricing.Meta(None, false, None, None, false);
                 [Row(provider, item.id, Pricing.Merge(nothing, item.meta).0, false)]
  {
    var i := Lookup(s.rows, provider, item.id);
    NewMetaIsMergedIntoNothing(item.meta);
    if i < |s.rows| {
      var raw :| item.meta == Pricing.ListedOf(raw);
      Pricing.MergeFlagIsExact(s.rows[i].meta, raw);
    }
    KnownIff(s.rows, provider, item.id);
    MergedInPlace(s.rows, provider, item);
    hide Pricing.Merge, Pricing.ListedOf, NewMeta, Lookup, AfterMerge, At, UniquePairs;
  }

  lemma {:induction false} MergedInPlace(rows: seq<Row>, provider: string, item: Listed)
    requires UniquePairs(rows)
    ensures var i := Lookup(rows, provider, item.id);
            AfterMerge(rows, provider, item) ==
            if i < |rows| then rows[i := rows[i].(meta := Pricing.Merge(rows[i].meta, item.meta).0)] else rows
  {
    var i := Lookup(rows, provider, item.id);
    hide Pricing.Merge;
    forall j | 0 <= j < |rows| ensures At(rows, j, provider, item.id) <==> j == i {
      OnlyOneAt(rows, provider, item.id, j);
    }
    hide Lookup, UniquePairs;
    var merged := AfterMerge(rows, provider, item);
    assert forall j :: 0 <= j < |rows| ==>
             merged[j] == if At(rows, j, provider, item.id)
                          then rows[j].(meta := Pricing.Merge(rows[j].meta, item.meta).0) else rows[j];
  }

  lemma {:induction false} OnlyOneAt(rows: seq<Row>, provider: string, id: string, j: nat)
    requires UniquePairs(rows) && j < |rows|
    ensures At(rows, j, provider, id) <==> j == Lookup(rows, provider, id)
  {
    var i := Lookup(rows, provider, id);
    if At(rows, j, provider, id) {
      assert i <= j && At(rows, i, provider, id);
    }
  }

  lemma {:induction false} KnownIff(rows: seq<Row>, provider: string, id: string)
    ensures Lookup(rows, provider, id) < |rows| <==>
            exists row :: row in rows && row.providerId == provider && row.alias == id
  {
    var i := Lookup(rows, provider, id);
    if i < |rows| {
      assert At(rows, i, provider, id) && rows[i] in rows;
    }
    if row :| row in rows && row.providerId == provider && row.alias == id {
      var j :| 0 <= j < |rows| && rows[j] == row;
      assert At(rows, j, provider, id);
    }
  }

  // Every row of that provider and alias merged with the listing, all others as
  // they were.
  function AfterMerge(rows: seq<Row>, provider: string, item: Listed): (r: seq<Row>)
    ensures |r| == |rows|
  {
    seq(|rows|, i requires 0 <= i < |rows| =>
      if rows[i].providerId == provider && rows[i].alias == item.id
      then rows[i].(meta := Pricing.Merge(rows[i].meta, item.meta).0) else rows[i])
  }

  lemma {:induction false} NewMetaIsMergedIntoNothing(d: Pricing.Listed)
    ensures NewMeta(d) == Pricing.Merge(Pricing.Meta(None, false, None, None, false), d).0
  {
    var prices := if d.pricing.Some? then Pricing.Prices(d.pricing.value) else map[];
    assert map[] + prices == prices;
    assert d.limits.Some? ==> map[] + d.limits.value == d.limits.value;
  }

  // After a run a model is in the table exactly when it was before, or it is
  // listed and its insertion did not fail.
  lemma {:induction false} ImportedExactly(
    rows: seq<Row>, provider: string, listing: seq<Listed>, total: nat, fails: string -> bool, id: string)
    ensures HasRow(ImportAll(rows, provider, listing, total, fails).rows, provider, id) <==>
            HasRow(rows, provider, id) || (HasId(listing, id) && !fails(id))
  {
    if listing != [] {
      var n := |listing| - 1;
      ImportedExactly(rows, provider, listing[..n], total, fails, id);
      assert listing == listing[..n] + [listing[n]];
      HasIdAppend(listing[..n], listing[n], id);
      var s := ImportAll(rows, provider, listing[..n], total, fails);
      OneImported(s, provider, listing[n], total, fails(listing[n].id), id);
      hide ImportOne, HasRow, HasId;
    }
  }

  ghost predicate HasRow(rows: seq<Row>, provider: string, id: string) {
    exists i :: At(rows, i, provider, id)
  }

  lemma {:induction false} OneImported(s: Imported, provider: string, item: Listed, total: nat, fails: bool, id: string)
    ensures HasRow(ImportOne(s, provider, item, total, fails).rows, provider, id) <==>
            HasRow(s.rows, provider, id) || (item.id == id && !fails)
  {
    var r := ImportOne(s, provider, item, total, fails);
    hide Pricing.Merge, NewMeta;
    assert forall i :: 0 <= i < |s.rows| ==> (At(s.rows, i, provider, id) <==> At(r.rows, i, provider, id));
    if |r.rows| > |s.rows| {
      assert At(r.rows, |s.rows|, provider, item.id);
    }
  }

  // The runs of one provider, in the order of their rows.
  ghost function RunsOf(runs: seq<TestRun>, provider: string): seq<TestRun> {
    if runs == [] then []
    else (if runs[0].providerId == provider then [runs[0]] else []) + RunsOf(runs[1..], provider)
  }

  lemma {:induction false} OfIsRunsOf(runs: seq<TestRun>, provider: string)
    ensures Of(runs, provider) == RunsOf(runs, provider)
  {
    if runs != [] {
      var n := |runs| - 1;
      OfIsRunsOf(runs[..n], provider);
      RunsOfAppend(runs[..n], runs[n], provider);
      assert runs == runs[..n] + [runs[n]];
    }
  }

  lemma {:induction false} RunsOfAppend(runs: seq<TestRun>, run: TestRun, provider: string)
    ensures RunsOf(runs + [run], provider) ==
            RunsOf(runs, provider) + if run.providerId == provider then [run] else []
  {
    if runs == [] {
      assert runs + [run] == [run] && [run][1..] == [];
    } else {
      var all, first := runs + [run], if runs[0].providerId == provider then [runs[0]] else [];
      assert all[1..] == runs[1..] + [run];
      assert RunsOf(all, provider) == first + RunsOf(all[1..], provider);
      assert RunsOf(runs, provider) == first + RunsOf(runs[1..], provider);
      RunsOfAppend(runs[1..], run, provider);
      hide RunsOf;
    }
  }
}
