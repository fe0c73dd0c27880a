/**
 Prices of a model: what a provider's listing says about them
 (app/services/discovery.py), what an operator sets by hand and how past usage
 is recomputed from it (app/services/provider_manager.py), and what a new
 request costs (app/services/dispatch.py).
 */
module Pricing {
  import opened Wrappers
  import ModelHealth

  // ---------------------------------------------------------------- data

  // A stored price; JSON null is kept apart because arithmetic on it raises.
  datatype Price = Num(value: real) | Null

  // A model's metadata as far as pricing goes.  `pricing` and `limits` are None
  // when absent; `manual` is `price_source == "manual"`.
  datatype Meta = Meta(
    pricing: Option<map<string, Price>>, free: bool, kind: Option<string>,
    limits: Option<map<string, int>>, manual: bool)

  datatype Usage = Usage(
    modelId: string, tokensIn: int, tokensOut: int, cost: real, isFree: bool, unlimited: bool, priceKnown: bool)

  // ---------------------------------------------------------------- what a request costs

  // `ModelRecord.pricing`: the numeric entries among the three price keys.
  function NumericAt(pricing: map<string, Price>, key: string): Option<real> {
    if key in pricing && pricing[key].Num? then Some(pricing[key].value) else None
  }

  function PricingOf(meta: Meta): map<string, Price> {
    match meta.pricing case None => map[] case Some(p) => p
  }

  predicate HasRecordPricing(meta: Meta) {
    var p := PricingOf(meta);
    NumericAt(p, "prompt").Some? || NumericAt(p, "completion").Some? || NumericAt(p, "request").Some?
  }

  function RecordPrice(meta: Meta, key: string): real {
    match NumericAt(PricingOf(meta), key) case None => 0.0 case Some(v) => v
  }

  // A quantity at a price.
  function Times(a: real, b: real): real {
    a * b
  }

  // `_resolve_cost`: the cost of a request and whether its price is known.
  function ResolveCost(meta: Meta, reported: Option<real>, tokensIn: int, tokensOut: int): (real, bool) {
    if meta.free then (0.0, true)
    else if reported.Some? then (reported.value, true)
    else if HasRecordPricing(meta) then
      (Times(tokensIn as real, RecordPrice(meta, "prompt")) + Times(tokensOut as real, RecordPrice(meta, "completion"))
       + RecordPrice(meta, "request"), true)
    else (0.0, false)
  }

  predicate HasLimits(meta: Meta) {
    meta.limits.Some? && meta.limits.value != map[]
  }

  predicate IsUnlimited(meta: Meta) {
    meta.free && !HasLimits(meta)
  }

  // ---------------------------------------------------------------- reconciliation

  function PriceAt(pricing: map<string, Price>, key: string): Price {
    if key in pricing then pricing[key] else Num(0.0)
  }

  // None when multiplying by a null price raises.
  function RowCost(pricing: map<string, Price>, row: Usage): Option<real> {
    var p, c, r := PriceAt(pricing, "prompt"), PriceAt(pricing, "completion"), PriceAt(pricing, "request");
    if p.Num? && c.Num? && r.Num? then
      Some(Times(row.tokensIn as real, p.value) + Times(row.tokensOut as real, c.value) + r.value)
    else None
  }

  predicate Priceable(pricing: map<string, Price>) {
    PriceAt(pricing, "prompt").Num? && PriceAt(pricing, "completion").Num? && PriceAt(pricing, "request").Num?
  }

  // One usage row of the model, recomputed.
  function Recomputed(meta: Meta, row: Usage): Usage
    requires meta.free || Priceable(PricingOf(meta))
  {
    var pricing := PricingOf(meta);
    var known := row.(isFree := meta.free, unlimited := meta.free && !HasLimits(meta));
    if meta.free then known.(cost := 0.0, priceKnown := true)
    else if pricing != map[] then known.(cost := RowCost(pricing, row).value, priceKnown := true)
    else known.(cost := 0.0, priceKnown := false)
  }

  function Reconciled(meta: Meta, modelId: string, rows: seq<Usage>): (r: seq<Usage>)
    requires meta.free || Priceable(PricingOf(meta))
    ensures |r| == |rows|
    ensures forall i :: 0 <= i < |r| ==>
              r[i] == if rows[i].modelId == modelId then Recomputed(meta, rows[i]) else rows[i]
  {
    if rows == [] then []
    else
      var n := |rows| - 1;
      Reconciled(meta, modelId, rows[..n])
      + [if rows[n].modelId == modelId then Recomputed(meta, rows[n]) else rows[n]]
  }

  predicate Concerns(modelId: string, rows: seq<Usage>) {
    exists i :: 0 <= i < |rows| && rows[i].modelId == modelId
  }

  // One row of the loop; None when the arithmetic raises.
  method RecomputeRow(meta: Meta, row: Usage) returns (r: Option<Usage>)
    ensures r.None? <==> !meta.free && !Priceable(PricingOf(meta))
    ensures r.Some? ==> r.value == Recomputed(meta, row)
  {
    var pricing, unlimited := PricingOf(meta), !HasLimits(meta);
    var next := row.(isFree := meta.free, unlimited := meta.free && unlimited);
    if meta.free {
      return Some(next.(cost := 0.0, priceKnown := true));
    }
    if pricing != map[] {
      var cost := RowCost(pricing, row);
      return if cost.None? then None else Some(next.(cost := cost.value, priceKnown := true));
    }
    return Some(next.(cost := 0.0, priceKnown := false));
  }

  // The recomputation; None when it raises before its commit.
  method ReconcileUsage(meta: Meta, modelId: string, rows: seq<Usage>) returns (r: Option<seq<Usage>>)
    ensures r.None? <==> !meta.free && !Priceable(PricingOf(meta)) && Concerns(modelId, rows)
    ensures r.Some? && (meta.free || Priceable(PricingOf(meta))) ==> r.value == Reconciled(meta, modelId, rows)
    ensures r.Some? && !Concerns(modelId, rows) ==> r.value == rows
  {
    hide Recomputed, Priceable;
    ghost var fine := meta.free || Priceable(PricingOf(meta));
    var work := [];
    for i := 0 to |rows|
      invariant fine ==> work == Reconciled(meta, modelId, rows[..i])
      invariant !Concerns(modelId, rows[..i]) ==> work == rows[..i]
      invariant !fine ==> !Concerns(modelId, rows[..i])
    {
      var row := rows[i];
      assert rows[..i + 1] == rows[..i] + [row] && rows[..i + 1][..i] == rows[..i];
      ConcernsAppend(modelId, rows[..i], row);
      hide Concerns;
      if row.modelId == modelId {
        var next := RecomputeRow(meta, row);
        if next.None? {
          assert Concerns(modelId, rows) by { StillConcerns(modelId, rows, i); }
          return None;
        }
        row := next.value;
      }
      work := work + [row];
    }
    assert rows[..|rows|] == rows;
    return Some(work);
  }

  lemma {:induction false} ConcernsAppend(modelId: string, rows: seq<Usage>, row: Usage)
    ensures Concerns(modelId, rows + [row]) <==> Concerns(modelId, rows) || row.modelId == modelId
  {
    var all := rows + [row];
    assert all[|rows|] == row && forall i :: 0 <= i < |rows| ==> all[i] == rows[i];
  }

  lemma {:induction false} StillConcerns(modelId: string, rows: seq<Usage>, i: nat)
    requires i < |rows| && rows[i].modelId == modelId
    ensures Concerns(modelId, rows)
  {
  }

  // ---------------------------------------------------------------- reconciliation and dispatch

  // The row carries what dispatch would record now for those tokens, with no
  // cost reported by the provider.
  predicate AsDispatched(meta: Meta, row: Usage) {
    (row.cost, row.priceKnown) == ResolveCost(meta, None, row.tokensIn, row.tokensOut)
    && row.unlimited == IsUnlimited(meta)
  }

  // Reconciliation agrees with dispatch exactly for free models, for models
  // without any pricing entry, and for models with one of the three prices.
  lemma {:induction false} RowAgreesIff(meta: Meta, row: Usage)
    requires meta.free || Priceable(PricingOf(meta))
    ensures AsDispatched(meta, Recomputed(meta, row)) <==>
            meta.free || PricingOf(meta) == map[] || HasRecordPricing(meta)
  {
    hide Times;
    if !meta.free {
      PricedMeansListed(meta);
      if PricingOf(meta) != map[] {
        var q := Recomputed(meta, row);
        RecomputedCost(meta, row, RecordPrice(meta, "prompt"), RecordPrice(meta, "completion"),
                       RecordPrice(meta, "request"));
        assert q.priceKnown && q.unlimited == IsUnlimited(meta);
        if HasRecordPricing(meta) {
          assert q.cost == ResolveCost(meta, None, q.tokensIn, q.tokensOut).0;
        }
      }
    }
  }

  // A cost the provider reported survives reconciliation exactly for free
  // models, and for priced ones when it is what their prices come to.
  lemma {:induction false} ReportedCostSurvivesIff(meta: Meta, row: Usage, reported: real)
    requires meta.free || Priceable(PricingOf(meta))
    ensures var q := Recomputed(meta, row);
            var listed := Times(row.tokensIn as real, RecordPrice(meta, "prompt"))
                          + Times(row.tokensOut as real, RecordPrice(meta, "completion"))
                          + RecordPrice(meta, "request");
            (q.cost, q.priceKnown) == ResolveCost(meta, Some(reported), row.tokensIn, row.tokensOut)
            <==> meta.free || (PricingOf(meta) != map[] && reported == listed)
  {
    hide Times;
    if !meta.free && PricingOf(meta) != map[] {
      RecomputedCost(meta, row, RecordPrice(meta, "prompt"), RecordPrice(meta, "completion"),
                     RecordPrice(meta, "request"));
    }
  }

  lemma {:induction false} PricedMeansListed(meta: Meta)
    requires Priceable(PricingOf(meta))
    ensures RecordPrice(meta, "prompt") == PriceAt(PricingOf(meta), "prompt").value
    ensures RecordPrice(meta, "completion") == PriceAt(PricingOf(meta), "completion").value
    ensures RecordPrice(meta, "request") == PriceAt(PricingOf(meta), "request").value
  {
  }

  lemma {:induction false} ReconciliationAgreesIff(meta: Meta, modelId: string, rows: seq<Usage>)
    requires Concerns(modelId, rows) && (meta.free || Priceable(PricingOf(meta)))
    ensures (forall row :: row in Reconciled(meta, modelId, rows) && row.modelId == modelId ==> AsDispatched(meta, row))
            <==> meta.free || PricingOf(meta) == map[] || HasRecordPricing(meta)
  {
    var r := Reconciled(meta, modelId, rows);
    var agrees := meta.free || PricingOf(meta) == map[] || HasRecordPricing(meta);
    forall i | 0 <= i < |rows|
      ensures r[i].modelId == rows[i].modelId && (r[i].modelId == modelId ==> (AsDispatched(meta, r[i]) <==> agrees))
    {
      if rows[i].modelId == modelId { RowAgreesIff(meta, rows[i]); }
    }
    hide Recomputed, Reconciled, Priceable, HasRecordPricing, AsDispatched, PricingOf;
    var i :| 0 <= i < |rows| && rows[i].modelId == modelId;
    assert r[i] in r && r[i].modelId == modelId;
  }

  // Rows of other models are untouched, and a second pass changes nothing.
  lemma {:induction false} ReconciliationIsLocalAndIdempotent(meta: Meta, modelId: string, rows: seq<Usage>)
    requires meta.free || Priceable(PricingOf(meta))
    ensures forall i :: 0 <= i < |rows| && rows[i].modelId != modelId ==> Reconciled(meta, modelId, rows)[i] == rows[i]
    ensures Reconciled(meta, modelId, Reconciled(meta, modelId, rows)) == Reconciled(meta, modelId, rows)
  {
    var r := Reconciled(meta, modelId, rows);
    forall i | 0 <= i < |rows| ensures Reconciled(meta, modelId, r)[i] == r[i] {
      if rows[i].modelId == modelId { RecomputedTwice(meta, rows[i]); }
    }
  }

  lemma {:induction false} RecomputedTwice(meta: Meta, row: Usage)
    requires meta.free || Priceable(PricingOf(meta))
    ensures Recomputed(meta, Recomputed(meta, row)) == Recomputed(meta, row)
    ensures Recomputed(meta, row).modelId == row.modelId
  {
  }

  // The smallest disagreement: a stored price under another key makes
  // reconciliation call the price known where dispatch does not.
  lemma {:induction false} ForeignPriceDisagrees(row: Usage)
    ensures var meta := Meta(Some(map["image" := Num(0.01)]), false, None, None, true);
            Priceable(PricingOf(meta)) && !AsDispatched(meta, Recomputed(meta, row))
  {
    var meta := Meta(Some(map["image" := Num(0.01)]), false, None, None, true);
    assert "image" in PricingOf(meta);
    RowAgreesIff(meta, row);
  }

  // ---------------------------------------------------------------- totals

  function SumIn(modelId: string, rows: seq<Usage>): real {
    if rows == [] then 0.0
    else SumIn(modelId, rows[1..]) + if rows[0].modelId == modelId then rows[0].tokensIn as real else 0.0
  }

  function SumOut(modelId: string, rows: seq<Usage>): real {
    if rows == [] then 0.0
    else SumOut(modelId, rows[1..]) + if rows[0].modelId == modelId then rows[0].tokensOut as real else 0.0
  }

  function Requests(modelId: string, rows: seq<Usage>): real {
    if rows == [] then 0.0
    else Requests(modelId, rows[1..]) + if rows[0].modelId == modelId then 1.0 else 0.0
  }

  function SumCost(modelId: string, rows: seq<Usage>): real {
    if rows == [] then 0.0
    else SumCost(modelId, rows[1..]) + if rows[0].modelId == modelId then rows[0].cost else 0.0
  }

  // A row costs its tokens and one request at the record's prices.
  lemma {:induction false} RecomputedCost(meta: Meta, row: Usage, p: real, c: real, r: real)
    requires !meta.free && Priceable(PricingOf(meta)) && PricingOf(meta) != map[]
    requires p == RecordPrice(meta, "prompt") && c == RecordPrice(meta, "completion")
    requires r == RecordPrice(meta, "request")
    ensures Recomputed(meta, row).cost == Times(row.tokensIn as real, p) + Times(row.tokensOut as real, c) + r
  {
  }

  lemma {:induction false} ReconciledTail(meta: Meta, modelId: string, rows: seq<Usage>)
    requires rows != [] && (meta.free || Priceable(PricingOf(meta)))
    ensures Reconciled(meta, modelId, rows)[1..] == Reconciled(meta, modelId, rows[1..])
  {
  }

  // The total of a priced model is its tokens times its prices plus its
  // requests times its request price.
  lemma {:induction false} TotalCost(meta: Meta, modelId: string, rows: seq<Usage>, p: real, c: real, r: real)
    requires !meta.free && Priceable(PricingOf(meta)) && PricingOf(meta) != map[]
    requires p == RecordPrice(meta, "prompt") && c == RecordPrice(meta, "completion")
    requires r == RecordPrice(meta, "request")
    ensures SumCost(modelId, Reconciled(meta, modelId, rows)) ==
            Times(p, SumIn(modelId, rows)) + Times(c, SumOut(modelId, rows)) + Times(r, Requests(modelId, rows))
  {
    if rows != [] {
      var rest, row, all := rows[1..], rows[0], Reconciled(meta, modelId, rows);
      ReconciledTail(meta, modelId, rows);
      TotalCost(meta, modelId, rest, p, c, r);
      if row.modelId == modelId { RecomputedCost(meta, row, p, c, r); }
      assert all[0] == if row.modelId == modelId then Recomputed(meta, row) else row;
      assert SumCost(modelId, all) == SumCost(modelId, all[1..]) + if row.modelId == modelId then all[0].cost else 0.0;
      hide Recomputed, Reconciled, Priceable, RecordPrice, PricingOf, SumCost, Times;
      if row.modelId == modelId {
        AddRow(p, SumIn(modelId, rest), row.tokensIn as real);
        AddRow(c, SumOut(modelId, rest), row.tokensOut as real);
        AddRow(r, Requests(modelId, rest), 1.0);
        AddOne(r);
      }
    }
  }

  lemma {:induction false} AddRow(a: real, b: real, c: real)
    ensures Times(a, b + c) == Times(a, b) + Times(c, a)
  {
  }

  lemma {:induction false} AddOne(r: real)
    ensures Times(1.0, r) == r
  {
  }

  // ---------------------------------------------------------------- setting prices by hand

  // A request to change prices; None where the request leaves a field alone.
  datatype Update = Update(
    prompt: Option<Price>, completion: Option<Price>, request: Option<Price>,
    free: Option<bool>, perMinute: Option<int>, perDay: Option<int>)

  function Put<V>(m: map<string, V>, key: string, value: Option<V>): map<string, V> {
    match value case None => m case Some(v) => m[key := v]
  }

  predicate Changes(u: Update) {
    u.prompt.Some? || u.completion.Some? || u.request.Some? || u.free.Some? || u.perMinute.Some? || u.perDay.Some?
  }

  function LimitsOf(meta: Meta): map<string, int> {
    match meta.limits case None => map[] case Some(l) => l
  }

  function Updated(meta: Meta, u: Update): Meta {
    if !Changes(u) then meta
    else
      var tokens := Put(Put(PricingOf(meta), "prompt", u.prompt), "completion", u.completion);
      var pricing := Put(tokens, "request", u.request);
      var limits := Put(Put(LimitsOf(meta), "requests_per_minute", u.perMinute), "requests_per_day", u.perDay);
      Meta(Some(pricing), if u.free.Some? then u.free.value else meta.free, meta.kind,
           if u.perMinute.Some? || u.perDay.Some? then Some(limits) else meta.limits, true)
  }

  method ApplyUpdate(meta: Meta, u: Update) returns (meta': Meta, changed: bool)
    ensures meta' == Updated(meta, u) && changed == Changes(u)
  {
    var pricing, free, limits := PricingOf(meta), meta.free, meta.limits;
    changed := false;
    if u.prompt.Some? {
      pricing, changed := pricing["prompt" := u.prompt.value], true;
    }
    if u.completion.Some? {
      pricing, changed := pricing["completion" := u.completion.value], true;
    }
    if u.request.Some? {
      pricing, changed := pricing["request" := u.request.value], true;
    }
    if u.free.Some? {
      free, changed := u.free.value, true;
    }
    if u.perMinute.Some? {
      limits, changed := Some(LimitsOf(meta)["requests_per_minute" := u.perMinute.value]), true;
    }
    if u.perDay.Some? {
      var soFar := match limits case None => map[] case Some(l) => l;
      limits, changed := Some(soFar["requests_per_day" := u.perDay.value]), true;
    }
    meta' := if changed then Meta(Some(pricing), free, meta.kind, limits, true) else meta;
  }

  // `rows'` is None when the metadata is stored but the recomputation raises.
  method UpdateModelPricing(meta: Meta, u: Update, modelId: string, rows: seq<Usage>)
    returns (meta': Meta, rows': Option<seq<Usage>>)
    ensures meta' == Updated(meta, u)
    ensures !Changes(u) ==> rows' == Some(rows)
    ensures Changes(u) ==>
              (rows'.None? <==> !meta'.free && !Priceable(PricingOf(meta')) && Concerns(modelId, rows))
    ensures Changes(u) && (meta'.free || Priceable(PricingOf(meta'))) ==>
              rows' == Some(Reconciled(meta', modelId, rows))
  {
    var changed;
    meta', changed := ApplyUpdate(meta, u);
    rows' := Some(rows);
    hide Priceable, Reconciled, Concerns, Updated, Changes;
    if changed {
      rows' := ReconcileUsage(meta', modelId, rows);
    }
  }

  predicate NumericOrAbsent(price: Option<Price>) {
    price.None? || price.value.Num?
  }

  // After an update that sets some price, all given prices being numbers, every
  // usage row of the model is what dispatch would record now, unless a null
  // price is left and the recomputation raises.
  lemma {:induction false} NumericUpdateAgreesWithDispatch(meta: Meta, u: Update, modelId: string, rows: seq<Usage>)
    requires u.prompt.Some? || u.completion.Some? || u.request.Some?
    requires NumericOrAbsent(u.prompt) && NumericOrAbsent(u.completion) && NumericOrAbsent(u.request)
    requires Updated(meta, u).free || Priceable(PricingOf(Updated(meta, u)))
    ensures forall row :: row in Reconciled(Updated(meta, u), modelId, rows) && row.modelId == modelId ==>
              AsDispatched(Updated(meta, u), row)
  {
    var meta' := Updated(meta, u);
    assert |"prompt"| == 6 && |"completion"| == 10 && |"request"| == 7;
    assert HasRecordPricing(meta');
    forall row | row in Reconciled(meta', modelId, rows) && row.modelId == modelId ensures AsDispatched(meta', row) {
      var r := Reconciled(meta', modelId, rows);
      var i :| 0 <= i < |r| && r[i] == row;
      hide Priceable, HasRecordPricing, AsDispatched, Updated;
      RowAgreesIff(meta', rows[i]);
    }
  }

  // A null price is left exactly when one is given, or was stored and is not
  // overwritten.
  lemma {:induction false} NullPriceLeftIff(meta: Meta, u: Update)
    ensures var pricing := PricingOf(meta);
            !Priceable(PricingOf(Updated(meta, u))) <==>
            || Or(u.prompt, PriceAt(pricing, "prompt")).Null?
            || Or(u.completion, PriceAt(pricing, "completion")).Null?
            || Or(u.request, PriceAt(pricing, "request")).Null?
  {
    assert |"prompt"| == 6 && |"completion"| == 10 && |"request"| == 7;
  }

  // ---------------------------------------------------------------- what a listing says

  // A price in a listing item: a number, a numeral, or anything else.
  datatype RawPrice = Number(value: real) | Numeral(value: real) | Other

  datatype Item = Item(
    id: string, prompt: RawPrice, completion: RawPrice, request: RawPrice,
    promptTokens: Option<int>, completionTokens: Option<int>)

  // Discovered metadata; `free` can only be set, never cleared.
  datatype Listed = Listed(
    pricing: Option<map<string, real>>, free: bool, kind: Option<string>, limits: Option<map<string, int>>)

  function ParsedPrice(raw: RawPrice): Option<real> {
    match raw case Other => None case Number(v) => Some(v) case Numeral(v) => Some(v)
  }

  predicate EndsWith(s: string, suffix: string) {
    |suffix| <= |s| && s[|s| - |suffix|..] == suffix
  }

  function ListedOf(item: Item): (d: Listed)
    ensures d.pricing != Some(map[]) && d.limits != Some(map[])
  {
    var pricing := Put(Put(Put(map[], "prompt", ParsedPrice(item.prompt)), "completion", ParsedPrice(item.completion)),
                       "request", ParsedPrice(item.request));
    var limits := Put(Put(map[], "prompt_tokens", item.promptTokens), "completion_tokens", item.completionTokens);
    var zero := forall key :: key in pricing ==> pricing[key] == 0.0;
    Listed(
      if pricing == map[] then None else Some(pricing),
      EndsWith(item.id, ":free") || EndsWith(item.id, "-free") || (pricing != map[] && zero),
      if ModelHealth.IsImageModel(item.id) then Some("image") else None,
      if limits == map[] then None else Some(limits))
  }

  // A listing carries exactly the prices that parse, under their own keys, and
  // exactly the limits the item gives.
  lemma {:induction false} ListedExactly(item: Item, key: string)
    ensures var d := ListedOf(item);
            var pricing, limits := Or(d.pricing, map[]), Or(d.limits, map[]);
            && (var raw := if key == "prompt" then item.prompt else if key == "completion" then item.completion
                           else if key == "request" then item.request else Other;
                At(pricing, key) == if raw.Other? then None else Some(raw.value))
            && At(limits, key) == (if key == "prompt_tokens" then item.promptTokens
                                   else if key == "completion_tokens" then item.completionTokens else None)
            && d.pricing != Some(map[]) && d.limits != Some(map[])
            && (d.kind == Some("image") <==> ModelHealth.IsImageModel(item.id))
            && (d.kind.Some? ==> d.kind.value == "image")
  {
    assert |"prompt"| == 6 && |"completion"| == 10 && |"request"| == 7;
    assert |"prompt_tokens"| == 13 && |"completion_tokens"| == 17;
  }

  function Or<T>(o: Option<T>, default: T): T {
    match o case None => default case Some(v) => v
  }

  function At<V>(m: map<string, V>, key: string): Option<V> {
    if key in m then Some(m[key]) else None
  }

  lemma {:induction false} EndsWithIff(s: string, suffix: string)
    ensures EndsWith(s, suffix) <==> exists front :: s == front + suffix
  {
    if EndsWith(s, suffix) {
      assert s == s[..|s| - |suffix|] + suffix;
    }
    if front :| s == front + suffix {
      assert |s| - |suffix| == |front| && s[|front|..] == suffix;
    }
  }

  lemma {:induction false} FreeByEndOrZeroPrices(item: Item)
    ensures var p, c, r := ParsedPrice(item.prompt), ParsedPrice(item.completion), ParsedPrice(item.request);
            ListedOf(item).free <==>
            || EndsWith(item.id, ":free") || EndsWith(item.id, "-free")
            || ((p.Some? || c.Some? || r.Some?) && Or(p, 0.0) == 0.0 && Or(c, 0.0) == 0.0 && Or(r, 0.0) == 0.0)
  {
    var p, c, r := ParsedPrice(item.prompt), ParsedPrice(item.completion), ParsedPrice(item.request);
    var pricing := Put(Put(Put(map[], "prompt", p), "completion", c), "request", r);
    assert |"prompt"| == 6 && |"completion"| == 10 && |"request"| == 7;
    hide EndsWith;
    assert p.Some? ==> "prompt" in pricing && pricing["prompt"] == p.value;
    assert c.Some? ==> "completion" in pricing && pricing["completion"] == c.value;
    assert r.Some? ==> "request" in pricing && pricing["request"] == r.value;
    assert p.None? && c.None? && r.None? ==> pricing == map[];
    forall key | key in pricing
      ensures || (p.Some? && pricing[key] == p.value) || (c.Some? && pricing[key] == c.value)
              || (r.Some? && pricing[key] == r.value)
    {
    }
  }

  // A model is listed as free exactly when its name says so, or when it has a
  // price and none that is not zero.
  lemma {:induction false} FreeOnlyByNameOrZeroPrices(item: Item)
    ensures var p, c, r := ParsedPrice(item.prompt), ParsedPrice(item.completion), ParsedPrice(item.request);
            ListedOf(item).free <==>
            || (exists name :: item.id == name + ":free") || (exists name :: item.id == name + "-free")
            || ((p.Some? || c.Some? || r.Some?) && Or(p, 0.0) == 0.0 && Or(c, 0.0) == 0.0 && Or(r, 0.0) == 0.0)
  {
    FreeByEndOrZeroPrices(item);
    EndsWithIff(item.id, ":free");
    EndsWithIff(item.id, "-free");
    hide EndsWith, ListedOf, ParsedPrice, Or;
  }

  // ---------------------------------------------------------------- merging a listing

  // Whether some entry of `items` is missing from `base` or different there.
  predicate Differs<V(==)>(base: map<string, V>, items: map<string, V>) {
    exists key :: key in items && (key !in base || base[key] != items[key])
  }

  function Prices(items: map<string, real>): map<string, Price> {
    map key | key in items :: Num(items[key])
  }

  // The merged metadata, and the flag that says whether to store it.
  function Merge(meta: Meta, d: Listed): (Meta, bool) {
    if meta.manual || d == Listed(None, false, None, None) then (meta, false)
    else
      var prices := if d.pricing.Some? then Prices(d.pricing.value) else map[];
      var limits := if d.limits.Some? then d.limits.value else map[];
      (Meta(if d.pricing.Some? then Some(PricingOf(meta) + prices) else meta.pricing,
            meta.free || d.free,
            if d.kind.Some? then d.kind else meta.kind,
            if d.limits.Some? then Some(LimitsOf(meta) + limits) else meta.limits,
            false),
       Differs(PricingOf(meta), prices) || (d.free && !meta.free) || (d.kind.Some? && meta.kind != d.kind)
       || Differs(LimitsOf(meta), limits))
  }

  method MergeItems<V(==)>(base: map<string, V>, items: map<string, V>) returns (merged: map<string, V>, changed: bool)
    ensures merged == base + items && changed == Differs(base, items)
  {
    merged, changed := base, false;
    var todo := items.Keys;
    while todo != {}
      invariant todo <= items.Keys
      invariant forall key :: key in todo ==>
                  (key in merged <==> key in base) && (key in base ==> merged[key] == base[key])
      invariant merged == base + map key | key in items && key !in todo :: items[key]
      invariant changed <==> exists key :: key in items && key !in todo && (key !in base || base[key] != items[key])
      decreases todo
    {
      var key :| key in todo;
      if key !in merged || merged[key] != items[key] {
        merged, changed := merged[key := items[key]], true;
      }
      todo := todo - {key};
    }
  }

  method MergeProviderMeta(meta: Meta, d: Listed) returns (meta': Meta, changed: bool)
    ensures (meta', changed) == Merge(meta, d)
  {
    hide Differs;
    meta', changed := meta, false;
    if d == Listed(None, false, None, None) || meta.manual {
      return;
    }
    NothingDiffers(PricingOf(meta));
    NothingDiffers(LimitsOf(meta));
    if d.pricing.Some? {
      var merged, more := MergeItems(PricingOf(meta), Prices(d.pricing.value));
      meta', changed := meta'.(pricing := Some(merged)), more;
    }
    if d.free && !meta'.free {
      meta', changed := meta'.(free := true), true;
    }
    if d.kind.Some? && meta'.kind != d.kind {
      meta', changed := meta'.(kind := d.kind), true;
    }
    if d.limits.Some? {
      var merged, more := MergeItems(LimitsOf(meta), d.limits.value);
      meta', changed := meta'.(limits := Some(merged)), changed || more;
    }
  }

  lemma {:induction false} NothingDiffers<V>(base: map<string, V>)
    ensures !Differs(base, map[])
  {
  }

  lemma {:induction false} DiffersIffAdds<V>(base: map<string, V>, items: map<string, V>)
    ensures Differs(base, items) <==> base + items != base
    ensures !Differs(base + items, items)
  {
  }

  // For what a listing item yields, the flag is true exactly when the merge
  // changes the metadata, and a second merge of the same item changes nothing.
  lemma {:induction false} MergeFlagIsExact(meta: Meta, item: Item)
    ensures var d := ListedOf(item);
            && (Merge(meta, d).1 <==> Merge(meta, d).0 != meta)
            && Merge(Merge(meta, d).0, d) == (Merge(meta, d).0, false)
  {
    var d := ListedOf(item);
    hide ListedOf;
    var prices := if d.pricing.Some? then Prices(d.pricing.value) else map[];
    var limits := if d.limits.Some? then d.limits.value else map[];
    if d.pricing.Some? {
      assert prices != map[] by {
        var key :| key in d.pricing.value;
        assert key in prices;
      }
    }
    DiffersIffAdds(PricingOf(meta), prices);
    DiffersIffAdds(LimitsOf(meta), limits);
    DiffersIffAdds(PricingOf(meta) + prices, prices);
    DiffersIffAdds(LimitsOf(meta) + limits, limits);
    NothingDiffers(PricingOf(meta));
    NothingDiffers(LimitsOf(meta));
    NothingDiffers(PricingOf(Merge(meta, d).0));
    NothingDiffers(LimitsOf(Merge(meta, d).0));
    hide Differs, Prices;
  }

  // ---------------------------------------------------------------- manual override, over whole runs

  datatype Edit = Discovered(d: Listed) | SetByHand(u: Update)

  function AfterEdits(meta: Meta, edits: seq<Edit>): Meta {
    if edits == [] then meta
    else
      var before := AfterEdits(meta, edits[..|edits| - 1]);
      match edits[|edits| - 1]
      case Discovered(d) => Merge(before, d).0
      case SetByHand(u) => Updated(before, u)
  }

  // Once prices are set by hand, no number of later discoveries changes
  // pricing, free, kind or limits: they stay what that edit left.
  lemma {:induction false} ManualPricesStay(meta: Meta, edits: seq<Edit>, i: nat)
    requires i < |edits| && edits[i].SetByHand? && Changes(edits[i].u)
    requires forall j :: i < j < |edits| ==> edits[j].Discovered?
    ensures AfterEdits(meta, edits) == AfterEdits(meta, edits[..i + 1])
    ensures AfterEdits(meta, edits).manual
  {
    var n := |edits| - 1;
    if i == n {
      assert edits[..i + 1] == edits;
    } else {
      ManualPricesStay(meta, edits[..n], i);
      assert edits[..n][..i + 1] == edits[..i + 1];
    }
  }

  // ---------------------------------------------------------------- in plain terms

  // What an edit by hand leaves, key by key.
  lemma {:induction false} UpdateInPlainTerms(meta: Meta, u: Update, key: string)
    ensures var r := Updated(meta, u);
            var pricing, limits := PricingOf(r), LimitsOf(r);
            if u == Update(None, None, None, None, None, None) then r == meta
            else
              && r.manual && r.kind == meta.kind && r.pricing.Some?
              && r.free == (match u.free case None => meta.free case Some(flag) => flag)
              && At(pricing, key) ==
                 (if key == "prompt" && u.prompt.Some? then u.prompt
                  else if key == "completion" && u.completion.Some? then u.completion
                  else if key == "request" && u.request.Some? then u.request else At(PricingOf(meta), key))
              && At(limits, key) ==
                 (if key == "requests_per_minute" && u.perMinute.Some? then u.perMinute
                  else if key == "requests_per_day" && u.perDay.Some? then u.perDay else At(LimitsOf(meta), key))
              && (u.perMinute.None? && u.perDay.None? ==> r.limits == meta.limits)
  {
    assert |"prompt"| == 6 && |"completion"| == 10 && |"request"| == 7;
    assert |"requests_per_minute"| == 19 && |"requests_per_day"| == 16;
  }

  // What a discovery adds, key by key, unless prices were set by hand.
  lemma {:induction false} MergeInPlainTerms(meta: Meta, item: Item, key: string)
    ensures var r, d := Merge(meta, ListedOf(item)).0, ListedOf(item);
            var pricing, limits := Or(d.pricing, map[]), Or(d.limits, map[]);
            if meta.manual then r == meta
            else
              && !r.manual && (r.free <==> meta.free || d.free)
              && r.kind == (if d.kind.Some? then d.kind else meta.kind)
              && At(PricingOf(r), key) ==
                 (if key in pricing then Some(Num(pricing[key])) else At(PricingOf(meta), key))
              && At(LimitsOf(r), key) == (if key in limits then Some(limits[key]) else At(LimitsOf(meta), key))
  {
    hide ListedOf, Differs;
  }

  // What a request costs, off the stored metadata.
  lemma {:induction false} CostInPlainTerms(
    meta: Meta, reported: Option<real>, tokensIn: int, tokensOut: int,
    p: Option<real>, c: Option<real>, r: Option<real>)
    requires p == StoredNumber(meta, "prompt") && c == StoredNumber(meta, "completion")
    requires r == StoredNumber(meta, "request")
    ensures var cost := ResolveCost(meta, reported, tokensIn, tokensOut);
            if meta.free then cost == (0.0, true)
            else if reported.Some? then cost == (reported.value, true)
            else if p.None? && c.None? && r.None? then cost == (0.0, false)
            else cost == (Times(tokensIn as real, Or(p, 0.0)) + Times(tokensOut as real, Or(c, 0.0)) + Or(r, 0.0), true)
    ensures IsUnlimited(meta) <==> meta.free && (meta.limits.None? || meta.limits.value == map[])
  {
    RecordPriceIs(meta, "prompt");
    RecordPriceIs(meta, "completion");
    RecordPriceIs(meta, "request");
    hide RecordPrice, StoredNumber, NumericAt, PricingOf, Or, Times;
  }

  lemma {:induction false} RecordPriceIs(meta: Meta, key: string)
    ensures RecordPrice(meta, key) == Or(StoredNumber(meta, key), 0.0)
    ensures NumericAt(PricingOf(meta), key).Some? <==> StoredNumber(meta, key).Some?
  {
  }

  function StoredNumber(meta: Meta, key: string): Option<real> {
    if meta.pricing.Some? && key in meta.pricing.value && meta.pricing.value[key] != Null
    then Some(meta.pricing.value[key].value) else None
  }

  // What a recomputed row carries besides its cost.
  lemma {:induction false} RecomputedFlags(meta: Meta, row: Usage)
    requires meta.free || Priceable(PricingOf(meta))
    ensures var q := Recomputed(meta, row);
            && q == row.(cost := q.cost, isFree := meta.free, unlimited := q.unlimited, priceKnown := q.priceKnown)
            && (q.unlimited <==> meta.free && (meta.limits.None? || meta.limits.value == map[]))
            && (q.priceKnown <==> meta.free || (meta.pricing.Some? && meta.pricing.value != map[]))
            && (meta.free || !q.priceKnown ==> q.cost == 0.0)
  {
  }
}
