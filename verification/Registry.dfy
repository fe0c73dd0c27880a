/**
 The in-memory registry of app/services/provider_manager.py: `Reload` builds
 dictionaries from the rows of four tables, `Resolve` answers from the
 dictionaries.  `Resolve` is proved to answer what one plain pass over the rows
 answers.
 */
module Registry {
  import opened Wrappers
  import opened Text

  // ---------------------------------------------------------------- tables

  datatype Provider = Provider(
    id: string, name: string, baseUrl: string, apiKey: Option<string>, protocol: string,
    isDefault: bool, isActive: bool)

  datatype Model = Model(id: string, providerId: string, alias: string, internalModel: string, isActive: bool)

  // `mapping` is None when the stored JSON is not an object.
  datatype KeyRow = KeyRow(hash: string, mapping: Option<map<string, string>>)

  datatype PoolKey = PoolKey(providerId: string, apiKey: string, isActive: bool)

  datatype Tables = Tables(providers: seq<Provider>, models: seq<Model>, keys: seq<KeyRow>, pool: seq<PoolKey>)

  datatype Resolved = Resolved(target: string, model: Model, provider: Provider)

  // The composite unique constraint of the models table.
  ghost predicate UniquePairs(models: seq<Model>) {
    forall i, j :: 0 <= i < j < |models| ==>
      models[i].providerId != models[j].providerId || models[i].alias != models[j].alias
  }

  // ---------------------------------------------------------------- one pass over the rows

  function FindProvider(rows: seq<Provider>, id: string): (r: Option<Provider>)
    ensures r.Some? ==> r.value.id == id && r.value in rows
  {
    if rows == [] then None
    else if rows[|rows| - 1].id == id then Some(rows[|rows| - 1])
    else FindProvider(rows[..|rows| - 1], id)
  }

  function First(rows: seq<Model>, wanted: Model -> bool): (r: Option<Model>)
    ensures r.Some? ==> r.value in rows && wanted(r.value)
    ensures r.None? ==> forall m :: m in rows ==> !wanted(m)
  {
    if rows == [] then None
    else if wanted(rows[0]) then Some(rows[0])
    else First(rows[1..], wanted)
  }

  predicate OfDefault(providers: seq<Provider>, m: Model) {
    var p := FindProvider(providers, m.providerId);
    p.Some? && p.value.isDefault
  }

  // The first active row of the default provider with that alias, or else the
  // first active row with it.
  function ScanAlias(providers: seq<Provider>, models: seq<Model>, alias: string): Option<Model> {
    var best := First(models, (m: Model) => m.isActive && m.alias == alias && OfDefault(providers, m));
    if best.Some? then best else First(models, (m: Model) => m.isActive && m.alias == alias)
  }

  predicate Named(providers: seq<Provider>, name: string, alias: string, m: Model) {
    var p := FindProvider(providers, m.providerId);
    m.alias == alias && m.isActive && p.Some? && p.value.name == name
  }

  function ScanExplicit(providers: seq<Provider>, models: seq<Model>, name: string, alias: string): Option<Model> {
    First(models, (m: Model) => Named(providers, name, alias, m))
  }

  function ScanMapping(keys: seq<KeyRow>, hash: string): Option<map<string, string>> {
    if keys == [] then None
    else
      var last := keys[|keys| - 1];
      if last.hash == hash && last.mapping.Some? then last.mapping else ScanMapping(keys[..|keys| - 1], hash)
  }

  function PoolOf(pool: seq<PoolKey>, pid: string): seq<string> {
    if pool == [] then []
    else
      var last := pool[|pool| - 1];
      PoolOf(pool[..|pool| - 1], pid) + if last.isActive && last.providerId == pid then [last.apiKey] else []
  }

  function ScanTarget(keys: seq<KeyRow>, id: string, keyHash: Option<string>): string {
    if keyHash.None? || keyHash.value == "" then id
    else
      match ScanMapping(keys, keyHash.value)
      case None => id
      case Some(mapping) => if id in mapping then mapping[id] else id
  }

  // What routing means, read off the rows: the per-key override, then the best
  // row for the alias if its provider is active, and only when no active row
  // has that alias, an explicit "provider/alias".
  function ScanResolve(t: Tables, id: string, keyHash: Option<string>): Option<Resolved> {
    var target := ScanTarget(t.keys, id, keyHash);
    match ScanAlias(t.providers, t.models, target)
    case Some(m) =>
      var p := FindProvider(t.providers, m.providerId);
      if p.Some? && p.value.isActive then Some(Resolved(target, m, p.value)) else None
    case None =>
      if '/' !in target then None
      else
        match ScanExplicit(t.providers, t.models, Before(target, '/'), After(target, '/'))
        case None => None
        case Some(m) =>
          var p := FindProvider(t.providers, m.providerId);
          if p.Some? then Some(Resolved(target, m, p.value)) else None
  }

  lemma {:induction false} FirstAppend(rows: seq<Model>, m: Model, wanted: Model -> bool)
    ensures First(rows + [m], wanted) ==
            if First(rows, wanted).Some? then First(rows, wanted) else if wanted(m) then Some(m) else None
  {
    if rows == [] {
      assert rows + [m] == [m] && [m][1..] == [];
    } else {
      assert (rows + [m])[1..] == rows[1..] + [m];
      FirstAppend(rows[1..], m, wanted);
    }
  }

  // One row more: it takes over an alias exactly when nothing had it, or when it
  // is the first row of the default provider to have it.
  lemma {:induction false} ScanAliasAppend(providers: seq<Provider>, models: seq<Model>, m: Model, alias: string)
    ensures var before := ScanAlias(providers, models, alias);
            ScanAlias(providers, models + [m], alias) ==
              if m.isActive && m.alias == alias
                 && (before.None? || (OfDefault(providers, m) && !OfDefault(providers, before.value)))
              then Some(m) else before
    ensures var before := ScanAlias(providers, models, alias);
            before.Some? ==> before.value.isActive && before.value.alias == alias
  {
    FirstAppend(models, m, (m: Model) => m.isActive && m.alias == alias && OfDefault(providers, m));
    FirstAppend(models, m, (m: Model) => m.isActive && m.alias == alias);
  }

  // ---------------------------------------------------------------- the object

  datatype Slot = Slot(providerId: string, alias: string, model: Model)

  function Slots(models: seq<Model>): seq<Slot> {
    if models == [] then []
    else
      var m := models[|models| - 1];
      Slots(models[..|models| - 1]) + [Slot(m.providerId, m.alias, m)]
  }

  // `dict[key] = model` on an insertion-ordered dictionary.
  function Assign(slots: seq<Slot>, slot: Slot): seq<Slot> {
    if slots == [] then [slot]
    else if slots[0].providerId == slot.providerId && slots[0].alias == slot.alias then [slot] + slots[1..]
    else [slots[0]] + Assign(slots[1..], slot)
  }

  lemma {:induction false} AssignNew(slots: seq<Slot>, slot: Slot)
    requires forall s :: s in slots ==> s.providerId != slot.providerId || s.alias != slot.alias
    ensures Assign(slots, slot) == slots + [slot]
  {
    if slots != [] {
      AssignNew(slots[1..], slot);
      assert slots == [slots[0]] + slots[1..];
    }
  }

  lemma {:induction false} SlotAt(models: seq<Model>, i: nat)
    requires i < |models|
    ensures |Slots(models)| == |models|
    ensures Slots(models)[i] == Slot(models[i].providerId, models[i].alias, models[i])
  {
    var n := |models| - 1;
    if i < n { SlotAt(models[..n], i); }
    if n > 0 { SlotAt(models[..n], 0); }
  }

  lemma {:induction false} NewPair(models: seq<Model>, i: nat)
    requires UniquePairs(models) && i < |models|
    ensures var m := models[i];
            Assign(Slots(models[..i]), Slot(m.providerId, m.alias, m)) == Slots(models[..i + 1])
  {
    var m := models[i];
    forall s | s in Slots(models[..i]) ensures s.providerId != m.providerId || s.alias != m.alias {
      var k :| 0 <= k < |Slots(models[..i])| && Slots(models[..i])[k] == s;
      if i > 0 { SlotAt(models[..i], 0); }
      SlotAt(models[..i], k);
    }
    AssignNew(Slots(models[..i]), Slot(m.providerId, m.alias, m));
    assert models[..i + 1][..i] == models[..i];
  }

  class ProviderManager {
    var providers: map<string, Provider>
    var models: map<string, Model>
    var modelsByProvider: seq<Slot>
    var keyMappings: map<string, map<string, string>>
    var providerKeys: map<string, seq<string>>

    constructor ()
    {
      providers, models, modelsByProvider, keyMappings, providerKeys := map[], map[], [], map[], map[];
    }

    ghost predicate ProvidersOf(rows: seq<Provider>)
      reads this`providers
    {
      forall id :: (if id in providers then Some(providers[id]) else None) == FindProvider(rows, id)
    }

    ghost predicate ModelsOf(rows: seq<Provider>, list: seq<Model>)
      reads this`models, this`modelsByProvider
    {
      && (forall alias :: (if alias in models then Some(models[alias]) else None) == ScanAlias(rows, list, alias))
      && modelsByProvider == Slots(list)
    }

    ghost predicate MappingsOf(keys: seq<KeyRow>)
      reads this`keyMappings
    {
      forall hash :: (if hash in keyMappings then Some(keyMappings[hash]) else None) == ScanMapping(keys, hash)
    }

    ghost predicate PoolsOf(pool: seq<PoolKey>)
      reads this`providerKeys
    {
      forall pid :: (if pid in providerKeys then providerKeys[pid] else []) == PoolOf(pool, pid)
    }

    // The dictionaries hold what a pass over the rows would find.
    ghost predicate Indexes(t: Tables)
      reads this
    {
      ProvidersOf(t.providers) && ModelsOf(t.providers, t.models) && MappingsOf(t.keys) && PoolsOf(t.pool)
    }

    method LoadProviders(rows: seq<Provider>)
      modifies this`providers
      ensures ProvidersOf(rows)
    {
      providers := map[];
      for i := 0 to |rows|
        invariant ProvidersOf(rows[..i])
      {
        assert rows[..i + 1][..i] == rows[..i];
        providers := providers[rows[i].id := rows[i]];
      }
      assert rows[..|rows|] == rows;
    }

    function Priority(m: Model): int
      reads this`providers
    {
      if m.providerId in providers && providers[m.providerId].isDefault then 0 else 1
    }

    method LoadModels(rows: seq<Provider>, list: seq<Model>)
      requires ProvidersOf(rows) && UniquePairs(list)
      modifies this`models, this`modelsByProvider
      ensures ModelsOf(rows, list)
    {
      models, modelsByProvider := map[], [];
      assert Slots(list[..0]) == [] && forall alias :: ScanAlias(rows, list[..0], alias) == None;
      hide ScanAlias, Slots, UniquePairs, OfDefault, Assign;
      for i := 0 to |list|
        invariant ModelsOf(rows, list[..i])
      {
        NewPair(list, i);
        var rec := list[i];
        assert list[..i + 1] == list[..i] + [rec];
        modelsByProvider := Assign(modelsByProvider, Slot(rec.providerId, rec.alias, rec));
        AddAlias(rows, list[..i], rec);
      }
      assert list[..|list|] == list;
    }

    method AddAlias(rows: seq<Provider>, list: seq<Model>, rec: Model)
      requires ProvidersOf(rows)
      requires forall alias :: (if alias in models then Some(models[alias]) else None) == ScanAlias(rows, list, alias)
      modifies this`models
      ensures forall alias ::
                (if alias in models then Some(models[alias]) else None) == ScanAlias(rows, list + [rec], alias)
    {
      forall alias ensures ScanAlias(rows, list + [rec], alias) ==
        var was := ScanAlias(rows, list, alias);
        if rec.isActive && rec.alias == alias
           && (was.None? || (OfDefault(rows, rec) && !OfDefault(rows, was.value))) then Some(rec) else was
      {
        ScanAliasAppend(rows, list, rec, alias);
      }
      PriorityIsDefault(rows, rec);
      hide ScanAlias, OfDefault;
      if !rec.isActive {
        return;
      }
      if rec.alias !in models {
        models := models[rec.alias := rec];
      } else {
        PriorityIsDefault(rows, models[rec.alias]);
        if Priority(rec) < Priority(models[rec.alias]) {
          models := models[rec.alias := rec];
        }
      }
    }

    lemma {:induction false} PriorityIsDefault(rows: seq<Provider>, m: Model)
      requires ProvidersOf(rows)
      ensures Priority(m) == if OfDefault(rows, m) then 0 else 1
    {
    }

    method LoadMappings(keys: seq<KeyRow>)
      modifies this`keyMappings
      ensures MappingsOf(keys)
    {
      keyMappings := map[];
      for i := 0 to |keys|
        invariant MappingsOf(keys[..i])
      {
        assert keys[..i + 1][..i] == keys[..i];
        if keys[i].mapping.Some? {
          keyMappings := keyMappings[keys[i].hash := keys[i].mapping.value];
        }
      }
      assert keys[..|keys|] == keys;
    }

    method LoadPool(pool: seq<PoolKey>)
      modifies this`providerKeys
      ensures PoolsOf(pool)
    {
      providerKeys := map[];
      for i := 0 to |pool|
        invariant PoolsOf(pool[..i])
      {
        assert pool[..i + 1][..i] == pool[..i];
        var pk := pool[i];
        if pk.isActive {
          var soFar := if pk.providerId in providerKeys then providerKeys[pk.providerId] else [];
          providerKeys := providerKeys[pk.providerId := soFar + [pk.apiKey]];
        }
      }
      assert pool[..|pool|] == pool;
    }

    method Reload(t: Tables)
      requires UniquePairs(t.models)
      modifies this
      ensures Indexes(t)
    {
      LoadProviders(t.providers);
      LoadModels(t.providers, t.models);
      LoadMappings(t.keys);
      LoadPool(t.pool);
    }

    method FindExplicit(name: string, alias: string, ghost t: Tables) returns (r: Option<Model>)
      requires Indexes(t)
      ensures r == ScanExplicit(t.providers, t.models, name, alias)
    {
      ghost var wanted := (m: Model) => Named(t.providers, name, alias, m);
      SlotsLength(t.models);
      for i := 0 to |modelsByProvider|
        invariant First(t.models[..i], wanted) == None
      {
        var slot := modelsByProvider[i];
        SlotAt(t.models, i);
        assert t.models[..i + 1] == t.models[..i] + [t.models[i]];
        FirstAppend(t.models[..i], t.models[i], wanted);
        if slot.alias != alias {
          continue;
        }
        assert (if slot.providerId in providers then Some(providers[slot.providerId]) else None) ==
               FindProvider(t.providers, slot.providerId);
        if slot.providerId in providers {
          if providers[slot.providerId].name == name && slot.model.isActive {
            FirstPrefix(t.models, i + 1, wanted);
            return Some(slot.model);
          }
        }
      }
      assert t.models[..|t.models|] == t.models;
      return None;
    }

    // The registry answers what one pass over the tables answers.
    method Resolve(id: string, keyHash: Option<string>, ghost t: Tables) returns (r: Option<Resolved>)
      requires Indexes(t)
      ensures r == ScanResolve(t, id, keyHash)
    {
      var target := id;
      if keyHash.Some? && keyHash.value != "" && keyHash.value in keyMappings && id in keyMappings[keyHash.value] {
        target := keyMappings[keyHash.value][id];
      }
      assert target == ScanTarget(t.keys, id, keyHash) by {
        assert keyHash.Some? ==> (if keyHash.value in keyMappings then Some(keyMappings[keyHash.value]) else None)
                                 == ScanMapping(t.keys, keyHash.value);
      }
      assert (if target in models then Some(models[target]) else None) == ScanAlias(t.providers, t.models, target);
      if target !in models && '/' in target {
        var explicit := FindExplicit(Before(target, '/'), After(target, '/'), t);
        if explicit.Some? {
          var pid := explicit.value.providerId;
          assert (if pid in providers then Some(providers[pid]) else None) == FindProvider(t.providers, pid);
          assert pid in providers;
          return Some(Resolved(target, explicit.value, providers[pid]));
        }
      }
      if target !in models {
        return None;
      }
      var record := models[target];
      assert (if record.providerId in providers then Some(providers[record.providerId]) else None) ==
             FindProvider(t.providers, record.providerId);
      if record.providerId !in providers || !providers[record.providerId].isActive {
        return None;
      }
      return Some(Resolved(target, record, providers[record.providerId]));
    }
  }

  lemma {:induction false} SlotsLength(models: seq<Model>)
    ensures |Slots(models)| == |models|
  {
    if models != [] { SlotAt(models, 0); }
  }

  lemma {:induction false} FirstPrefix(rows: seq<Model>, n: nat, wanted: Model -> bool)
    requires n <= |rows| && First(rows[..n], wanted).Some?
    ensures First(rows, wanted) == First(rows[..n], wanted)
  {
    if !wanted(rows[0]) {
      assert rows[..n][1..] == rows[1..][..n - 1];
      FirstPrefix(rows[1..], n - 1, wanted);
    }
  }

  // ---------------------------------------------------------------- what the scan promises

  // Least priority wins, and among equals the earliest row.
  lemma {:induction false} BestRowWins(providers: seq<Provider>, models: seq<Model>, alias: string) returns (i: nat)
    requires exists m :: m in models && m.isActive && m.alias == alias
    ensures i < |models| && ScanAlias(providers, models, alias) == Some(models[i])
    ensures models[i].isActive && models[i].alias == alias
    ensures forall j :: 0 <= j < |models| && models[j].isActive && models[j].alias == alias ==>
              (OfDefault(providers, models[j]) ==> OfDefault(providers, models[i]))
              && (OfDefault(providers, models[j]) == OfDefault(providers, models[i]) ==> i <= j)
  {
    var byDefault := (m: Model) => m.isActive && m.alias == alias && OfDefault(providers, m);
    var byAlias := (m: Model) => m.isActive && m.alias == alias;
    if First(models, byDefault).Some? {
      i := FirstIndex(models, byDefault);
      assert byDefault(models[i]);
      forall j | 0 <= j < |models| && models[j].isActive && models[j].alias == alias && OfDefault(providers, models[j])
        ensures i <= j
      {
        assert byDefault(models[j]);
      }
    } else {
      var m :| m in models && m.isActive && m.alias == alias;
      assert byAlias(m);
      i := FirstIndex(models, byAlias);
      assert byAlias(models[i]);
      forall j | 0 <= j < |models| && models[j].isActive && models[j].alias == alias
        ensures i <= j && !OfDefault(providers, models[j])
      {
        assert byAlias(models[j]) && models[j] in models && !byDefault(models[j]);
      }
    }
  }

  lemma {:induction false} FirstIndex(rows: seq<Model>, wanted: Model -> bool) returns (i: nat)
    requires First(rows, wanted).Some?
    ensures i < |rows| && First(rows, wanted) == Some(rows[i])
    ensures forall j :: 0 <= j < |rows| && wanted(rows[j]) ==> i <= j
  {
    if wanted(rows[0]) {
      i := 0;
    } else {
      i := FirstIndex(rows[1..], wanted);
      forall j | 0 <= j < |rows| && wanted(rows[j]) ensures i + 1 <= j {
        if j > 0 { assert rows[1..][j - 1] == rows[j]; }
      }
      i := i + 1;
    }
  }

  ghost predicate UniqueNames(providers: seq<Provider>) {
    forall p, q :: p in providers && q in providers && p.name == q.name ==> p.id == q.id
  }

  // With unique provider names an explicit "provider/alias" does not depend on
  // the order of the rows.
  lemma {:induction false} ExplicitIgnoresOrder(
    providers: seq<Provider>, models: seq<Model>, models': seq<Model>, name: string, alias: string)
    requires UniqueNames(providers) && UniquePairs(models) && forall m :: m in models <==> m in models'
    ensures ScanExplicit(providers, models, name, alias) == ScanExplicit(providers, models', name, alias)
  {
  }

  // ---------------------------------------------------------------- the default flag

  // Creating or updating a provider; `setDefault` is None when the request
  // leaves the flag alone.
  datatype Edit = Insert(row: Provider) | Update(id: string, setDefault: Option<bool>)

  function ClearDefaults(rows: seq<Provider>): (r: seq<Provider>)
    ensures |r| == |rows| && forall i :: 0 <= i < |r| ==> r[i] == rows[i].(isDefault := false)
  {
    if rows == [] then [] else [rows[0].(isDefault := false)] + ClearDefaults(rows[1..])
  }

  function SetFlag(rows: seq<Provider>, id: string, flag: bool): (r: seq<Provider>)
    ensures |r| == |rows|
    ensures forall i :: 0 <= i < |r| ==> r[i] == if rows[i].id == id then rows[i].(isDefault := flag) else rows[i]
  {
    if rows == [] then []
    else [if rows[0].id == id then rows[0].(isDefault := flag) else rows[0]] + SetFlag(rows[1..], id, flag)
  }

  function Apply(rows: seq<Provider>, e: Edit): seq<Provider> {
    match e
    case Insert(row) => (if row.isDefault then ClearDefaults(rows) else rows) + [row]
    case Update(id, setDefault) =>
      match setDefault
      case None => rows
      case Some(flag) => SetFlag(if flag then ClearDefaults(rows) else rows, id, flag)
  }

  function ApplyAll(edits: seq<Edit>): seq<Provider> {
    if edits == [] then [] else Apply(ApplyAll(edits[..|edits| - 1]), edits[|edits| - 1])
  }

  // The id that is default after one edit, given the one before.
  function NextDefault(was: Option<string>, e: Edit): Option<string> {
    match e
    case Insert(row) => if row.isDefault then Some(row.id) else was
    case Update(id, setDefault) =>
      if setDefault == Some(true) then Some(id) else if setDefault == Some(false) && was == Some(id) then None else was
  }

  // The id that was made default last and not cleared since.
  function DefaultId(edits: seq<Edit>): Option<string> {
    if edits == [] then None else NextDefault(DefaultId(edits[..|edits| - 1]), edits[|edits| - 1])
  }

  // Ids are fresh on insertion and known on update.
  ghost predicate WellFormed(edits: seq<Edit>) {
    edits != [] ==>
      var rows := ApplyAll(edits[..|edits| - 1]);
      && WellFormed(edits[..|edits| - 1])
      && match edits[|edits| - 1]
         case Insert(row) => forall p :: p in rows ==> p.id != row.id
         case Update(id, _) => exists p :: p in rows && p.id == id
  }

  ghost predicate IsDefaultId(rows: seq<Provider>, id: Option<string>) {
    forall i :: 0 <= i < |rows| ==> (rows[i].isDefault <==> id == Some(rows[i].id))
  }

  lemma {:induction false} OneEditKeepsOneDefault(rows: seq<Provider>, e: Edit, was: Option<string>)
    requires IsDefaultId(rows, was)
    requires e.Insert? ==> forall i :: 0 <= i < |rows| ==> rows[i].id != e.row.id
    requires e.Insert? && was.Some? ==> was.value != e.row.id
    ensures IsDefaultId(Apply(rows, e), NextDefault(was, e))
  {
  }

  // After any series of edits the default provider is the one made default
  // last, unless its flag was cleared since: there is never a second one.
  lemma {:induction false} OneDefaultOverAllEdits(edits: seq<Edit>)
    requires WellFormed(edits)
    ensures IsDefaultId(ApplyAll(edits), DefaultId(edits))
  {
    if edits != [] {
      var init, e := edits[..|edits| - 1], edits[|edits| - 1];
      OneDefaultOverAllEdits(init);
      DefaultIsKnown(init);
      assert forall i :: 0 <= i < |ApplyAll(init)| ==> ApplyAll(init)[i] in ApplyAll(init);
      hide IsDefaultId, Apply, NextDefault;
      OneEditKeepsOneDefault(ApplyAll(init), e, DefaultId(init));
    }
  }

  lemma {:induction false} DefaultIsKnown(edits: seq<Edit>)
    requires WellFormed(edits)
    ensures DefaultId(edits).Some? ==> exists p :: p in ApplyAll(edits) && p.id == DefaultId(edits).value
  {
    if edits != [] {
      var before, rows := ApplyAll(edits[..|edits| - 1]), ApplyAll(edits);
      DefaultIsKnown(edits[..|edits| - 1]);
      if DefaultId(edits).Some? {
        var id := DefaultId(edits).value;
        if edits[|edits| - 1].Insert? && edits[|edits| - 1].row.id == id {
          assert rows[|before|] in rows;
        } else {
          var p :| p in before && p.id == id;
          var i :| 0 <= i < |before| && before[i] == p;
          assert rows[i] in rows && rows[i].id == id;
        }
      }
    }
  }

  // ---------------------------------------------------------------- routing in plain terms

  // Row `k` is the one the provider dictionary keeps for the id.
  ghost predicate KeptFor(rows: seq<Provider>, k: nat, id: string) {
    k < |rows| && rows[k].id == id && forall j :: k < j < |rows| ==> rows[j].id != id
  }

  ghost predicate ByDefault(rows: seq<Provider>, m: Model) {
    exists k: nat :: KeptFor(rows, k, m.providerId) && rows[k].isDefault
  }

  ghost predicate ByName(rows: seq<Provider>, m: Model, name: string) {
    exists k: nat :: KeptFor(rows, k, m.providerId) && rows[k].name == name
  }

  lemma {:induction false} KeptIsFound(rows: seq<Provider>, k: nat, id: string)
    requires KeptFor(rows, k, id)
    ensures FindProvider(rows, id) == Some(rows[k])
  {
    var n := |rows| - 1;
    if k < n { KeptIsFound(rows[..n], k, id); }
  }

  lemma {:induction false} FoundIsKept(rows: seq<Provider>, id: string)
    ensures FindProvider(rows, id).Some? ==> exists k: nat :: KeptFor(rows, k, id)
    ensures FindProvider(rows, id).None? ==> forall p :: p in rows ==> p.id != id
  {
    if rows != [] {
      var n := |rows| - 1;
      assert rows == rows[..n] + [rows[n]];
      if rows[n].id == id {
        assert KeptFor(rows, n, id);
      } else {
        FoundIsKept(rows[..n], id);
        if k: nat :| KeptFor(rows[..n], k, id) { assert KeptFor(rows, k, id); }
      }
    }
  }

  lemma {:induction false} ProviderFacts(rows: seq<Provider>, m: Model, name: string)
    ensures OfDefault(rows, m) <==> ByDefault(rows, m)
    ensures FindProvider(rows, m.providerId).Some? && FindProvider(rows, m.providerId).value.name == name
            <==> ByName(rows, m, name)
  {
    FoundIsKept(rows, m.providerId);
    forall k: nat | KeptFor(rows, k, m.providerId) ensures FindProvider(rows, m.providerId) == Some(rows[k]) {
      KeptIsFound(rows, k, m.providerId);
    }
    if FindProvider(rows, m.providerId).Some? {
      var k: nat :| KeptFor(rows, k, m.providerId);
    }
    hide FindProvider;
  }

  // A key's mapping, the last one stored under its hash as an object, replaces
  // the alias asked for.
  lemma {:induction false} OverrideReplaces(t: Tables, id: string, hash: string, k: nat)
    requires hash != "" && k < |t.keys| && t.keys[k].hash == hash && t.keys[k].mapping.Some?
    requires forall j :: k < j < |t.keys| && t.keys[j].hash == hash ==> t.keys[j].mapping.None?
    ensures var mapping := t.keys[k].mapping.value;
            ScanResolve(t, id, Some(hash)) == ScanResolve(t, if id in mapping then mapping[id] else id, None)
  {
    MappingFound(t.keys, hash, k);
    hide ScanAlias, ScanExplicit, ScanMapping, FindProvider;
  }

  lemma {:induction false} MappingFound(keys: seq<KeyRow>, hash: string, k: nat)
    requires k < |keys| && keys[k].hash == hash && keys[k].mapping.Some?
    requires forall j :: k < j < |keys| && keys[j].hash == hash ==> keys[j].mapping.None?
    ensures ScanMapping(keys, hash) == keys[k].mapping
  {
    var n := |keys| - 1;
    if k < n { MappingFound(keys[..n], hash, k); }
  }

  // Without one the alias is taken as it is.
  lemma {:induction false} WithoutOverride(t: Tables, id: string, keyHash: Option<string>)
    requires keyHash.None? || keyHash.value == ""
             || forall row :: row in t.keys && row.hash == keyHash.value ==> row.mapping.None?
    ensures ScanResolve(t, id, keyHash) == ScanResolve(t, id, None)
  {
    if keyHash.Some? && keyHash.value != "" { NoMapping(t.keys, keyHash.value); }
    hide ScanAlias, ScanExplicit, ScanMapping, FindProvider;
  }

  lemma {:induction false} NoMapping(keys: seq<KeyRow>, hash: string)
    requires forall row :: row in keys && row.hash == hash ==> row.mapping.None?
    ensures ScanMapping(keys, hash) == None
  {
    if keys != [] {
      assert keys[|keys| - 1] in keys;
      NoMapping(keys[..|keys| - 1], hash);
    }
  }

  // An alias goes to its first active row of a default provider, or else to its
  // first active row, if that row's provider is active.
  lemma {:induction false} AliasRoutes(t: Tables, alias: string, i: nat, k: nat)
    requires i < |t.models| && t.models[i].isActive && t.models[i].alias == alias
    requires forall j :: 0 <= j < |t.models| && t.models[j].isActive && t.models[j].alias == alias ==>
               && (ByDefault(t.providers, t.models[j]) ==> ByDefault(t.providers, t.models[i]))
               && ((ByDefault(t.providers, t.models[j]) <==> ByDefault(t.providers, t.models[i])) ==> i <= j)
    requires KeptFor(t.providers, k, t.models[i].providerId)
    ensures ScanResolve(t, alias, None) ==
            if t.providers[k].isActive then Some(Resolved(alias, t.models[i], t.providers[k])) else None
  {
    KeptIsFound(t.providers, k, t.models[i].providerId);
    forall m ensures OfDefault(t.providers, m) <==> ByDefault(t.providers, m) {
      ProviderFacts(t.providers, m, "");
    }
    assert t.models[i] in t.models;
    var best := BestRowWins(t.providers, t.models, alias);
    assert best == i;
    hide ScanAlias, ScanExplicit, ByDefault, OfDefault, FindProvider;
  }

  // Only an alias no active row has is read as "provider/alias": it goes to the
  // first active row of that alias whose provider has that name.
  lemma {:induction false} ExplicitRoutes(t: Tables, name: string, alias: string, i: nat, k: nat)
    requires '/' !in name
    requires forall m :: m in t.models && m.isActive ==> m.alias != name + "/" + alias
    requires i < |t.models| && t.models[i].isActive && t.models[i].alias == alias
    requires KeptFor(t.providers, k, t.models[i].providerId) && t.providers[k].name == name
    requires forall j :: 0 <= j < i && t.models[j].isActive && t.models[j].alias == alias ==>
               !ByName(t.providers, t.models[j], name)
    ensures ScanResolve(t, name + "/" + alias, None) ==
            Some(Resolved(name + "/" + alias, t.models[i], t.providers[k]))
  {
    var target := name + "/" + alias;
    assert target == name + ['/'] + alias;
    Cut(name, '/', alias);
    KeptIsFound(t.providers, k, t.models[i].providerId);
    var wanted := (m: Model) => Named(t.providers, name, alias, m);
    forall j | 0 <= j < i ensures !wanted(t.models[j]) {
      ProviderFacts(t.providers, t.models[j], name);
    }
    assert wanted(t.models[i]) && t.models[i] in t.models;
    var first := FirstIndex(t.models, wanted);
    assert wanted(t.models[first]) && first == i;
    NoActiveRow(t.providers, t.models, target);
    assert target[|name|] == '/';
    hide ScanAlias, FindProvider, First, ByName;
  }

  lemma {:induction false} NoActiveRow(providers: seq<Provider>, models: seq<Model>, alias: string)
    requires forall m :: m in models && m.isActive ==> m.alias != alias
    ensures ScanAlias(providers, models, alias) == None
  {
  }

  // Nothing else is routed.
  lemma {:induction false} NothingElseRoutes(t: Tables, target: string)
    requires forall m :: m in t.models && m.isActive ==> m.alias != target
    requires forall name, alias, m ::
               target == name + "/" + alias && '/' !in name && m in t.models && m.isActive && m.alias == alias ==>
                 !ByName(t.providers, m, name)
    ensures ScanResolve(t, target, None) == None
  {
    NoActiveRow(t.providers, t.models, target);
    if '/' in target {
      var name, alias := Before(target, '/'), After(target, '/');
      SplitAt(target, '/');
      assert target == name + "/" + alias;
      forall m | m in t.models ensures !Named(t.providers, name, alias, m) {
        ProviderFacts(t.providers, m, name);
      }
      assert ScanExplicit(t.providers, t.models, name, alias) == None;
    }
    hide ScanAlias, ScanExplicit, ByName, FindProvider;
  }

  // The active pool keys of a provider, in the order of their rows.
  ghost function ActivePool(pool: seq<PoolKey>, pid: string): seq<string> {
    if pool == [] then []
    else (if pool[0].isActive && pool[0].providerId == pid then [pool[0].apiKey] else []) + ActivePool(pool[1..], pid)
  }

  lemma {:induction false} PoolIsActivePool(pool: seq<PoolKey>, pid: string)
    ensures PoolOf(pool, pid) == ActivePool(pool, pid)
  {
    if pool != [] {
      var n := |pool| - 1;
      PoolIsActivePool(pool[..n], pid);
      ActivePoolAppend(pool[..n], pool[n], pid);
      assert pool == pool[..n] + [pool[n]];
    }
  }

  lemma {:induction false} ActivePoolAppend(pool: seq<PoolKey>, key: PoolKey, pid: string)
    ensures ActivePool(pool + [key], pid) ==
            ActivePool(pool, pid) + if key.isActive && key.providerId == pid then [key.apiKey] else []
  {
    if pool == [] {
      assert pool + [key] == [key] && [key][1..] == [];
    } else {
      assert (pool + [key])[1..] == pool[1..] + [key];
      ActivePoolAppend(pool[1..], key, pid);
    }
  }
}
