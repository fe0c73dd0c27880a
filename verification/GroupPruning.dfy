/**
 Step 3 of app/services/cleanup.py: every cleanup run deletes the groups that
 have neither children nor keys in the snapshot it starts from.

 The results are about any number of runs on any table, including dangling
 parents and parent cycles.
 */
module GroupPruning {
  import opened Wrappers
  import opened Sets

  datatype Group = Group(id: string, parent: Option<string>)

  // Group ids are the primary key of the table.
  ghost predicate UniqueIds(rows: seq<Group>) {
    forall i, j :: 0 <= i < j < |rows| ==> rows[i].id != rows[j].id
  }

  predicate HasChildren(rows: seq<Group>, g: Group) {
    exists c :: c in rows && c.parent == Some(g.id)
  }

  // `keyGroups` lists the group of each API key row.
  predicate Stays(rows: seq<Group>, keyGroups: seq<Option<string>>, g: Group) {
    HasChildren(rows, g) || Some(g.id) in keyGroups
  }

  // The groups of `part` that a run on the snapshot `rows` leaves.
  function Survivors(rows: seq<Group>, keyGroups: seq<Option<string>>, part: seq<Group>): (r: seq<Group>)
    ensures |r| <= |part| && (|r| == |part| ==> r == part)
  {
    if part == [] then []
    else
      var rest := Survivors(rows, keyGroups, part[1..]);
      if Stays(rows, keyGroups, part[0]) then [part[0]] + rest else rest
  }

  lemma {:induction false} SurvivorsHas(
    rows: seq<Group>, keyGroups: seq<Option<string>>, part: seq<Group>, g: Group)
    ensures g in Survivors(rows, keyGroups, part) <==> g in part && Stays(rows, keyGroups, g)
  {
    if part != [] { SurvivorsHas(rows, keyGroups, part[1..], g); }
  }

  function Prune(rows: seq<Group>, keyGroups: seq<Option<string>>): seq<Group> {
    Survivors(rows, keyGroups, rows)
  }

  function Runs(rows: seq<Group>, keyGroups: seq<Option<string>>, k: nat): seq<Group> {
    if k == 0 then rows else Prune(Runs(rows, keyGroups, k - 1), keyGroups)
  }

  // ---------------------------------------------------------------- the loop

  function CountKeys(keyGroups: seq<Option<string>>, id: string): (n: nat)
    ensures n == 0 <==> Some(id) !in keyGroups
  {
    if keyGroups == [] then 0
    else CountKeys(keyGroups[1..], id) + if keyGroups[0] == Some(id) then 1 else 0
  }

  function DeleteRow(table: seq<Group>, id: string): seq<Group> {
    if table == [] then []
    else if table[0].id == id then table[1..]
    else [table[0]] + DeleteRow(table[1..], id)
  }

  lemma {:induction false} DeleteRowSkips(before: seq<Group>, g: Group, after: seq<Group>)
    requires forall b :: b in before ==> b.id != g.id
    ensures DeleteRow(before + [g] + after, g.id) == before + after
  {
    if before != [] {
      assert (before + [g] + after)[1..] == before[1..] + [g] + after;
      DeleteRowSkips(before[1..], g, after);
    } else {
      assert [] + [g] + after == [g] + after;
    }
  }

  lemma {:induction false} SurvivorsAppend(rows: seq<Group>, keyGroups: seq<Option<string>>, part: seq<Group>, g: Group)
    ensures Survivors(rows, keyGroups, part + [g]) ==
            Survivors(rows, keyGroups, part) + if Stays(rows, keyGroups, g) then [g] else []
  {
    if part != [] {
      assert (part + [g])[1..] == part[1..] + [g];
      SurvivorsAppend(rows, keyGroups, part[1..], g);
    }
  }

  method AnyChild(rows: seq<Group>, id: string) returns (found: bool)
    ensures found <==> exists c :: c in rows && c.parent == Some(id)
  {
    found := false;
    for j := 0 to |rows|
      invariant found <==> exists i :: 0 <= i < j && rows[i].parent == Some(id)
    {
      if rows[j].parent == Some(id) {
        found := true;
      }
    }
  }

  // One round of the loop: row `i` of the snapshot is deleted or passed over.
  method Visit(
    rows: seq<Group>, keyGroups: seq<Option<string>>, i: nat, table: seq<Group>, deleted: nat, stays: bool)
    returns (table': seq<Group>, deleted': nat)
    requires UniqueIds(rows) && i < |rows| && stays == Stays(rows, keyGroups, rows[i])
    requires table == Survivors(rows, keyGroups, rows[..i]) + rows[i..]
    ensures table' == Survivors(rows, keyGroups, rows[..i + 1]) + rows[i + 1..]
    ensures deleted' - deleted == |table| - |table'|
  {
    hide Survivors, Stays, DeleteRow;
    ghost var kept, group, rest := Survivors(rows, keyGroups, rows[..i]), rows[i], rows[i + 1..];
    assert rows[..i + 1] == rows[..i] + [group] && table == kept + [group] + rest;
    SurvivorsAppend(rows, keyGroups, rows[..i], group);
    table', deleted' := table, deleted;
    if !stays {
      NoSameIdBefore(rows, keyGroups, i);
      DeleteRowSkips(kept, group, rest);
      table' := DeleteRow(table, rows[i].id);
      deleted' := deleted + 1;
      assert kept + [] == kept;
    }
  }

  method RunCleanupGroups(rows: seq<Group>, keyGroups: seq<Option<string>>)
    returns (table: seq<Group>, deleted: nat)
    requires UniqueIds(rows)
    ensures table == Prune(rows, keyGroups)
    ensures deleted == |rows| - |table|
  {
    table, deleted := rows, 0;
    assert Survivors(rows, keyGroups, rows[..0]) == [];
    hide Survivors, UniqueIds;
    for i := 0 to |rows|
      invariant table == Survivors(rows, keyGroups, rows[..i]) + rows[i..]
      invariant deleted == |rows| - |table|
    {
      var group := rows[i];
      var hasChildren := AnyChild(rows, group.id);
      var keyCount := CountKeys(keyGroups, group.id);
      assert (hasChildren || keyCount != 0) == Stays(rows, keyGroups, group);
      hide Stays, CountKeys;
      table, deleted := Visit(rows, keyGroups, i, table, deleted, hasChildren || keyCount != 0);
    }
    assert rows[..|rows|] == rows;
  }

  lemma {:induction false} NoSameIdBefore(rows: seq<Group>, keyGroups: seq<Option<string>>, i: nat)
    requires UniqueIds(rows) && i < |rows|
    ensures forall b :: b in Survivors(rows, keyGroups, rows[..i]) ==> b.id != rows[i].id
  {
    forall b | b in Survivors(rows, keyGroups, rows[..i]) ensures b.id != rows[i].id {
      SurvivorsHas(rows, keyGroups, rows[..i], b);
    }
  }

  // ---------------------------------------------------------------- row order

  // What a run leaves depends on which rows there are, not on their order.
  lemma {:induction false} RowOrderDoesNotMatter(rows: seq<Group>, rows': seq<Group>, keyGroups: seq<Option<string>>)
    requires multiset(rows) == multiset(rows')
    ensures multiset(Prune(rows, keyGroups)) == multiset(Prune(rows', keyGroups))
  {
    assert forall g :: g in rows <==> g in multiset(rows);
    assert forall g :: g in rows' <==> g in multiset(rows');
    forall g ensures multiset(Prune(rows, keyGroups))[g] == multiset(Prune(rows', keyGroups))[g] {
      CountSurvivors(rows, keyGroups, rows, g);
      CountSurvivors(rows', keyGroups, rows', g);
      assert HasChildren(rows, g) <==> HasChildren(rows', g);
    }
  }

  lemma {:induction false} CountSurvivors(rows: seq<Group>, keyGroups: seq<Option<string>>, part: seq<Group>, g: Group)
    ensures multiset(Survivors(rows, keyGroups, part))[g] ==
            if Stays(rows, keyGroups, g) then multiset(part)[g] else 0
  {
    if part != [] {
      assert part == [part[0]] + part[1..];
      CountSurvivors(rows, keyGroups, part[1..], g);
    }
  }

  // ---------------------------------------------------------------- one run more

  lemma {:induction false} RunsStep(rows: seq<Group>, keyGroups: seq<Option<string>>, g: Group, k: nat)
    requires k > 0
    ensures var before := Runs(rows, keyGroups, k - 1);
            g in Runs(rows, keyGroups, k) <==> g in before && Stays(before, keyGroups, g)
  {
    var before := Runs(rows, keyGroups, k - 1);
    SurvivorsHas(before, keyGroups, before, g);
  }

  // ---------------------------------------------------------------- chains of descendants

  // A chain goes from a group to one of its children, step by step.
  ghost predicate Chain(rows: seq<Group>, p: seq<Group>) {
    && p != [] && (forall g :: g in p ==> g in rows)
    && forall i :: 0 <= i < |p| - 1 ==> p[i + 1].parent == Some(p[i].id)
  }

  ghost predicate KeyedBelow(rows: seq<Group>, keyGroups: seq<Option<string>>, g: Group) {
    exists p: seq<Group> :: Chain(rows, p) && p[0] == g && Some(p[|p| - 1].id) in keyGroups
  }

  // Why a group survives `k` runs: a chain of fewer than `k` steps down to a
  // group with a key, or any chain of `k` steps.
  ghost predicate Supports(rows: seq<Group>, keyGroups: seq<Option<string>>, g: Group, k: nat, p: seq<Group>) {
    && Chain(rows, p) && p[0] == g
    && (|p| == k + 1 || (|p| <= k && Some(p[|p| - 1].id) in keyGroups))
  }

  lemma {:induction false} ExtendChain(rows: seq<Group>, g: Group, p: seq<Group>)
    requires g in rows && Chain(rows, p) && p[0].parent == Some(g.id)
    ensures Chain(rows, [g] + p) && ([g] + p)[0] == g && ([g] + p)[|p|] == p[|p| - 1]
  {
  }

  lemma {:induction false} ChainTail(rows: seq<Group>, p: seq<Group>)
    requires Chain(rows, p) && |p| > 1
    ensures Chain(rows, p[1..]) && p[1].parent == Some(p[0].id)
  {
  }

  // Exactly which groups are left after any number of runs on any table.
  lemma {:induction false} SurvivesRunsIffSupported(
    rows: seq<Group>, keyGroups: seq<Option<string>>, g: Group, k: nat)
    ensures g in Runs(rows, keyGroups, k) <==> exists p :: Supports(rows, keyGroups, g, k, p)
    decreases k
  {
    if g in Runs(rows, keyGroups, k) {
      var p := SupportOf(rows, keyGroups, g, k);
    }
    if p :| Supports(rows, keyGroups, g, k, p) {
      SupportedSurvives(rows, keyGroups, g, k, p);
    }
  }

  lemma {:induction false} SupportOf(rows: seq<Group>, keyGroups: seq<Option<string>>, g: Group, k: nat)
    returns (p: seq<Group>)
    requires g in Runs(rows, keyGroups, k)
    ensures Supports(rows, keyGroups, g, k, p)
    decreases k
  {
    if k == 0 {
      p := [g];
    } else {
      var before := Runs(rows, keyGroups, k - 1);
      RunsStep(rows, keyGroups, g, k);
      hide Runs;
      p := SupportOf(rows, keyGroups, g, k - 1);
      if Some(g.id) in keyGroups {
        p := [g];
      } else {
        assert g in rows by { assert p[0] in p; }
        var c :| c in before && c.parent == Some(g.id);
        var q := SupportOf(rows, keyGroups, c, k - 1);
        hide KeyedBelow, Stays;
        ExtendChain(rows, g, q);
        p := [g] + q;
      }
    }
  }

  lemma {:induction false} SupportedSurvives(
    rows: seq<Group>, keyGroups: seq<Option<string>>, g: Group, k: nat, p: seq<Group>)
    requires Supports(rows, keyGroups, g, k, p)
    ensures g in Runs(rows, keyGroups, k)
    decreases k
  {
    assert p[0] in p;
    if k > 0 {
      var before := Runs(rows, keyGroups, k - 1);
      RunsStep(rows, keyGroups, g, k);
      hide Runs;
      ShorterSupport(rows, keyGroups, g, k, p);
      if |p| > 1 {
        ChainTail(rows, p);
        assert p[1..][|p[1..]| - 1] == p[|p| - 1];
        SupportedSurvives(rows, keyGroups, p[1], k - 1, p[1..]);
        assert HasChildren(before, g);
      }
    }
  }

  // A support for `k` runs contains one for the runs before.
  lemma {:induction false} ShorterSupport(
    rows: seq<Group>, keyGroups: seq<Option<string>>, g: Group, k: nat, p: seq<Group>)
    requires k > 0 && Supports(rows, keyGroups, g, k, p)
    ensures g in Runs(rows, keyGroups, k - 1)
    decreases k, 0
  {
    if |p| <= k - 1 {
      SupportedSurvives(rows, keyGroups, g, k - 1, p);
    } else {
      var q := p[..k];
      assert forall i :: 0 <= i < |q| ==> q[i] == p[i] && q[i] in p;
      SupportedSurvives(rows, keyGroups, g, k - 1, q);
    }
  }

  // ---------------------------------------------------------------- what it means for the panel

  // A group with a key anywhere below it survives every run.
  lemma {:induction false} KeyedSubtreeSurvives(rows: seq<Group>, keyGroups: seq<Option<string>>, g: Group, k: nat)
    requires KeyedBelow(rows, keyGroups, g)
    ensures g in Runs(rows, keyGroups, k)
  {
    var p: seq<Group> :| Chain(rows, p) && p[0] == g && Some(p[|p| - 1].id) in keyGroups;
    var q := if |p| <= k then p else p[..k + 1];
    assert forall i :: 0 <= i < |q| ==> q[i] == p[i] && q[i] in p;
    assert Supports(rows, keyGroups, g, k, q);
    SupportedSurvives(rows, keyGroups, g, k, q);
  }

  // The table is a forest of at most `height` levels.
  ghost predicate ForestOfHeight(rows: seq<Group>, height: nat) {
    forall p :: Chain(rows, p) ==> |p| <= height
  }

  // On a forest, as many runs as it has levels leave exactly the groups with a
  // key in their subtree, and later runs change nothing.
  lemma {:induction false} ForestFixpoint(rows: seq<Group>, keyGroups: seq<Option<string>>, height: nat, k: nat)
    requires ForestOfHeight(rows, height) && height <= k
    ensures forall g :: g in Runs(rows, keyGroups, k) <==> KeyedBelow(rows, keyGroups, g)
    ensures Runs(rows, keyGroups, k) == Runs(rows, keyGroups, height)
  {
    KeyedExactly(rows, keyGroups, height, k);
    ForestSettles(rows, keyGroups, height, k);
  }

  lemma {:induction false} ForestSettles(rows: seq<Group>, keyGroups: seq<Option<string>>, height: nat, k: nat)
    requires ForestOfHeight(rows, height) && height <= k
    ensures Runs(rows, keyGroups, k) == Runs(rows, keyGroups, height)
  {
    hide Runs, ForestOfHeight;
    if k > height {
      ForestSettles(rows, keyGroups, height, k - 1);
      NothingLeaves(rows, keyGroups, height, k);
    }
  }

  lemma {:induction false} NothingLeaves(rows: seq<Group>, keyGroups: seq<Option<string>>, height: nat, k: nat)
    requires ForestOfHeight(rows, height) && height < k
    ensures Runs(rows, keyGroups, k) == Runs(rows, keyGroups, k - 1)
  {
    var before := Runs(rows, keyGroups, k - 1);
    KeyedExactly(rows, keyGroups, height, k - 1);
    forall g | g in before ensures Stays(before, keyGroups, g) {
      KeyedSubtreeSurvives(rows, keyGroups, g, k);
      RunsStep(rows, keyGroups, g, k);
    }
    hide KeyedBelow, ForestOfHeight, Stays;
    AllStay(before, keyGroups, before);
  }

  lemma {:induction false} KeyedExactly(rows: seq<Group>, keyGroups: seq<Option<string>>, height: nat, k: nat)
    requires ForestOfHeight(rows, height) && height <= k
    ensures forall g :: g in Runs(rows, keyGroups, k) <==> KeyedBelow(rows, keyGroups, g)
  {
    forall g ensures g in Runs(rows, keyGroups, k) <==> KeyedBelow(rows, keyGroups, g) {
      if KeyedBelow(rows, keyGroups, g) {
        KeyedSubtreeSurvives(rows, keyGroups, g, k);
      } else if g in Runs(rows, keyGroups, k) {
        var p := SupportOf(rows, keyGroups, g, k);
      }
    }
  }

  lemma {:induction false} AllStay(rows: seq<Group>, keyGroups: seq<Option<string>>, part: seq<Group>)
    requires forall g :: g in part ==> Stays(rows, keyGroups, g)
    ensures Survivors(rows, keyGroups, part) == part
  {
    if part != [] { AllStay(rows, keyGroups, part[1..]); }
  }

  // A chain from `g` that comes back to a group it already visited.
  ghost predicate Loops(rows: seq<Group>, g: Group, p: seq<Group>, i: nat) {
    Chain(rows, p) && p[0] == g && i < |p| - 1 && p[i] == p[|p| - 1]
  }

  ghost predicate AboveCycle(rows: seq<Group>, g: Group) {
    exists p, i :: Loops(rows, g, p, i)
  }

  ghost predicate NeverDeleted(rows: seq<Group>, keyGroups: seq<Option<string>>, g: Group) {
    forall k: nat :: g in Runs(rows, keyGroups, k)
  }

  // Exactly which groups of any table are never deleted: those with a key in
  // their subtree, and those on a parent cycle or above one.
  lemma {:induction false} NeverDeletedIff(rows: seq<Group>, keyGroups: seq<Option<string>>, g: Group)
    ensures NeverDeleted(rows, keyGroups, g) <==> KeyedBelow(rows, keyGroups, g) || AboveCycle(rows, g)
    ensures g in Runs(rows, keyGroups, |rows|) <==> KeyedBelow(rows, keyGroups, g) || AboveCycle(rows, g)
  {
    hide KeyedBelow, AboveCycle;
    assert NeverDeleted(rows, keyGroups, g) ==> g in Runs(rows, keyGroups, |rows|);
    if g in Runs(rows, keyGroups, |rows|) {
      KeyedOrAboveCycle(rows, keyGroups, g);
    }
    if KeyedBelow(rows, keyGroups, g) || AboveCycle(rows, g) {
      forall k: nat ensures g in Runs(rows, keyGroups, k) {
        if KeyedBelow(rows, keyGroups, g) {
          KeyedSubtreeSurvives(rows, keyGroups, g, k);
        } else {
          CyclesAreNeverPruned(rows, keyGroups, g, k);
        }
      }
    }
  }

  // A chain longer than the table comes back to a group it already visited.
  lemma {:induction false} KeyedOrAboveCycle(rows: seq<Group>, keyGroups: seq<Option<string>>, g: Group)
    requires g in Runs(rows, keyGroups, |rows|)
    ensures KeyedBelow(rows, keyGroups, g) || AboveCycle(rows, g)
  {
    var p := SupportOf(rows, keyGroups, g, |rows|);
    if |p| == |rows| + 1 {
      Pigeonhole(p, rows);
      var i, j :| 0 <= i < j < |p| && p[i] == p[j];
      var q := p[..j + 1];
      assert forall m :: 0 <= m < |q| ==> q[m] == p[m] && q[m] in p;
      assert Loops(rows, g, q, i);
    }
  }

  lemma {:induction false} CyclesAreNeverPruned(rows: seq<Group>, keyGroups: seq<Option<string>>, g: Group, k: nat)
    requires AboveCycle(rows, g)
    ensures g in Runs(rows, keyGroups, k)
  {
    var p, i :| Loops(rows, g, p, i);
    var q := LongChain(rows, p, i, k + 1);
    assert q[..k + 1][0] == g && Chain(rows, q[..k + 1]);
    SupportedSurvives(rows, keyGroups, g, k, q[..k + 1]);
  }

  lemma {:induction false} LongChain(rows: seq<Group>, p: seq<Group>, i: nat, length: nat) returns (q: seq<Group>)
    requires Chain(rows, p) && i < |p| - 1 && p[i] == p[|p| - 1]
    ensures Chain(rows, q) && q[0] == p[0] && q[|q| - 1] == p[i] && |q| >= length
  {
    if length == 0 {
      q := p;
    } else {
      var shorter := LongChain(rows, p, i, length - 1);
      var loop := p[i + 1..];
      q := shorter + loop;
      forall j | 0 <= j < |q| - 1 ensures q[j + 1].parent == Some(q[j].id) {
        if j < |shorter| - 1 {
          assert q[j + 1] == shorter[j + 1] && q[j] == shorter[j];
        } else if j == |shorter| - 1 {
          assert q[j + 1] == p[i + 1] && q[j] == p[i];
        } else {
          var m := i + 1 + (j - |shorter|);
          assert q[j + 1] == p[m + 1] && q[j] == p[m];
        }
      }
    }
  }

  // On every table, forest or not, the runs settle within as many of them as
  // there are rows.
  lemma {:induction false} SettlesWithinRowCount(rows: seq<Group>, keyGroups: seq<Option<string>>, k: nat)
    requires |rows| <= k
    ensures Runs(rows, keyGroups, k) == Runs(rows, keyGroups, |rows|)
  {
    if k > |rows| {
      assert Runs(rows, keyGroups, k) == Prune(Runs(rows, keyGroups, k - 1), keyGroups);
      hide Runs;
      SettlesWithinRowCount(rows, keyGroups, k - 1);
      ShrinksOrSettled(rows, keyGroups, |rows|);
    }
  }

  lemma {:induction false} ShrinksOrSettled(rows: seq<Group>, keyGroups: seq<Option<string>>, k: nat)
    ensures var now := Runs(rows, keyGroups, k); Prune(now, keyGroups) == now || |now| + k <= |rows|
  {
    if k > 0 { ShrinksOrSettled(rows, keyGroups, k - 1); }
  }
}
