/**
 The request cleaner `_drop_nulls` of app/api/v1/routes.py: it removes nulls,
 and the objects and lists that become empty, from a JSON object.  A list that
 sits directly in another list is passed through as it is.
 */
module DropNulls {

  datatype Json =
    | Null
    | Scalar(text: string)
    | List(items: seq<Json>)
    | Object(members: seq<Member>)

  datatype Member = Member(key: string, value: Json)

  // ---------------------------------------------------------------- the cleaner

  function Drop(members: seq<Member>): seq<Member> {
    if members == [] then []
    else DropMember(members[0]) + Drop(members[1..])
  }

  function DropMember(m: Member): seq<Member> {
    match m.value
    case Null => []
    case Scalar(_) => [m]
    case Object(inner) => var cleaned := Drop(inner); if cleaned == [] then [] else [Member(m.key, Object(cleaned))]
    case List(items) => var cleaned := DropItems(items); if cleaned == [] then [] else [Member(m.key, List(cleaned))]
  }

  function DropItems(items: seq<Json>): seq<Json> {
    if items == [] then []
    else DropItem(items[0]) + DropItems(items[1..])
  }

  function DropItem(item: Json): seq<Json> {
    match item
    case Null => []
    case Scalar(_) => [item]
    case List(_) => [item]
    case Object(inner) => var cleaned := Drop(inner); if cleaned == [] then [] else [Object(cleaned)]
  }

  // ---------------------------------------------------------------- the loops

  lemma {:induction false} DropAppend(a: seq<Member>, m: Member)
    ensures Drop(a + [m]) == Drop(a) + DropMember(m)
  {
    if a == [] {
      assert a + [m] == [m] && [m][1..] == [];
    } else {
      assert (a + [m])[1..] == a[1..] + [m];
      DropAppend(a[1..], m);
    }
  }

  lemma {:induction false} DropItemsAppend(a: seq<Json>, item: Json)
    ensures DropItems(a + [item]) == DropItems(a) + DropItem(item)
  {
    if a == [] {
      assert a + [item] == [item] && [item][1..] == [];
    } else {
      assert (a + [item])[1..] == a[1..] + [item];
      DropItemsAppend(a[1..], item);
    }
  }

  method DropNulls(members: seq<Member>) returns (result: seq<Member>)
    ensures result == Drop(members)
    decreases members
  {
    result := [];
    for i := 0 to |members|
      invariant result == Drop(members[..i])
    {
      var m := members[i];
      assert members[..i + 1] == members[..i] + [m];
      DropAppend(members[..i], m);
      match m.value
      case Null =>
      case Object(inner) =>
        var cleaned := DropNulls(inner);
        if cleaned != [] {
          result := result + [Member(m.key, Object(cleaned))];
        }
      case List(items) =>
        var cleanedList := [];
        for j := 0 to |items|
          invariant cleanedList == DropItems(items[..j])
        {
          assert items[..j + 1] == items[..j] + [items[j]];
          DropItemsAppend(items[..j], items[j]);
          match items[j]
          case Object(inner) =>
            var cleanedItem := DropNulls(inner);
            if cleanedItem != [] {
              cleanedList := cleanedList + [Object(cleanedItem)];
            }
          case Null =>
          case _ => cleanedList := cleanedList + [items[j]];
        }
        assert items[..|items|] == items;
        if cleanedList != [] {
          result := result + [Member(m.key, List(cleanedList))];
        }
      case Scalar(_) => result := result + [m];
    }
    assert members[..|members|] == members;
  }

  // ---------------------------------------------------------------- clean objects

  // No null, empty object or empty list at any position reached without going
  // through a list directly inside a list.
  ghost predicate Clean(members: seq<Member>) {
    forall m :: m in members ==> CleanValue(m.value)
  }

  ghost predicate CleanValue(v: Json) {
    match v
    case Null => false
    case Scalar(_) => true
    case Object(inner) => inner != [] && forall m :: m in inner ==> CleanValue(m.value)
    case List(items) => items != [] && forall item :: item in items ==> CleanItem(item)
  }

  ghost predicate CleanItem(item: Json) {
    match item
    case Null => false
    case Scalar(_) => true
    case List(_) => true
    case Object(inner) => inner != [] && forall m :: m in inner ==> CleanValue(m.value)
  }

  lemma {:induction false} DropIsClean(members: seq<Member>)
    ensures forall m :: m in Drop(members) ==> CleanValue(m.value)
  {
    if members != [] {
      DropMemberIsClean(members[0]);
      DropIsClean(members[1..]);
    }
  }

  lemma {:induction false} DropMemberIsClean(m: Member)
    ensures forall x :: x in DropMember(m) ==> CleanValue(x.value)
  {
    match m.value
    case Object(inner) => DropIsClean(inner);
    case List(items) => DropItemsAreClean(items);
    case _ =>
  }

  lemma {:induction false} DropItemsAreClean(items: seq<Json>)
    ensures forall item :: item in DropItems(items) ==> CleanItem(item)
  {
    if items != [] {
      DropItemIsClean(items[0]);
      DropItemsAreClean(items[1..]);
    }
  }

  lemma {:induction false} DropItemIsClean(item: Json)
    ensures forall x :: x in DropItem(item) ==> CleanItem(x)
  {
    match item
    case Object(inner) => DropIsClean(inner);
    case _ =>
  }

  // ---------------------------------------------------------------- what is left alone

  // The number of values a cleaner could look at.
  ghost function Size(members: seq<Member>): nat {
    if members == [] then 0 else SizeOf(members[0].value) + Size(members[1..])
  }

  ghost function SizeOf(v: Json): (n: nat)
    ensures n > 0
  {
    match v
    case Null => 1
    case Scalar(_) => 1
    case Object(inner) => 1 + Size(inner)
    case List(items) => 1 + SizeItems(items)
  }

  ghost function SizeItems(items: seq<Json>): nat {
    if items == [] then 0 else SizeOf(items[0]) + SizeItems(items[1..])
  }

  // Cleaning never grows an object, and shrinks it unless it is clean already.
  lemma {:induction false} DropShrinks(members: seq<Member>)
    ensures Size(Drop(members)) <= Size(members)
    ensures Drop(members) == members || Size(Drop(members)) < Size(members)
    ensures Drop(members) == members <==> forall m :: m in members ==> CleanValue(m.value)
  {
    if members != [] {
      var first, rest := DropMember(members[0]), Drop(members[1..]);
      DropMemberShrinks(members[0]);
      DropShrinks(members[1..]);
      SizeConcat(first, rest);
      SizeOne(members[0]);
      assert members == [members[0]] + members[1..];
      if Drop(members) == members {
        assert Size(first) + Size(rest) == Size(members);
        assert rest == (first + rest)[1..];
      }
      if forall m :: m in members ==> CleanValue(m.value) {
        assert members[0] in members && forall m :: m in members[1..] ==> m in members;
      }
    }
  }

  lemma {:induction false} SizeOne(m: Member)
    ensures Size([m]) == SizeOf(m.value)
  {
  }

  lemma {:induction false} SizeConcat(a: seq<Member>, b: seq<Member>)
    ensures Size(a + b) == Size(a) + Size(b)
  {
    if a == [] {
      assert a + b == b;
    } else {
      assert (a + b)[1..] == a[1..] + b;
      SizeConcat(a[1..], b);
    }
  }

  lemma {:induction false} DropMemberShrinks(m: Member)
    ensures Size(DropMember(m)) <= SizeOf(m.value)
    ensures DropMember(m) == [m] || Size(DropMember(m)) < SizeOf(m.value)
    ensures DropMember(m) == [m] <==> CleanValue(m.value)
  {
    match m.value
    case Object(inner) =>
      DropShrinks(inner);
      SizeOne(Member(m.key, Object(Drop(inner))));
    case List(items) =>
      DropItemsShrink(items);
      SizeOne(Member(m.key, List(DropItems(items))));
    case _ => SizeOne(m);
  }

  lemma {:induction false} DropItemsShrink(items: seq<Json>)
    ensures SizeItems(DropItems(items)) <= SizeItems(items)
    ensures DropItems(items) == items || SizeItems(DropItems(items)) < SizeItems(items)
    ensures DropItems(items) == items <==> forall item :: item in items ==> CleanItem(item)
  {
    if items != [] {
      var first, rest := DropItem(items[0]), DropItems(items[1..]);
      DropItemShrinks(items[0]);
      DropItemsShrink(items[1..]);
      SizeItemsConcat(first, rest);
      SizeOneItem(items[0]);
      assert items == [items[0]] + items[1..];
      if DropItems(items) == items {
        assert SizeItems(first) + SizeItems(rest) == SizeItems(items);
        assert rest == (first + rest)[1..];
      }
      if forall item :: item in items ==> CleanItem(item) {
        assert items[0] in items && forall item :: item in items[1..] ==> item in items;
      }
    }
  }

  lemma {:induction false} SizeOneItem(item: Json)
    ensures SizeItems([item]) == SizeOf(item)
  {
  }

  lemma {:induction false} SizeItemsConcat(a: seq<Json>, b: seq<Json>)
    ensures SizeItems(a + b) == SizeItems(a) + SizeItems(b)
  {
    if a == [] {
      assert a + b == b;
    } else {
      assert (a + b)[1..] == a[1..] + b;
      SizeItemsConcat(a[1..], b);
    }
  }

  lemma {:induction false} DropItemShrinks(item: Json)
    ensures SizeItems(DropItem(item)) <= SizeOf(item)
    ensures DropItem(item) == [item] || SizeItems(DropItem(item)) < SizeOf(item)
    ensures DropItem(item) == [item] <==> CleanItem(item)
  {
    match item
    case Object(inner) =>
      DropShrinks(inner);
      SizeOneItem(Object(Drop(inner)));
    case _ => SizeOneItem(item);
  }

  // ---------------------------------------------------------------- every other leaf stays in place

  // One step down: into a member of an object, or into an element of a list.
  datatype Hop = Into(key: string) | Element

  // A leaf with the way to it.  A list inside a list is a leaf of its own.
  datatype Leaf = Leaf(path: seq<Hop>, value: Json)

  ghost function Leaves(path: seq<Hop>, members: seq<Member>): seq<Leaf>
    decreases members
  {
    if members == [] then []
    else ValueLeaves(path + [Into(members[0].key)], members[0].value) + Leaves(path, members[1..])
  }

  ghost function ValueLeaves(path: seq<Hop>, v: Json): seq<Leaf>
    decreases v
  {
    match v
    case Null => []
    case Scalar(_) => [Leaf(path, v)]
    case Object(inner) => Leaves(path, inner)
    case List(items) => ItemLeaves(path + [Element], items)
  }

  ghost function ItemLeaves(path: seq<Hop>, items: seq<Json>): seq<Leaf>
    decreases items
  {
    if items == [] then []
    else
      (match items[0]
       case Null => []
       case Scalar(_) => [Leaf(path, items[0])]
       case List(_) => [Leaf(path, items[0])]
       case Object(inner) => Leaves(path, inner))
      + ItemLeaves(path, items[1..])
  }

  lemma {:induction false} LeavesConcat(path: seq<Hop>, a: seq<Member>, b: seq<Member>)
    ensures Leaves(path, a + b) == Leaves(path, a) + Leaves(path, b)
  {
    if a == [] {
      assert a + b == b;
    } else {
      assert (a + b)[1..] == a[1..] + b;
      LeavesConcat(path, a[1..], b);
    }
  }

  lemma {:induction false} ItemLeavesConcat(path: seq<Hop>, a: seq<Json>, b: seq<Json>)
    ensures ItemLeaves(path, a + b) == ItemLeaves(path, a) + ItemLeaves(path, b)
  {
    if a == [] {
      assert a + b == b;
    } else {
      assert (a + b)[1..] == a[1..] + b;
      ItemLeavesConcat(path, a[1..], b);
    }
  }

  lemma {:induction false} LeavesOfOne(path: seq<Hop>, m: Member)
    ensures Leaves(path, [m]) == ValueLeaves(path + [Into(m.key)], m.value)
  {
  }

  lemma {:induction false} DropKeepsLeaves(path: seq<Hop>, members: seq<Member>)
    ensures Leaves(path, Drop(members)) == Leaves(path, members)
    decreases members
  {
    if members != [] {
      DropMemberKeepsLeaves(path, members[0]);
      DropKeepsLeaves(path, members[1..]);
      LeavesConcat(path, DropMember(members[0]), Drop(members[1..]));
    }
  }

  lemma {:induction false} DropMemberKeepsLeaves(path: seq<Hop>, m: Member)
    ensures Leaves(path, DropMember(m)) == ValueLeaves(path + [Into(m.key)], m.value)
    decreases m
  {
    var here := path + [Into(m.key)];
    match m.value
    case Null =>
    case Scalar(_) => LeavesOfOne(path, m);
    case Object(inner) =>
      DropKeepsLeaves(here, inner);
      LeavesOfOne(path, Member(m.key, Object(Drop(inner))));
    case List(items) =>
      DropItemsKeepLeaves(here + [Element], items);
      LeavesOfOne(path, Member(m.key, List(DropItems(items))));
  }

  lemma {:induction false} DropItemsKeepLeaves(path: seq<Hop>, items: seq<Json>)
    ensures ItemLeaves(path, DropItems(items)) == ItemLeaves(path, items)
    decreases items
  {
    if items != [] {
      var first := DropItem(items[0]);
      DropItemsKeepLeaves(path, items[1..]);
      ItemLeavesConcat(path, first, DropItems(items[1..]));
      if first != [] { assert first[1..] == [] && ItemLeaves(path, first[1..]) == []; }
      if items[0].Object? { DropKeepsLeaves(path, items[0].members); }
    }
  }

  // ---------------------------------------------------------------- what strict providers rely on

  // Cleaning leaves nothing to remove, changes nothing the second time, leaves
  // alone exactly the objects that are clean already, and keeps every other
  // leaf under the same keys and in the same order.
  lemma {:induction false} DropNullsIsCleanIdempotentAndKeepsLeaves(members: seq<Member>)
    ensures Clean(Drop(members))
    ensures Drop(Drop(members)) == Drop(members)
    ensures Drop(members) == members <==> Clean(members)
    ensures Leaves([], Drop(members)) == Leaves([], members)
  {
    DropIsClean(members);
    DropShrinks(Drop(members));
    DropShrinks(members);
    DropKeepsLeaves([], members);
  }
}
