/** The pure projections of the item catalog that both view-model revisions
    use (iSpace/Models/ViewModels.swift, iSpace/ViewModels.swift,
    iSpace/FilteredItemsListView.swift): the type partition, the name search,
    removal by id or by index, the older grouping sort and the first-index
    lookup. */
module Catalog {
  import opened Wrappers
  import opened Models
  import opened Text

  /** `items.filter { $0.type == t }`. */
  function OfType(items: seq<StoredItem>, t: ItemType): (r: seq<StoredItem>)
    ensures forall x :: x in r <==> x in items && x.itemType == t
    ensures |r| <= |items|
  {
    if items == [] then []
    else (if items[0].itemType == t then [items[0]] else []) + OfType(items[1..], t)
  }

  /** The type filter keeps relative order: filtering a concatenation is the
      concatenation of the filtered parts. */
  lemma {:induction false} OfTypeAppend(a: seq<StoredItem>, b: seq<StoredItem>, t: ItemType)
    ensures OfType(a + b, t) == OfType(a, t) + OfType(b, t)
  {
    if a == [] {
      assert a + b == b;
    } else {
      assert (a + b)[1..] == a[1..] + b;
      OfTypeAppend(a[1..], b, t);
    }
  }

  /** Cards and passwords partition the catalog: every item lands in exactly
      one of the two lists, as often as it occurs. */
  lemma {:induction false} TypePartition(items: seq<StoredItem>)
    ensures multiset(OfType(items, Card)) + multiset(OfType(items, Password)) == multiset(items)
    ensures |OfType(items, Card)| + |OfType(items, Password)| == |items|
  {
    if items != [] {
      TypePartition(items[1..]);
      assert items == [items[0]] + items[1..];
    }
  }

  /** The names that contain the query, ignoring case. */
  function MatchingName(items: seq<StoredItem>, query: string): (r: seq<StoredItem>)
    ensures forall x :: x in r <==> x in items && ContainsIgnoringCase(x.name, query)
  {
    if items == [] then []
    else (if ContainsIgnoringCase(items[0].name, query) then [items[0]] else []) + MatchingName(items[1..], query)
  }

  /** `filteredCardItems` / `filteredPasswordItems`: the type's items, and
      when the search text is not empty only those whose name contains it. */
  function Filtered(items: seq<StoredItem>, t: ItemType, searchText: string): (r: seq<StoredItem>)
    ensures forall x :: x in r <==> x in items && x.itemType == t && (searchText == [] || ContainsIgnoringCase(x.name, searchText))
    ensures searchText == [] ==> r == OfType(items, t)
  {
    var all := OfType(items, t);
    if searchText == [] then all else MatchingName(all, searchText)
  }

  lemma {:induction false} MatchingNameAppend(a: seq<StoredItem>, b: seq<StoredItem>, query: string)
    ensures MatchingName(a + b, query) == MatchingName(a, query) + MatchingName(b, query)
  {
    if a == [] {
      assert a + b == b;
    } else {
      assert (a + b)[1..] == a[1..] + b;
      MatchingNameAppend(a[1..], b, query);
    }
  }

  /** The search keeps catalog order too. */
  lemma FilteredAppend(a: seq<StoredItem>, b: seq<StoredItem>, t: ItemType, searchText: string)
    ensures Filtered(a + b, t, searchText) == Filtered(a, t, searchText) + Filtered(b, t, searchText)
  {
    OfTypeAppend(a, b, t);
    MatchingNameAppend(OfType(a, t), OfType(b, t), searchText);
  }

  /** Searching "goog" finds "Google Account" and not "Amazon". */
  lemma SearchExample(google: string, amazon: string)
    requires google == "Google Account" && amazon == "Amazon"
    ensures ContainsIgnoringCase(google, "goog")
    ensures !ContainsIgnoringCase(amazon, "goog")
  {
    var query := Lower("goog");
    assert query == "goog";
    assert OccursAt(Lower(google), query, 0);
    var name := Lower(amazon);
    assert name == "amazon";
    forall i: nat
      ensures !OccursAt(name, query, i)
    {
      if i + 4 <= 6 {
        assert name[i..i + 4][0] == name[i] != 'g';
      }
    }
  }

  /** `items.firstIndex(where: { $0.id == id })`. */
  function FirstIndex(items: seq<StoredItem>, id: Uuid): (r: Option<nat>)
    ensures r.Some? ==> r.value < |items| && items[r.value].id == id
    ensures r.Some? ==> forall j :: 0 <= j < r.value ==> items[j].id != id
    ensures r.None? ==> forall j :: 0 <= j < |items| ==> items[j].id != id
  {
    if items == [] then None
    else if items[0].id == id then Some(0)
    else
      match FirstIndex(items[1..], id)
      case None => None
      case Some(i) => Some(i + 1)
  }

  /** `items.removeAll { $0.id == id }`. */
  function WithoutId(items: seq<StoredItem>, id: Uuid): (r: seq<StoredItem>)
    ensures |r| <= |items|
  {
    if items == [] then []
    else (if items[0].id == id then [] else [items[0]]) + WithoutId(items[1..], id)
  }

  /** Removal by id keeps exactly the items with another id. */
  lemma {:induction false} WithoutIdMembers(items: seq<StoredItem>, id: Uuid)
    ensures forall x :: x in WithoutId(items, id) <==> x in items && x.id != id
  {
    if items != [] {
      WithoutIdMembers(items[1..], id);
      assert items == [items[0]] + items[1..];
    }
  }

  /** Removing by id keeps the other items in their order, and removes
      something exactly when the id is present. */
  lemma {:induction false} WithoutIdShape(items: seq<StoredItem>, id: Uuid)
    ensures FirstIndex(items, id).None? <==> WithoutId(items, id) == items
    ensures FirstIndex(items, id).Some? ==> |WithoutId(items, id)| < |items|
  {
    if items != [] {
      var rest := WithoutId(items[1..], id);
      WithoutIdShape(items[1..], id);
      if items[0].id == id {
        assert FirstIndex(items, id) == Some(0);
        assert WithoutId(items, id) == rest;
      } else {
        assert FirstIndex(items, id).None? <==> FirstIndex(items[1..], id).None?;
        assert WithoutId(items, id) == [items[0]] + rest;
        assert items == [items[0]] + items[1..];
        assert [items[0]] + rest == items <==> rest == items[1..];
      }
    }
  }

  lemma {:induction false} WithoutIdAppend(a: seq<StoredItem>, b: seq<StoredItem>, id: Uuid)
    ensures WithoutId(a + b, id) == WithoutId(a, id) + WithoutId(b, id)
  {
    if a == [] {
      assert a + b == b;
    } else {
      var head := if a[0].id == id then [] else [a[0]];
      calc {
        WithoutId(a + b, id);
        { assert (a + b)[0] == a[0] && (a + b)[1..] == a[1..] + b; }
        head + WithoutId(a[1..] + b, id);
        { WithoutIdAppend(a[1..], b, id); }
        head + (WithoutId(a[1..], id) + WithoutId(b, id));
        (head + WithoutId(a[1..], id)) + WithoutId(b, id);
      }
    }
  }

  /** The older `addItem` sort, `sort { $0.type.rawValue > $1.type.rawValue }`:
      "password" sorts above "card", so passwords come first. Within a type the
      order of arrival is kept. */
  function GroupByType(items: seq<StoredItem>): seq<StoredItem>
  {
    OfType(items, Password) + OfType(items, Card)
  }

  /** The grouping is a permutation of the catalog that is sorted for the
      comparator: no item belongs before an item ahead of it, so every password
      comes before every card. */
  lemma GroupByTypeSorted(items: seq<StoredItem>)
    ensures multiset(GroupByType(items)) == multiset(items)
    ensures forall i, j :: 0 <= i < j < |GroupByType(items)| ==>
              !SortsBefore(GroupByType(items)[j].itemType, GroupByType(items)[i].itemType)
  {
    TypePartition(items);
    var r := GroupByType(items);
    var p := OfType(items, Password);
    forall i, j | 0 <= i < j < |r|
      ensures !SortsBefore(r[j].itemType, r[i].itemType)
    {
      if i < |p| {
        assert r[i] in p;
      } else {
        assert r[i] in OfType(items, Card) && r[j] in OfType(items, Card);
      }
    }
  }

  /** `remove(atOffsets:)`: the items whose index is not among the offsets,
      in order. */
  function RemoveAtOffsets(items: seq<StoredItem>, offsets: set<nat>): seq<StoredItem>
  {
    if items == [] then []
    else
      var n := |items| - 1;
      RemoveAtOffsets(items[..n], offsets) + (if n in offsets then [] else [items[n]])
  }

  /** Removing at no offsets keeps the catalog. */
  lemma {:induction false} RemoveAtNoOffsets(items: seq<StoredItem>)
    ensures RemoveAtOffsets(items, {}) == items
  {
    if items != [] {
      var n := |items| - 1;
      RemoveAtNoOffsets(items[..n]);
      assert items[..n] + [items[n]] == items;
    }
  }

  /** The items at the offsets, in order. */
  function AtOffsets(items: seq<StoredItem>, offsets: set<nat>): seq<StoredItem>
  {
    if items == [] then []
    else
      var n := |items| - 1;
      AtOffsets(items[..n], offsets) + (if n in offsets then [items[n]] else [])
  }

  /** The offsets below `n`. */
  function Below(offsets: set<nat>, n: nat): set<nat>
  {
    set o | o in offsets && o < n
  }

  /** When every offset is in range, removing at the offsets removes exactly
      as many items as there are offsets, and what is removed together with
      what is kept is the catalog. */
  lemma RemoveAtValidOffsets(items: seq<StoredItem>, offsets: set<nat>)
    requires forall o :: o in offsets ==> o < |items|
    ensures |RemoveAtOffsets(items, offsets)| == |items| - |offsets|
    ensures multiset(RemoveAtOffsets(items, offsets)) + multiset(AtOffsets(items, offsets)) == multiset(items)
  {
    RemoveAtOffsetsSplits(items, offsets);
    RemoveAtOffsetsLength(items, offsets);
    assert Below(offsets, |items|) == offsets;
  }

  /** Removing at offsets removes exactly the items at those offsets: what
      remains and what was removed together make up the catalog. */
  lemma {:induction false} RemoveAtOffsetsSplits(items: seq<StoredItem>, offsets: set<nat>)
    ensures multiset(RemoveAtOffsets(items, offsets)) + multiset(AtOffsets(items, offsets)) == multiset(items)
  {
    if items != [] {
      var n := |items| - 1;
      RemoveAtOffsetsSplits(items[..n], offsets);
      assert items == items[..n] + [items[n]];
    }
  }

  /** The number of items removed is the number of valid offsets. */
  lemma {:induction false} RemoveAtOffsetsLength(items: seq<StoredItem>, offsets: set<nat>)
    ensures |AtOffsets(items, offsets)| == |Below(offsets, |items|)|
    ensures |RemoveAtOffsets(items, offsets)| == |items| - |Below(offsets, |items|)|
  {
    if items != [] {
      var n := |items| - 1;
      RemoveAtOffsetsLength(items[..n], offsets);
      if n in offsets {
        assert Below(offsets, n + 1) == Below(offsets, n) + {n};
      } else {
        assert Below(offsets, n + 1) == Below(offsets, n);
      }
    }
  }

  /** An item survives removal at offsets exactly when some index not among
      the offsets holds it. */
  lemma {:induction false} RemoveAtOffsetsKeeps(items: seq<StoredItem>, offsets: set<nat>, x: StoredItem)
    ensures x in RemoveAtOffsets(items, offsets) <==> exists i :: 0 <= i < |items| && i !in offsets && items[i] == x
  {
    if items != [] {
      var n := |items| - 1;
      RemoveAtOffsetsKeeps(items[..n], offsets, x);
      if x in RemoveAtOffsets(items, offsets) && x !in RemoveAtOffsets(items[..n], offsets) {
        assert n !in offsets && items[n] == x;
      }
      if exists i :: 0 <= i < |items| && i !in offsets && items[i] == x {
        var i :| 0 <= i < |items| && i !in offsets && items[i] == x;
        if i < n {
          assert items[..n][i] == x;
        }
      }
    }
  }
}
