/** The value-level meaning of `mergeCartItems`: an insertion-ordered map from
    product id to line (a JS `Map`), filled first with copies of the existing
    lines and then with the new lines, and read back in key order. */
module MergeSpec {
  import opened CartTypes

  /** An insertion-ordered association: the keys in insertion order and the
      line stored under each. */
  datatype Entries = Entries(keys: seq<ProductId>, vals: map<ProductId, LineItem>)

  const Empty: Entries := Entries([], map[])

  /** Keys distinct and exactly the domain, each line stored under its own id. */
  ghost predicate Valid(m: Entries) {
    && (forall i, j :: 0 <= i < j < |m.keys| ==> m.keys[i] != m.keys[j])
    && (forall k :: k in m.vals <==> k in m.keys)
    && (forall k :: k in m.vals ==> m.vals[k].productId == k)
  }

  /** `Map.prototype.set`: a new key goes last; a present key keeps its place
      and takes the new value. */
  function Set(m: Entries, k: ProductId, v: LineItem): Entries {
    Entries(if k in m.vals then m.keys else m.keys + [k], m.vals[k := v])
  }

  /** `Array.from(map.values())`: the stored lines in key order. */
  function Values(m: Entries): (lines: seq<LineItem>)
    requires forall k :: k in m.keys ==> k in m.vals
  {
    seq(|m.keys|, i requires 0 <= i < |m.keys| => m.vals[m.keys[i]])
  }

  /** The line for a key present in the map after a new line with that key. */
  function Accumulate(existing: LineItem, item: LineItem): LineItem {
    existing.(quantity := existing.quantity + item.quantity, totalPrice := existing.totalPrice + item.totalPrice)
  }

  /** The map after the existing lines are stored, each under its product id. */
  function FromExisting(existing: seq<LineItem>): Entries
    decreases |existing|
  {
    if existing == [] then Empty
    else
      var item := existing[|existing| - 1];
      Set(FromExisting(existing[..|existing| - 1]), item.productId, item)
  }

  /** The map after the new lines are folded in: a present key accumulates the
      new line's quantity and totalPrice, an absent key stores the new line. */
  function AddNew(m: Entries, newItems: seq<LineItem>): Entries
    decreases |newItems|
  {
    if newItems == [] then m
    else
      var prev := AddNew(m, newItems[..|newItems| - 1]);
      var item := newItems[|newItems| - 1];
      if item.productId in prev.vals then Set(prev, item.productId, Accumulate(prev.vals[item.productId], item))
      else Set(prev, item.productId, item)
  }

  /** The lines `mergeCartItems` returns, as values. */
  function Merge(existing: seq<LineItem>, newItems: seq<LineItem>): seq<LineItem> {
    FromExistingValid(existing);
    AddNewValid(FromExisting(existing), newItems);
    Values(AddNew(FromExisting(existing), newItems))
  }

  lemma SetValid(m: Entries, k: ProductId, v: LineItem)
    requires Valid(m) && v.productId == k
    ensures Valid(Set(m, k, v))
  {
  }

  /** Storing the existing lines yields a well-formed map. */
  lemma {:induction false} FromExistingValid(existing: seq<LineItem>)
    ensures Valid(FromExisting(existing))
    decreases |existing|
  {
    if existing != [] {
      var item := existing[|existing| - 1];
      FromExistingValid(existing[..|existing| - 1]);
      SetValid(FromExisting(existing[..|existing| - 1]), item.productId, item);
    }
  }

  /** Folding new lines into a well-formed map keeps it well-formed. */
  lemma {:induction false} AddNewValid(m: Entries, newItems: seq<LineItem>)
    requires Valid(m)
    ensures Valid(AddNew(m, newItems))
    decreases |newItems|
  {
    if newItems != [] {
      var prev := AddNew(m, newItems[..|newItems| - 1]);
      var item := newItems[|newItems| - 1];
      AddNewValid(m, newItems[..|newItems| - 1]);
      if item.productId in prev.vals {
        SetValid(prev, item.productId, Accumulate(prev.vals[item.productId], item));
      } else {
        SetValid(prev, item.productId, item);
      }
    }
  }

  // ---------------------------------------------------------------------------
  // Reference definitions the merge is characterised by

  /** Position of the first occurrence of `k` in `s`. */
  function FirstIndex(s: seq<ProductId>, k: ProductId): (i: nat)
    requires k in s
    ensures i < |s| && s[i] == k && k !in s[..i]
  {
    if s[0] == k then 0 else 1 + FirstIndex(s[1..], k)
  }

  /** `keys` lists every key of `s` once, in the order of first appearance in `s`. */
  ghost predicate FirstSeenOrder(keys: seq<ProductId>, s: seq<ProductId>) {
    && (forall i, j :: 0 <= i < j < |keys| ==> keys[i] != keys[j])
    && (forall k :: k in keys <==> k in s)
    && (forall i, j :: 0 <= i < j < |keys| ==> FirstIndex(s, keys[i]) < FirstIndex(s, keys[j]))
  }

  /** The line a product id resolves to in a list: its last occurrence, or a
      zero line when the id does not occur. */
  function LineOf(items: seq<LineItem>, k: ProductId): (line: LineItem)
    ensures line.productId == k
    decreases |items|
  {
    if items == [] then LineItem(k, 0, 0)
    else if items[|items| - 1].productId == k then items[|items| - 1]
    else LineOf(items[..|items| - 1], k)
  }

  /** The lines of a list that carry product id `k`, in list order. */
  function Matching(items: seq<LineItem>, k: ProductId): seq<LineItem>
    decreases |items|
  {
    if items == [] then []
    else if items[|items| - 1].productId == k then Matching(items[..|items| - 1], k) + [items[|items| - 1]]
    else Matching(items[..|items| - 1], k)
  }

  // ---------------------------------------------------------------------------
  // Order of keys

  lemma {:induction false} FirstIndexAppend(s: seq<ProductId>, x: ProductId, k: ProductId)
    requires k in s
    ensures FirstIndex(s + [x], k) == FirstIndex(s, k)
  {
    if s[0] != k {
      assert (s + [x])[1..] == s[1..] + [x];
      FirstIndexAppend(s[1..], x, k);
    }
  }

  lemma FirstIndexNew(s: seq<ProductId>, k: ProductId)
    requires k !in s
    ensures FirstIndex(s + [k], k) == |s|
  {
    assert (s + [k])[..|s|] == s;
  }

  /** An id first seen at position `i` has `i` as its first index. */
  lemma {:induction false} FirstIndexAt(s: seq<ProductId>, i: nat)
    requires i < |s| && s[i] !in s[..i]
    ensures FirstIndex(s, s[i]) == i
  {
    if i > 0 {
      assert s[0] in s[..i];
      assert s[1..][..i - 1] == s[..i][1..];
      FirstIndexAt(s[1..], i - 1);
    }
  }

  /** A key not yet listed goes last, after every key already listed. */
  lemma FirstSeenOrderNew(keys: seq<ProductId>, s: seq<ProductId>, k: ProductId)
    requires FirstSeenOrder(keys, s) && k !in keys
    requires forall x :: x in keys ==> FirstIndex(s + [k], x) == FirstIndex(s, x)
    ensures FirstSeenOrder(keys + [k], s + [k])
  {
    var keys' := keys + [k];
    var s' := s + [k];
    FirstIndexNew(s, k);
    forall i, j | 0 <= i < j < |keys'|
      ensures FirstIndex(s', keys'[i]) < FirstIndex(s', keys'[j])
    {
      assert keys'[i] in keys;
      if j < |keys| {
        assert keys'[j] in keys;
      }
    }
  }

  lemma FirstSeenOrderStep(keys: seq<ProductId>, s: seq<ProductId>, k: ProductId)
    requires FirstSeenOrder(keys, s)
    ensures FirstSeenOrder(if k in keys then keys else keys + [k], s + [k])
  {
    forall x | x in keys
      ensures FirstIndex(s + [k], x) == FirstIndex(s, x)
    {
      FirstIndexAppend(s, k, x);
    }
    if k !in keys {
      FirstSeenOrderNew(keys, s, k);
    }
  }

  lemma {:induction false} FromExistingKeys(existing: seq<LineItem>)
    ensures FirstSeenOrder(FromExisting(existing).keys, KeysOf(existing))
  {
    if existing != [] {
      var init := existing[..|existing| - 1];
      var item := existing[|existing| - 1];
      assert KeysOf(existing) == KeysOf(init) + [item.productId];
      var prev := FromExisting(init);
      FromExistingValid(init);
      FromExistingKeys(init);
      FirstSeenOrderStep(prev.keys, KeysOf(init), item.productId);
    }
  }

  /** The ids stored after the first phase are exactly the existing lines' ids. */
  lemma FromExistingDomain(existing: seq<LineItem>)
    ensures forall k :: k in FromExisting(existing).vals <==> k in KeysOf(existing)
  {
    FromExistingValid(existing);
    FromExistingKeys(existing);
  }

  lemma {:induction false} AddNewKeys(m: Entries, newItems: seq<LineItem>, s: seq<ProductId>)
    requires Valid(m) && FirstSeenOrder(m.keys, s)
    ensures FirstSeenOrder(AddNew(m, newItems).keys, s + KeysOf(newItems))
    decreases |newItems|
  {
    if newItems == [] {
      assert s + KeysOf(newItems) == s;
    } else {
      var init := newItems[..|newItems| - 1];
      var item := newItems[|newItems| - 1];
      assert s + KeysOf(newItems) == (s + KeysOf(init)) + [item.productId];
      AddNewKeys(m, init, s);
      AddNewValid(m, init);
      FirstSeenOrderStep(AddNew(m, init).keys, s + KeysOf(init), item.productId);
    }
  }

  /** The merged lines carry each product id of the existing and the new
      lines exactly once, in the order each id is first seen scanning the
      existing lines and then the new lines. */
  lemma MergeOrder(existing: seq<LineItem>, newItems: seq<LineItem>)
    ensures FirstSeenOrder(KeysOf(Merge(existing, newItems)), KeysOf(existing) + KeysOf(newItems))
  {
    var m := AddNew(FromExisting(existing), newItems);
    FromExistingValid(existing);
    FromExistingKeys(existing);
    AddNewKeys(FromExisting(existing), newItems, KeysOf(existing));
    AddNewValid(FromExisting(existing), newItems);
    assert KeysOf(Merge(existing, newItems)) == m.keys;
  }

  // ---------------------------------------------------------------------------
  // Values of the lines

  lemma MatchingAppend(items: seq<LineItem>, x: LineItem, k: ProductId)
    ensures Matching(items + [x], k) == Matching(items, k) + (if x.productId == k then [x] else [])
  {
    assert (items + [x])[..|items|] == items;
  }

  lemma {:induction false} MatchingAbsent(items: seq<LineItem>, k: ProductId)
    requires k !in KeysOf(items)
    ensures Matching(items, k) == []
    decreases |items|
  {
    if items != [] {
      assert KeysOf(items) == KeysOf(items[..|items| - 1]) + [items[|items| - 1].productId];
      MatchingAbsent(items[..|items| - 1], k);
    }
  }

  lemma {:induction false} FromExistingLines(existing: seq<LineItem>)
    ensures forall k :: k in FromExisting(existing).vals ==> FromExisting(existing).vals[k] == LineOf(existing, k)
  {
    if existing != [] {
      FromExistingLines(existing[..|existing| - 1]);
    }
  }

  lemma {:induction false} AddNewDomain(m: Entries, newItems: seq<LineItem>)
    ensures forall k :: k in AddNew(m, newItems).vals <==> k in m.vals || k in KeysOf(newItems)
    decreases |newItems|
  {
    if newItems != [] {
      var init := newItems[..|newItems| - 1];
      var item := newItems[|newItems| - 1];
      assert KeysOf(newItems) == KeysOf(init) + [item.productId];
      AddNewDomain(m, init);
    }
  }

  /** The line under `k` with `m` as the starting map: its line there (a zero
      line when absent) plus the quantities and prices of the new lines with `k`. */
  ghost predicate AccumulatedLine(m: Entries, newItems: seq<LineItem>, k: ProductId, line: LineItem) {
    var base := if k in m.vals then m.vals[k] else LineItem(k, 0, 0);
    line == LineItem(k, base.quantity + SumQuantity(Matching(newItems, k)),
                     base.totalPrice + SumTotalPrice(Matching(newItems, k)))
  }

  lemma AddNewLineStep(m: Entries, newItems: seq<LineItem>, k: ProductId)
    requires newItems != []
    requires k in AddNew(m, newItems).vals
    requires var prev := AddNew(m, newItems[..|newItems| - 1]);
             k in prev.vals ==> AccumulatedLine(m, newItems[..|newItems| - 1], k, prev.vals[k])
    ensures AccumulatedLine(m, newItems, k, AddNew(m, newItems).vals[k])
  {
    var init := newItems[..|newItems| - 1];
    var item := newItems[|newItems| - 1];
    assert init + [item] == newItems;
    var prev := AddNew(m, init);
    var r := AddNew(m, newItems);
    assert r == if item.productId in prev.vals then Set(prev, item.productId, Accumulate(prev.vals[item.productId], item))
                else Set(prev, item.productId, item);
    MatchingAppend(init, item, k);
    var base := if k in m.vals then m.vals[k] else LineItem(k, 0, 0);
    if k != item.productId {
      assert Matching(newItems, k) == Matching(init, k);
      assert r.vals[k] == prev.vals[k];
    } else {
      SumQuantityAppend(Matching(init, k), [item]);
      SumTotalPriceAppend(Matching(init, k), [item]);
      if k !in prev.vals {
        AddNewDomain(m, init);
        MatchingAbsent(init, k);
        assert Matching(newItems, k) == [item];
        assert r.vals[k] == item;
        assert k !in m.vals;
        assert SumQuantity([item]) == item.quantity;
        assert SumTotalPrice([item]) == item.totalPrice;
      } else {
        assert r.vals[k] == Accumulate(prev.vals[k], item);
      }
    }
  }

  /** The line stored under a key: the starting map's line (a zero line when the
      key is absent) plus the quantities and prices of every new line with it. */
  lemma {:induction false} AddNewLines(m: Entries, newItems: seq<LineItem>)
    requires Valid(m)
    ensures forall k :: k in AddNew(m, newItems).vals ==> AccumulatedLine(m, newItems, k, AddNew(m, newItems).vals[k])
    decreases |newItems|
  {
    if newItems != [] {
      AddNewLines(m, newItems[..|newItems| - 1]);
      forall k | k in AddNew(m, newItems).vals
        ensures AccumulatedLine(m, newItems, k, AddNew(m, newItems).vals[k])
      {
        AddNewLineStep(m, newItems, k);
      }
    }
  }

  /** Every merged line is the line its product id resolves to among the
      existing lines (the last occurrence wins; a zero line when absent) with
      the quantities and prices of all new lines for that id added. */
  lemma MergeLines(existing: seq<LineItem>, newItems: seq<LineItem>)
    ensures forall l :: l in Merge(existing, newItems) ==>
      l == LineItem(l.productId,
                    LineOf(existing, l.productId).quantity + SumQuantity(Matching(newItems, l.productId)),
                    LineOf(existing, l.productId).totalPrice + SumTotalPrice(Matching(newItems, l.productId)))
  {
    var m0 := FromExisting(existing);
    FromExistingValid(existing);
    AddNewValid(m0, newItems);
    FromExistingLines(existing);
    FromExistingKeys(existing);
    AddNewLines(m0, newItems);
    forall k | k !in m0.vals
      ensures LineOf(existing, k) == LineItem(k, 0, 0)
    {
      LineOfAbsent(existing, k);
    }
  }

  lemma {:induction false} LineOfAbsent(items: seq<LineItem>, k: ProductId)
    requires k !in KeysOf(items)
    ensures LineOf(items, k) == LineItem(k, 0, 0)
    decreases |items|
  {
    if items != [] {
      assert KeysOf(items) == KeysOf(items[..|items| - 1]) + [items[|items| - 1].productId];
      LineOfAbsent(items[..|items| - 1], k);
    }
  }

  lemma {:induction false} LineOfDistinct(items: seq<LineItem>, i: nat)
    requires DistinctKeys(items) && i < |items|
    ensures LineOf(items, items[i].productId) == items[i]
    decreases |items|
  {
    if i < |items| - 1 {
      LineOfDistinct(items[..|items| - 1], i);
    }
  }

  /** A merge never lists a product id twice. */
  lemma MergeDistinct(existing: seq<LineItem>, newItems: seq<LineItem>)
    ensures DistinctKeys(Merge(existing, newItems))
  {
    var merged := Merge(existing, newItems);
    var keys := KeysOf(merged);
    MergeOrder(existing, newItems);
    forall a, b | 0 <= a < b < |merged| ensures merged[a].productId != merged[b].productId {
      assert keys[a] != keys[b];
    }
  }

  lemma MergeLookupPresent(existing: seq<LineItem>, newItems: seq<LineItem>, k: ProductId)
    requires k in KeysOf(Merge(existing, newItems))
    ensures LineOf(Merge(existing, newItems), k) ==
      LineItem(k, LineOf(existing, k).quantity + SumQuantity(Matching(newItems, k)),
                  LineOf(existing, k).totalPrice + SumTotalPrice(Matching(newItems, k)))
  {
    var merged := Merge(existing, newItems);
    var i := FirstIndex(KeysOf(merged), k);
    MergeDistinct(existing, newItems);
    LineOfDistinct(merged, i);
    MergeLines(existing, newItems);
    assert merged[i] in merged;
  }

  /** What a product id resolves to after a merge, for every id: the existing
      line's values plus the sum over every new line with that id. */
  lemma MergeLookup(existing: seq<LineItem>, newItems: seq<LineItem>, k: ProductId)
    ensures LineOf(Merge(existing, newItems), k) ==
      LineItem(k, LineOf(existing, k).quantity + SumQuantity(Matching(newItems, k)),
                  LineOf(existing, k).totalPrice + SumTotalPrice(Matching(newItems, k)))
  {
    var merged := Merge(existing, newItems);
    if k in KeysOf(merged) {
      MergeLookupPresent(existing, newItems, k);
    } else {
      MergeOrder(existing, newItems);
      assert k !in KeysOf(existing) + KeysOf(newItems);
      LineOfAbsent(merged, k);
      LineOfAbsent(existing, k);
      MatchingAbsent(newItems, k);
    }
  }

  /** Merging two batches into a cart gives every product the same line in
      either order. */
  lemma MergeCommutes(existing: seq<LineItem>, a: seq<LineItem>, b: seq<LineItem>, k: ProductId)
    ensures LineOf(Merge(Merge(existing, a), b), k) == LineOf(Merge(Merge(existing, b), a), k)
  {
    MergeLookup(existing, a, k);
    MergeLookup(existing, b, k);
    MergeLookup(Merge(existing, a), b, k);
    MergeLookup(Merge(existing, b), a, k);
  }

  // ---------------------------------------------------------------------------
  // Totals

  lemma {:induction false} SumTotalPriceUpdate(s: seq<LineItem>, i: nat, v: LineItem)
    requires i < |s|
    ensures SumTotalPrice(s[i := v]) == SumTotalPrice(s) - s[i].totalPrice + v.totalPrice
  {
    if i > 0 {
      assert s[i := v][1..] == s[1..][i - 1 := v];
      SumTotalPriceUpdate(s[1..], i - 1, v);
    }
  }

  lemma SetTotal(m: Entries, k: ProductId, v: LineItem)
    requires Valid(m)
    requires v.productId == k
    ensures forall x :: x in Set(m, k, v).keys ==> x in Set(m, k, v).vals
    ensures SumTotalPrice(Values(Set(m, k, v)))
         == SumTotalPrice(Values(m)) - (if k in m.vals then m.vals[k].totalPrice else 0) + v.totalPrice
  {
    var m' := Set(m, k, v);
    if k in m.vals {
      var i :| 0 <= i < |m.keys| && m.keys[i] == k;
      assert Values(m') == Values(m)[i := v];
      SumTotalPriceUpdate(Values(m), i, v);
    } else {
      assert Values(m') == Values(m) + [v];
      SumTotalPriceAppend(Values(m), [v]);
    }
  }

  lemma {:induction false} FromExistingTotal(existing: seq<LineItem>)
    requires DistinctKeys(existing)
    ensures Valid(FromExisting(existing))
    ensures SumTotalPrice(Values(FromExisting(existing))) == SumTotalPrice(existing)
  {
    FromExistingValid(existing);
    if existing != [] {
      var init := existing[..|existing| - 1];
      var item := existing[|existing| - 1];
      assert init + [item] == existing;
      FromExistingTotal(init);
      FromExistingValid(init);
      FromExistingKeys(init);
      assert item.productId !in KeysOf(init) by {
        forall j | 0 <= j < |init| ensures KeysOf(init)[j] != item.productId {
          assert init[j] == existing[j];
        }
      }
      SetTotal(FromExisting(init), item.productId, item);
      SumTotalPriceAppend(init, [item]);
    }
  }

  lemma {:induction false} AddNewTotal(m: Entries, newItems: seq<LineItem>)
    requires Valid(m)
    ensures Valid(AddNew(m, newItems))
    ensures SumTotalPrice(Values(AddNew(m, newItems))) == SumTotalPrice(Values(m)) + SumTotalPrice(newItems)
    decreases |newItems|
  {
    AddNewValid(m, newItems);
    if newItems != [] {
      var init := newItems[..|newItems| - 1];
      var item := newItems[|newItems| - 1];
      assert init + [item] == newItems;
      AddNewTotal(m, init);
      AddNewValid(m, init);
      var prev := AddNew(m, init);
      if item.productId in prev.vals {
        SetTotal(prev, item.productId, Accumulate(prev.vals[item.productId], item));
      } else {
        SetTotal(prev, item.productId, item);
      }
      SumTotalPriceAppend(init, [item]);
    }
  }

  /** When the existing lines have distinct product ids (as a stored cart's
      do), the merged lines' prices sum to the existing total plus the new
      total. */
  lemma MergeTotal(existing: seq<LineItem>, newItems: seq<LineItem>)
    requires DistinctKeys(existing)
    ensures SumTotalPrice(Merge(existing, newItems)) == SumTotalPrice(existing) + SumTotalPrice(newItems)
  {
    FromExistingTotal(existing);
    FromExistingValid(existing);
    AddNewTotal(FromExisting(existing), newItems);
  }
}
