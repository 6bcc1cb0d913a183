/** The cart helper: `cartCreation` (process a request's items against the
    catalog), `calculateTotalAmount` (sum of line prices) and `mergeCartItems`
    (fold new lines into existing ones by product id). */
module CartHelper {
  import opened CartTypes
  import opened ItemProcessing
  import opened MergeSpec

  /** `items.reduce((total, item) => total + item.totalPrice, acc)`: a left fold. */
  function Reduce(items: seq<LineItem>, acc: int): (total: int)
    ensures total == acc + SumTotalPrice(items)
    decreases |items|
  {
    if items == [] then acc else Reduce(items[1..], acc + items[0].totalPrice)
  }

  /** `calculateTotalAmount`: zero for no lines, otherwise the sum of every
      line's totalPrice. */
  function CalculateTotalAmount(items: seq<LineItem>): (total: int)
    ensures items == [] ==> total == 0
    ensures total == SumTotalPrice(items)
  {
    Reduce(items, 0)
  }

  /** The helper's `cartCreation`: one lookup per requested item, in order,
      throwing "Product not found" at the first product that does not resolve;
      the batch total is computed afterwards with `CalculateTotalAmount`. */
  method CartCreation(catalog: Catalog, cartItems: seq<ItemRequest>) returns (r: Result<Processed>)
    ensures r == ProcessCart(catalog, cartItems)
    ensures r.Success? ==> r.value.totalAmount == CalculateTotalAmount(r.value.processedItems)
  {
    var processedItems: seq<LineItem> := [];
    for i := 0 to |cartItems|
      invariant ProcessCart(catalog, cartItems[..i]) == Success(Processed(processedItems, SumTotalPrice(processedItems)))
    {
      var item := cartItems[i];
      if item.productId !in catalog {
        assert SomeUnresolved(catalog, cartItems);
        return Failure(ProductNotFound);
      }
      var product := catalog[item.productId];
      var totalPrice := product.price * item.quantity;
      ProcessCartExtend(catalog, cartItems[..i], item);
      assert cartItems[..i + 1] == cartItems[..i] + [item];
      processedItems := processedItems + [LineItem(product.id, item.quantity, totalPrice)];
    }
    assert cartItems[..|cartItems|] == cartItems;
    var totalAmount := CalculateTotalAmount(processedItems);
    return Success(Processed(processedItems, totalAmount));
  }

  /** A line object of `mergeCartItems`; its fields are updated in place. */
  class LineRecord {
    var productId: ProductId
    var quantity: int
    var totalPrice: int

    constructor (productId: ProductId, quantity: int, totalPrice: int)
      ensures this.productId == productId && this.quantity == quantity && this.totalPrice == totalPrice
    {
      this.productId := productId;
      this.quantity := quantity;
      this.totalPrice := totalPrice;
    }

    /** The line this object currently holds. */
    function Value(): LineItem
      reads this
    {
      LineItem(productId, quantity, totalPrice)
    }
  }

  /** The lines a list of objects currently holds, in list order. */
  function ValuesOf(records: seq<LineRecord>): seq<LineItem>
    reads records
  {
    seq(|records|, i reads records requires 0 <= i < |records| => records[i].Value())
  }

  lemma AddNewPresent(m: Entries, items: seq<LineItem>, i: nat)
    requires i < |items| && items[i].productId in AddNew(m, items[..i]).vals
    ensures var prev := AddNew(m, items[..i]);
            AddNew(m, items[..i + 1]) == Set(prev, items[i].productId, Accumulate(prev.vals[items[i].productId], items[i]))
  {
    assert items[..i + 1][..i] == items[..i];
  }

  lemma AddNewAbsent(m: Entries, items: seq<LineItem>, i: nat)
    requires i < |items| && items[i].productId !in AddNew(m, items[..i]).vals
    ensures AddNew(m, items[..i + 1]) == Set(AddNew(m, items[..i]), items[i].productId, items[i])
  {
    assert items[..i + 1][..i] == items[..i];
  }

  /** The objects stored in a JS `Map` mirror the entries `m`: same keys in
      the same order, each object holding the line stored under its key and
      carrying that key as its productId. */
  ghost predicate Mirrors(keys: seq<ProductId>, slots: map<ProductId, LineRecord>, m: Entries)
    reads slots.Values
  {
    && keys == m.keys
    && slots.Keys == m.vals.Keys
    && (forall k :: k in slots ==> slots[k].Value() == m.vals[k] && slots[k].productId == k)
  }

  /** `existing.quantity += item.quantity; existing.totalPrice += item.totalPrice`
      on the object stored under the new line's id. */
  method AddInto(keys: seq<ProductId>, slots: map<ProductId, LineRecord>, item: LineRecord, ghost m: Entries)
    requires Mirrors(keys, slots, m) && item.productId in slots && slots[item.productId] != item
    modifies slots[item.productId]
    ensures Mirrors(keys, slots, Set(m, item.productId, Accumulate(m.vals[item.productId], item.Value())))
  {
    var existing := slots[item.productId];
    existing.quantity := existing.quantity + item.quantity;
    existing.totalPrice := existing.totalPrice + item.totalPrice;
    forall k | k in slots
      ensures slots[k].Value() == Set(m, item.productId, Accumulate(m.vals[item.productId], item.Value())).vals[k]
      ensures slots[k].productId == k
    {
      if k != item.productId {
        assert old(slots[k].productId) == k;
      }
    }
  }

  /** `map.set(id, item)` for an id not yet stored. */
  lemma MirrorsStore(keys: seq<ProductId>, slots: map<ProductId, LineRecord>, item: LineRecord, m: Entries)
    requires Mirrors(keys, slots, m) && item.productId !in slots
    ensures Mirrors(keys + [item.productId], slots[item.productId := item], Set(m, item.productId, item.Value()))
  {
  }

  /** The state of the first phase after the first `i` existing lines, whose
      values are `e0`. */
  ghost predicate Copying(e0: seq<LineItem>, i: nat, keys: seq<ProductId>, slots: map<ProductId, LineRecord>, m: Entries)
    reads slots.Values
  {
    i <= |e0| && Valid(m) && m == FromExisting(e0[..i]) && Mirrors(keys, slots, m)
  }

  /** One step of the first phase: a copy of the next existing line is stored
      under its id. */
  lemma CopyStep(e0: seq<LineItem>, i: nat, keys: seq<ProductId>, slots: map<ProductId, LineRecord>, m: Entries, copy: LineRecord)
    requires Copying(e0, i, keys, slots, m) && i < |e0| && copy.Value() == e0[i]
    ensures var id := copy.productId;
            Copying(e0, i + 1, if id in slots then keys else keys + [id], slots[id := copy], Set(m, id, copy.Value()))
  {
    assert e0[..i + 1][..i] == e0[..i];
    SetValid(m, e0[i].productId, e0[i]);
  }

  /** `map.set(item.productId, {...item})`: a fresh copy of an existing line
      stored under its id. */
  method CopyOne(ghost e0: seq<LineItem>, i: nat, keys: seq<ProductId>, slots: map<ProductId, LineRecord>, ghost m: Entries, item: LineRecord)
    returns (keys': seq<ProductId>, slots': map<ProductId, LineRecord>, ghost m': Entries)
    requires Copying(e0, i, keys, slots, m) && i < |e0| && item.Value() == e0[i]
    ensures Copying(e0, i + 1, keys', slots', m')
    ensures item.productId in slots' && fresh(slots'[item.productId])
    ensures slots' == slots[item.productId := slots'[item.productId]]
  {
    var copy := new LineRecord(item.productId, item.quantity, item.totalPrice);
    CopyStep(e0, i, keys, slots, m, copy);
    keys' := if copy.productId in slots then keys else keys + [copy.productId];
    slots' := slots[copy.productId := copy];
    m' := Set(m, copy.productId, copy.Value());
  }

  /** The first phase of `mergeCartItems`: a fresh copy of every existing line
      is stored under its product id (`map.set` in list order). */
  method CopyExisting(existingItems: seq<LineRecord>) returns (keys: seq<ProductId>, slots: map<ProductId, LineRecord>, ghost m: Entries)
    ensures m == FromExisting(old(ValuesOf(existingItems))) && Valid(m)
    ensures Mirrors(keys, slots, m)
    ensures forall k :: k in slots ==> fresh(slots[k])
  {
    ghost var e0 := ValuesOf(existingItems);
    keys, slots, m := [], map[], Empty;
    for i := 0 to |existingItems|
      invariant Copying(e0, i, keys, slots, m)
      invariant forall k :: k in slots ==> fresh(slots[k])
    {
      assert existingItems[i].Value() == e0[i];
      keys, slots, m := CopyOne(e0, i, keys, slots, m, existingItems[i]);
    }
    assert e0[..|existingItems|] == e0;
  }

  /** The objects stored before the second phase stay under their keys. */
  ghost predicate Kept(slots0: map<ProductId, LineRecord>, slots: map<ProductId, LineRecord>) {
    forall k :: k in slots0 ==> k in slots && slots[k] == slots0[k]
  }

  /** A key first stored during the second phase, after the first `i` new
      lines (with ids `nKeys`), holds the first new object with that key. */
  ghost predicate FirstStored(newItems: seq<LineRecord>, nKeys: seq<ProductId>, slots0: map<ProductId, LineRecord>,
                              i: nat, slots: map<ProductId, LineRecord>)
    requires i <= |nKeys| == |newItems|
  {
    forall k :: k in slots && k !in slots0 ==>
      k in nKeys[..i] && slots[k] == newItems[FirstIndex(nKeys, k)]
  }

  /** No stored object is a new line from index `i` on. */
  ghost predicate Ahead(newItems: seq<LineRecord>, i: nat, slots: map<ProductId, LineRecord>) {
    forall k, j :: k in slots && i <= j < |newItems| ==> slots[k] != newItems[j]
  }

  /** A new object that is not stored still holds its original line. */
  ghost predicate Untouched(newItems: seq<LineRecord>, n0: seq<LineItem>, slots: map<ProductId, LineRecord>)
    requires |n0| == |newItems|
    reads newItems
  {
    forall j :: 0 <= j < |newItems| && (forall k :: k in slots ==> slots[k] != newItems[j]) ==>
      newItems[j].Value() == n0[j]
  }

  /** The state of the second phase after the first `i` new lines, whose
      values were `n0`. */
  ghost predicate Folding(newItems: seq<LineRecord>, n0: seq<LineItem>, slots0: map<ProductId, LineRecord>, m0: Entries,
                          i: nat, keys: seq<ProductId>, slots: map<ProductId, LineRecord>, m: Entries)
    reads newItems, slots.Values
  {
    && i <= |newItems| == |n0|
    && m == AddNew(m0, n0[..i]) && Mirrors(keys, slots, m)
    && Kept(slots0, slots)
    && FirstStored(newItems, KeysOf(n0), slots0, i, slots)
    && Ahead(newItems, i, slots)
    && Untouched(newItems, n0, slots)
  }

  /** A new line whose id is already stored is added into the stored object. */
  method FoldPresent(newItems: seq<LineRecord>, ghost n0: seq<LineItem>, ghost slots0: map<ProductId, LineRecord>, ghost m0: Entries,
                     i: nat, keys: seq<ProductId>, slots: map<ProductId, LineRecord>, ghost m: Entries)
    returns (ghost m': Entries)
    requires i < |newItems| == |n0| && newItems[i].productId in slots
    requires m == AddNew(m0, n0[..i]) && Mirrors(keys, slots, m)
    requires Ahead(newItems, i, slots) && Untouched(newItems, n0, slots)
    modifies slots[newItems[i].productId]
    ensures m' == AddNew(m0, n0[..i + 1]) && Mirrors(keys, slots, m')
    ensures Untouched(newItems, n0, slots)
  {
    var item := newItems[i];
    var key := item.productId;
    assert slots[key] != item;
    assert item.Value() == n0[i];
    label before:
    AddInto(keys, slots, item, m);
    AddNewPresent(m0, n0, i);
    m' := Set(m, key, Accumulate(m.vals[key], n0[i]));
    forall j | 0 <= j < |newItems| && (forall k :: k in slots ==> slots[k] != newItems[j])
      ensures newItems[j].Value() == n0[j]
    {
      assert slots[key] != newItems[j];
      assert old@before(newItems[j].Value()) == n0[j];
    }
  }

  lemma FirstStoredPresent(newItems: seq<LineRecord>, nKeys: seq<ProductId>, slots0: map<ProductId, LineRecord>,
                           i: nat, slots: map<ProductId, LineRecord>)
    requires i < |nKeys| == |newItems| && nKeys[i] in slots
    requires FirstStored(newItems, nKeys, slots0, i, slots)
    ensures FirstStored(newItems, nKeys, slots0, i + 1, slots)
  {
    assert nKeys[..i + 1] == nKeys[..i] + [nKeys[i]];
  }

  lemma FirstStoredAbsent(newItems: seq<LineRecord>, nKeys: seq<ProductId>, slots0: map<ProductId, LineRecord>,
                          i: nat, slots: map<ProductId, LineRecord>)
    requires i < |nKeys| == |newItems| && nKeys[i] !in slots && nKeys[i] !in nKeys[..i] && Kept(slots0, slots)
    requires FirstStored(newItems, nKeys, slots0, i, slots)
    ensures FirstStored(newItems, nKeys, slots0, i + 1, slots[nKeys[i] := newItems[i]])
  {
    assert nKeys[..i + 1] == nKeys[..i] + [nKeys[i]];
    FirstIndexAt(nKeys, i);
  }

  lemma AheadAbsent(newItems: seq<LineRecord>, i: nat, slots: map<ProductId, LineRecord>, key: ProductId)
    requires i < |newItems| && Ahead(newItems, i, slots)
    requires forall i, j :: 0 <= i < j < |newItems| ==> newItems[i] != newItems[j]
    ensures Ahead(newItems, i + 1, slots[key := newItems[i]])
  {
  }

  lemma UntouchedAbsent(newItems: seq<LineRecord>, n0: seq<LineItem>, slots: map<ProductId, LineRecord>, key: ProductId, r: LineRecord)
    requires |n0| == |newItems| && Untouched(newItems, n0, slots) && key !in slots
    ensures Untouched(newItems, n0, slots[key := r])
  {
    var slots' := slots[key := r];
    forall j | 0 <= j < |newItems| && (forall k :: k in slots' ==> slots'[k] != newItems[j])
      ensures newItems[j].Value() == n0[j]
    {
      forall k | k in slots ensures slots[k] != newItems[j] {
        assert slots'[k] == slots[k];
      }
    }
  }

  /** One step of the second phase for a new line whose id is stored. */
  method FoldStepPresent(newItems: seq<LineRecord>, ghost n0: seq<LineItem>, ghost slots0: map<ProductId, LineRecord>, ghost m0: Entries,
                         i: nat, keys: seq<ProductId>, slots: map<ProductId, LineRecord>, ghost m: Entries)
    returns (ghost m': Entries)
    requires Folding(newItems, n0, slots0, m0, i, keys, slots, m)
    requires i < |newItems| && newItems[i].productId in slots
    modifies slots[newItems[i].productId]
    ensures Folding(newItems, n0, slots0, m0, i + 1, keys, slots, m')
  {
    assert KeysOf(n0)[i] == newItems[i].productId;
    FirstStoredPresent(newItems, KeysOf(n0), slots0, i, slots);
    m' := FoldPresent(newItems, n0, slots0, m0, i, keys, slots, m);
  }

  /** One step of the second phase for a new line whose id is not stored. */
  lemma FoldStepAbsent(newItems: seq<LineRecord>, n0: seq<LineItem>, slots0: map<ProductId, LineRecord>, m0: Entries,
                       i: nat, keys: seq<ProductId>, slots: map<ProductId, LineRecord>, m: Entries)
    requires Folding(newItems, n0, slots0, m0, i, keys, slots, m)
    requires forall i, j :: 0 <= i < j < |newItems| ==> newItems[i] != newItems[j]
    requires i < |newItems| && newItems[i].productId !in slots
    ensures var key := newItems[i].productId;
            Folding(newItems, n0, slots0, m0, i + 1, keys + [key], slots[key := newItems[i]], Set(m, key, n0[i]))
  {
    var key := newItems[i].productId;
    var nKeys := KeysOf(n0);
    assert newItems[i].Value() == n0[i] && nKeys[i] == key;
    assert key !in nKeys[..i] by {
      AddNewDomain(m0, n0[..i]);
      assert KeysOf(n0[..i]) == nKeys[..i];
    }
    FirstStoredAbsent(newItems, nKeys, slots0, i, slots);
    AheadAbsent(newItems, i, slots, key);
    UntouchedAbsent(newItems, n0, slots, key, newItems[i]);
    MirrorsStore(keys, slots, newItems[i], m);
    AddNewAbsent(m0, n0, i);
  }

  /** The second phase of `mergeCartItems`: each new line is either added into
      the object stored under its id, or, when the id is absent, stored itself.
      The objects stored before the phase stay under their keys; the object
      under an id first stored here is the first new object with that id; a
      new object not stored is left as it was. */
  method FoldNewLines(keys0: seq<ProductId>, slots0: map<ProductId, LineRecord>, newItems: seq<LineRecord>, ghost m0: Entries)
    returns (keys: seq<ProductId>, slots: map<ProductId, LineRecord>, ghost m: Entries)
    requires Mirrors(keys0, slots0, m0)
    requires forall k, j :: k in slots0 && 0 <= j < |newItems| ==> slots0[k] != newItems[j]
    requires forall i, j :: 0 <= i < j < |newItems| ==> newItems[i] != newItems[j]
    modifies newItems, slots0.Values
    ensures m == AddNew(m0, old(ValuesOf(newItems)))
    ensures Mirrors(keys, slots, m)
    ensures forall k :: k in slots0 ==> k in slots && slots[k] == slots0[k]
    ensures forall k :: k in slots && k !in slots0 ==>
              && k in old(KeysOf(ValuesOf(newItems)))
              && slots[k] == newItems[FirstIndex(old(KeysOf(ValuesOf(newItems))), k)]
    ensures forall j :: 0 <= j < |newItems| && (forall k :: k in slots ==> slots[k] != newItems[j]) ==>
              newItems[j].Value() == old(newItems[j].Value())
  {
    ghost var n0 := ValuesOf(newItems);
    keys, slots, m := keys0, slots0, m0;
    for i := 0 to |newItems|
      invariant Folding(newItems, n0, slots0, m0, i, keys, slots, m)
    {
      var key := newItems[i].productId;
      if key in slots {
        assert slots[key] in newItems || slots[key] in slots0.Values;
        m := FoldStepPresent(newItems, n0, slots0, m0, i, keys, slots, m);
      } else {
        FoldStepAbsent(newItems, n0, slots0, m0, i, keys, slots, m);
        keys, slots, m := keys + [key], slots[key := newItems[i]], Set(m, key, n0[i]);
      }
    }
    assert n0[..|newItems|] == n0;
  }

  /** `Array.from(map.values())` over the stored objects. */
  function InKeyOrder(keys: seq<ProductId>, slots: map<ProductId, LineRecord>): seq<LineRecord>
    requires forall k :: k in keys ==> k in slots
  {
    seq(|keys|, j requires 0 <= j < |keys| => slots[keys[j]])
  }

  /** Reading back the objects of a well-formed mirrored map gives the
      entries' lines in key order, and lists every stored object. */
  lemma ListedValues(keys: seq<ProductId>, slots: map<ProductId, LineRecord>, m: Entries)
    requires Mirrors(keys, slots, m) && Valid(m)
    ensures forall k :: k in keys ==> k in slots
    ensures ValuesOf(InKeyOrder(keys, slots)) == Values(m)
    ensures forall k :: k in slots ==> slots[k] in InKeyOrder(keys, slots)
  {
    var merged := InKeyOrder(keys, slots);
    forall k | k in slots ensures slots[k] in merged {
      var j :| 0 <= j < |keys| && keys[j] == k;
      assert merged[j] == slots[k];
    }
  }

  /** Each object read back is either the one stored under its id before the
      second phase (whose ids are `eKeys`), or the first new object with its
      id. */
  lemma ListedOrigins(keys: seq<ProductId>, slots: map<ProductId, LineRecord>, m: Entries, slots0: map<ProductId, LineRecord>,
                      eKeys: seq<ProductId>, newItems: seq<LineRecord>, nKeys: seq<ProductId>)
    requires Mirrors(keys, slots, m) && Valid(m) && Kept(slots0, slots)
    requires forall k :: k in slots0 <==> k in eKeys
    requires |nKeys| == |newItems| && FirstStored(newItems, nKeys, slots0, |newItems|, slots)
    ensures forall k :: k in keys ==> k in slots
    ensures var merged := InKeyOrder(keys, slots);
            forall i :: 0 <= i < |merged| && merged[i].productId in eKeys ==>
              merged[i].productId in slots0 && merged[i] == slots0[merged[i].productId]
    ensures var merged := InKeyOrder(keys, slots);
            forall i :: 0 <= i < |merged| && merged[i].productId !in eKeys ==>
              merged[i].productId in nKeys && merged[i] == newItems[FirstIndex(nKeys, merged[i].productId)]
  {
    assert nKeys[..|newItems|] == nKeys;
    var merged := InKeyOrder(keys, slots);
    forall i | 0 <= i < |merged|
      ensures merged[i].productId == keys[i]
      ensures keys[i] in slots0 ==> merged[i] == slots0[keys[i]]
      ensures keys[i] !in slots0 ==> keys[i] in nKeys && merged[i] == newItems[FirstIndex(nKeys, keys[i])]
    {
      assert merged[i] == slots[keys[i]];
    }
  }

  /** No caller's existing object is among the returned ones: the objects
      returned for existing ids are other objects, and the one returned for
      any other id is a new object whose id no existing line had. */
  lemma ExistingNotListed(existingItems: seq<LineRecord>, newItems: seq<LineRecord>, merged: seq<LineRecord>,
                          eKeys: seq<ProductId>, nKeys: seq<ProductId>)
    requires |eKeys| == |existingItems| && |nKeys| == |newItems|
    requires forall k, j :: 0 <= k < |existingItems| && 0 <= j < |newItems| && existingItems[k] == newItems[j] ==>
               eKeys[k] == nKeys[j]
    requires forall i :: 0 <= i < |merged| && merged[i].productId in eKeys ==> merged[i] !in existingItems
    requires forall i :: 0 <= i < |merged| && merged[i].productId !in eKeys ==>
               merged[i].productId in nKeys && merged[i] == newItems[FirstIndex(nKeys, merged[i].productId)]
    ensures forall r :: r in existingItems ==> r !in merged
  {
    forall r, i | r in existingItems && 0 <= i < |merged| ensures merged[i] != r {
      var id := merged[i].productId;
      if id !in eKeys {
        var f := FirstIndex(nKeys, id);
        var k :| 0 <= k < |existingItems| && existingItems[k] == r;
        assert eKeys[k] in eKeys;
      }
    }
  }

  /** The two passes over the lines and the read-back in key order, with what
      they do to the objects. */
  method FillAndList(existingItems: seq<LineRecord>, newItems: seq<LineRecord>) returns (merged: seq<LineRecord>)
    requires forall i, j :: 0 <= i < j < |newItems| ==> newItems[i] != newItems[j]
    modifies newItems
    ensures ValuesOf(merged) == Merge(old(ValuesOf(existingItems)), old(ValuesOf(newItems)))
    ensures forall i :: 0 <= i < |merged| && merged[i].productId in old(KeysOf(ValuesOf(existingItems))) ==>
              fresh(merged[i])
    ensures forall i :: 0 <= i < |merged| && merged[i].productId !in old(KeysOf(ValuesOf(existingItems))) ==>
              && merged[i].productId in old(KeysOf(ValuesOf(newItems)))
              && merged[i] == newItems[FirstIndex(old(KeysOf(ValuesOf(newItems))), merged[i].productId)]
    ensures forall r :: r in newItems && r !in merged ==> r.Value() == old(r.Value())
  {
    ghost var e0 := ValuesOf(existingItems);
    ghost var n0 := ValuesOf(newItems);
    var keys0, slots0, m0 := CopyExisting(existingItems);
    label copied:
    var keys, slots, m := FoldNewLines(keys0, slots0, newItems, m0);
    AddNewValid(m0, n0);
    FromExistingDomain(e0);
    merged := InKeyOrder(keys, slots);
    ListedValues(keys, slots, m);
    ListedOrigins(keys, slots, m, slots0, KeysOf(e0), newItems, KeysOf(n0));
    forall r | r in newItems && r !in merged ensures r.Value() == old(r.Value()) {
      var j :| 0 <= j < |newItems| && newItems[j] == r;
      assert forall k :: k in slots ==> slots[k] != newItems[j];
      assert r.Value() == old@copied(r.Value());
    }
  }

  /** `mergeCartItems`. Each existing line is copied into a fresh object
      stored under its product id (a later duplicate replaces the earlier
      copy but keeps its place). Each new line either adds its quantity and
      totalPrice to the object already stored under its id, or, when the id is
      new, is itself stored, by reference. The stored objects are returned in
      key insertion order. The caller's existing objects are not modified; the
      first new object for an id absent from the existing lines is the one
      returned for that id, and later new lines with the id are added into it. */
  method MergeCartItems(existingItems: seq<LineRecord>, newItems: seq<LineRecord>) returns (merged: seq<LineRecord>)
    requires forall i, j :: 0 <= i < j < |newItems| ==> newItems[i] != newItems[j]
    modifies newItems
    ensures ValuesOf(merged) == Merge(old(ValuesOf(existingItems)), old(ValuesOf(newItems)))
    ensures forall i :: 0 <= i < |merged| && merged[i].productId in old(KeysOf(ValuesOf(existingItems))) ==>
              fresh(merged[i])
    ensures forall i :: 0 <= i < |merged| && merged[i].productId !in old(KeysOf(ValuesOf(existingItems))) ==>
              && merged[i].productId in old(KeysOf(ValuesOf(newItems)))
              && merged[i] == newItems[FirstIndex(old(KeysOf(ValuesOf(newItems))), merged[i].productId)]
    ensures forall r :: r in newItems && r !in merged ==> r.Value() == old(r.Value())
    ensures forall r :: r in existingItems && r !in newItems ==> unchanged(r)
    ensures forall r :: r in existingItems ==> r.Value() == old(r.Value())
  {
    ghost var eKeys := KeysOf(ValuesOf(existingItems));
    ghost var nKeys := KeysOf(ValuesOf(newItems));
    assert forall k, j :: 0 <= k < |existingItems| && 0 <= j < |newItems| && existingItems[k] == newItems[j] ==>
             eKeys[k] == nKeys[j];
    merged := FillAndList(existingItems, newItems);
    forall i | 0 <= i < |merged| && merged[i].productId in eKeys ensures merged[i] !in existingItems {
      assert fresh(merged[i]);
    }
    ExistingNotListed(existingItems, newItems, merged, eKeys, nKeys);
  }
}
