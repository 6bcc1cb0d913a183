/** The reference meaning of processing a batch of requested items
    (shared by both `cartCreation` variants): every product must resolve,
    one line per request in request order, and the batch total. */
module ItemProcessing {
  import opened CartTypes

  /** True when some requested product id is not in the catalog. */
  predicate SomeUnresolved(catalog: Catalog, cartItems: seq<ItemRequest>) {
    exists i | 0 <= i < |cartItems| :: cartItems[i].productId !in catalog
  }

  /** The batch a request produces: failure with "Product not found" when any
      product does not resolve (no partial result); otherwise the line for
      each request, at the same position, and the sum of their totalPrice. */
  function ProcessCart(catalog: Catalog, cartItems: seq<ItemRequest>): Result<Processed> {
    if SomeUnresolved(catalog, cartItems) then Failure(ProductNotFound)
    else
      var lines := seq(|cartItems|, i requires 0 <= i < |cartItems| => LineFor(catalog, cartItems[i]));
      Success(Processed(lines, SumTotalPrice(lines)))
  }

  /** What a batch holds: it succeeds exactly when every requested product
      resolves, and then has one line per request at the same position, with
      the resolved product's id, the requested quantity, and the unit price
      times that quantity; the line's id is the requested id when the catalog
      stores each product under its own id. */
  lemma ProcessedLines(catalog: Catalog, cartItems: seq<ItemRequest>)
    ensures ProcessCart(catalog, cartItems).Success? <==> forall i :: 0 <= i < |cartItems| ==> cartItems[i].productId in catalog
    ensures ProcessCart(catalog, cartItems).Failure? ==> ProcessCart(catalog, cartItems).error == ProductNotFound
    ensures ProcessCart(catalog, cartItems).Success? ==>
      var lines := ProcessCart(catalog, cartItems).value.processedItems;
      && |lines| == |cartItems|
      && forall i :: 0 <= i < |cartItems| ==>
           && lines[i].productId == catalog[cartItems[i].productId].id
           && (WellKeyed(catalog) ==> lines[i].productId == cartItems[i].productId)
           && lines[i].quantity == cartItems[i].quantity
           && lines[i].totalPrice == catalog[cartItems[i].productId].price * cartItems[i].quantity
  {
  }

  /** The total of a batch with one more request is the old total plus the new
      line's price: the batch total is additive over requests. */
  lemma {:induction false} ProcessCartExtend(catalog: Catalog, cartItems: seq<ItemRequest>, item: ItemRequest)
    requires ProcessCart(catalog, cartItems).Success?
    requires item.productId in catalog
    ensures ProcessCart(catalog, cartItems + [item]).Success?
    ensures ProcessCart(catalog, cartItems + [item]).value.processedItems
         == ProcessCart(catalog, cartItems).value.processedItems + [LineFor(catalog, item)]
    ensures ProcessCart(catalog, cartItems + [item]).value.totalAmount
         == ProcessCart(catalog, cartItems).value.totalAmount + LineFor(catalog, item).totalPrice
  {
    var all := cartItems + [item];
    assert !SomeUnresolved(catalog, cartItems);
    assert !SomeUnresolved(catalog, all) by {
      forall i | 0 <= i < |all| ensures all[i].productId in catalog {
        if i < |cartItems| { assert all[i] == cartItems[i]; }
      }
    }
    var before := ProcessCart(catalog, cartItems).value.processedItems;
    var after := ProcessCart(catalog, all).value.processedItems;
    assert after == before + [LineFor(catalog, item)];
    SumTotalPriceAppend(before, [LineFor(catalog, item)]);
  }
}
