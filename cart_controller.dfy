/** The cart controller: its own copy of `cartCreation`, which keeps a running
    total, and the order of steps in `updateCart` over a store of carts. */
module CartController {
  import opened CartTypes
  import opened ItemProcessing
  import CartHelper

  /** The controller's `cartCreation`: one lookup per requested item, in
      order, throwing "Product not found" at the first product that does not
      resolve; the total is accumulated line by line (`totalAmount +=`). */
  method CartCreation(catalog: Catalog, cartItems: seq<ItemRequest>) returns (r: Result<Processed>)
    ensures r == ProcessCart(catalog, cartItems)
    ensures r.Success? ==> r.value.totalAmount == CartHelper.CalculateTotalAmount(r.value.processedItems)
  {
    var totalAmount := 0;
    var processedItems: seq<LineItem> := [];
    for i := 0 to |cartItems|
      invariant ProcessCart(catalog, cartItems[..i]) == Success(Processed(processedItems, totalAmount))
    {
      var item := cartItems[i];
      if item.productId !in catalog {
        assert SomeUnresolved(catalog, cartItems);
        return Failure(ProductNotFound);
      }
      var product := catalog[item.productId];
      var totalPrice := product.price * item.quantity;
      totalAmount := totalAmount + totalPrice;
      ProcessCartExtend(catalog, cartItems[..i], item);
      assert cartItems[..i + 1] == cartItems[..i] + [item];
      processedItems := processedItems + [LineItem(product.id, item.quantity, totalPrice)];
    }
    assert cartItems[..|cartItems|] == cartItems;
    return Success(Processed(processedItems, totalAmount));
  }

  /** An HTTP response: its status code and the JSON body's `status`,
      `message`, and, when present, `error` and `result`. */
  datatype Response = Response(code: int, status: string, message: string, error: Option<string>, result: Option<Cart>)

  /** The catch branch of a handler: 500 with the thrown error's message. */
  function ServerError(message: string): Response {
    Response(500, "fail", "Internal server error", Some(message), None)
  }

  const CartNotFound: Response := Response(404, "fail", "Cart not found", None, None)

  predicate IsHexDigit(c: char) {
    '0' <= c <= '9' || 'a' <= c <= 'f' || 'A' <= c <= 'F'
  }

  /** An id `cartModel.findById` can cast to an `ObjectId`: 24 hexadecimal digits. */
  predicate WellFormedId(id: CartId) {
    |id| == 24 && forall i :: 0 <= i < |id| ==> IsHexDigit(id[i])
  }

  /** The message of the `CastError` that `cartModel.findById` throws for an
      id it cannot cast. */
  function CastFailed(id: CartId): string {
    "Cast to ObjectId failed for value \"" + id + "\" (type string) at path \"_id\" for model \"Cart\""
  }

  /** The message of the `ReferenceError` raised by evaluating the undefined
      identifier `addedItems`. */
  const AddedItemsUndefined: string := "addedItems is not defined"

  /** The cart collection: each stored cart under its `_id`. */
  class CartStore {
    var carts: map<CartId, Cart>

    /** Every stored cart's total is the sum of its lines' prices. */
    ghost predicate Consistent()
      reads this
    {
      forall id :: id in carts ==> carts[id].totalAmount == SumTotalPrice(carts[id].cartItems)
    }

    constructor (carts: map<CartId, Cart>)
      ensures this.carts == carts
    {
      this.carts := carts;
    }

    /** `updateCart` as evidently intended: the request's items are processed
        first, so an unresolved product gives the 500 response whether or not
        the cart exists; then an id that cannot be cast to an `ObjectId` makes
        the lookup throw, which is the 500 response too; a missing cart gives
        404 and only then; otherwise the
        cart's lines and total are replaced by the processed ones (not merged)
        and the updated cart is returned. No other cart changes. */
    method UpdateCart(catalog: Catalog, id: CartId, cartItems: seq<ItemRequest>) returns (resp: Response)
      modifies this
      ensures ProcessCart(catalog, cartItems).Failure? ==>
                resp == ServerError(ProductNotFound) && carts == old(carts)
      ensures ProcessCart(catalog, cartItems).Success? && !WellFormedId(id) ==>
                resp == ServerError(CastFailed(id)) && carts == old(carts)
      ensures ProcessCart(catalog, cartItems).Success? && WellFormedId(id) && id !in old(carts) ==>
                resp == CartNotFound && carts == old(carts)
      ensures ProcessCart(catalog, cartItems).Success? && WellFormedId(id) && id in old(carts) ==>
                var p := ProcessCart(catalog, cartItems).value;
                && carts == old(carts)[id := old(carts)[id].(cartItems := p.processedItems, totalAmount := p.totalAmount)]
                && resp == Response(200, "success", "Cart updated successfully", None, Some(carts[id]))
      ensures resp.code == 200 <==> ProcessCart(catalog, cartItems).Success? && WellFormedId(id) && id in old(carts)
      ensures resp.code == 200 ==> carts[id].totalAmount == SumTotalPrice(carts[id].cartItems)
      ensures old(Consistent()) ==> Consistent()
      ensures forall other :: other in old(carts) && other != id ==> other in carts && carts[other] == old(carts)[other]
    {
      var processed := CartCreation(catalog, cartItems);
      if processed.Failure? {
        return ServerError(processed.error);
      }
      if !WellFormedId(id) {
        return ServerError(CastFailed(id));
      }
      if id !in carts {
        return CartNotFound;
      }
      var updated := carts[id].(cartItems := processed.value.processedItems, totalAmount := processed.value.totalAmount);
      carts := carts[id := updated];
      return Response(200, "success", "Cart updated successfully", None, Some(updated));
    }

    /** `updateCart` as written: after the cart is found, the statement that
        passes the undefined `addedItems` throws, so the handler always ends
        in the catch branch once the cart exists, and no cart is ever
        written (the method modifies nothing). */
    method UpdateCartAsWritten(catalog: Catalog, id: CartId, cartItems: seq<ItemRequest>) returns (resp: Response)
      ensures ProcessCart(catalog, cartItems).Failure? ==> resp == ServerError(ProductNotFound)
      ensures ProcessCart(catalog, cartItems).Success? && !WellFormedId(id) ==> resp == ServerError(CastFailed(id))
      ensures ProcessCart(catalog, cartItems).Success? && WellFormedId(id) && id !in carts ==> resp == CartNotFound
      ensures ProcessCart(catalog, cartItems).Success? && WellFormedId(id) && id in carts ==>
                resp == ServerError(AddedItemsUndefined)
      ensures resp.code != 200
    {
      var processed := CartCreation(catalog, cartItems);
      if processed.Failure? {
        return ServerError(processed.error);
      }
      if !WellFormedId(id) {
        return ServerError(CastFailed(id));
      }
      if id !in carts {
        return CartNotFound;
      }
      return ServerError(AddedItemsUndefined);
    }
  }
}
