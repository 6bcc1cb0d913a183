/** Shared data of the cart subsystem: catalog products, requested items,
    processed cart lines, carts, and the reference sums over line lists.
    Money is an exact integer amount (minor units); quantities are integers. */
module CartTypes {

  /** A product identifier, compared by its string form (`productId.toString()`). */
  type ProductId = string

  type CartId = string

  type UserId = string

  datatype Option<T> = None | Some(value: T)

  /** A thrown `Error` is its message; a successful call carries its value. */
  datatype Result<T> = Success(value: T) | Failure(error: string)

  /** The message of the error thrown when a requested product does not resolve. */
  const ProductNotFound: string := "Product not found"

  /** The catalog fields the cart reads: the document's `_id` and its unit price. */
  datatype Product = Product(id: ProductId, price: int)

  /** `productModel.findById` as a lookup: an absent key is a product that does not resolve. */
  type Catalog = map<ProductId, Product>

  /** Every catalog document is stored under its own `_id`. */
  ghost predicate WellKeyed(catalog: Catalog) {
    forall k :: k in catalog ==> catalog[k].id == k
  }

  /** One entry of a request's `cartItems`. */
  datatype ItemRequest = ItemRequest(productId: ProductId, quantity: int)

  /** A processed cart line `{productId, quantity, totalPrice}`. */
  datatype LineItem = LineItem(productId: ProductId, quantity: int, totalPrice: int)

  /** What `cartCreation` returns. */
  datatype Processed = Processed(processedItems: seq<LineItem>, totalAmount: int)

  /** A stored cart document. */
  datatype Cart = Cart(user: UserId, cartItems: seq<LineItem>, totalAmount: int)

  /** The line built for one request whose product resolves: the product's own
      id, the requested quantity, and unit price times quantity. */
  function LineFor(catalog: Catalog, item: ItemRequest): (line: LineItem)
    requires item.productId in catalog
  {
    var product := catalog[item.productId];
    LineItem(product.id, item.quantity, product.price * item.quantity)
  }

  /** Reference sum of the `totalPrice` fields of a list. */
  function SumTotalPrice(items: seq<LineItem>): int {
    if items == [] then 0 else items[0].totalPrice + SumTotalPrice(items[1..])
  }

  /** Reference sum of the `quantity` fields of a list. */
  function SumQuantity(items: seq<LineItem>): int {
    if items == [] then 0 else items[0].quantity + SumQuantity(items[1..])
  }

  /** The product ids of a list of lines, in list order. */
  function KeysOf(items: seq<LineItem>): seq<ProductId> {
    seq(|items|, i requires 0 <= i < |items| => items[i].productId)
  }

  /** No product id occurs twice in the list. */
  ghost predicate DistinctKeys(items: seq<LineItem>) {
    forall i, j :: 0 <= i < j < |items| ==> items[i].productId != items[j].productId
  }

  lemma {:induction false} SumTotalPriceAppend(a: seq<LineItem>, b: seq<LineItem>)
    ensures SumTotalPrice(a + b) == SumTotalPrice(a) + SumTotalPrice(b)
  {
    if a == [] {
      assert a + b == b;
    } else {
      assert (a + b)[1..] == a[1..] + b;
      SumTotalPriceAppend(a[1..], b);
    }
  }

  lemma {:induction false} SumQuantityAppend(a: seq<LineItem>, b: seq<LineItem>)
    ensures SumQuantity(a + b) == SumQuantity(a) + SumQuantity(b)
  {
    if a == [] {
      assert a + b == b;
    } else {
      assert (a + b)[1..] == a[1..] + b;
      SumQuantityAppend(a[1..], b);
    }
  }
}
