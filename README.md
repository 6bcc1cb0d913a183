# Shopping-cart line items of ECommerceExpressAPI, in Dafny

This project models the cart logic of an Express/Mongoose e-commerce API and proves properties about it:

- `cartCreation`, in two variants. Each turns a request's `cartItems` (`{productId, quantity}`) into processed lines `{productId, quantity, totalPrice}` and a batch `totalAmount`, looking every product up in the catalog. One variant lives in the cart helper, which sums with `calculateTotalAmount`. The other lives in the cart controller, which keeps a running `+=` total.
- `calculateTotalAmount`: a `reduce` over the lines' `totalPrice`.
- `mergeCartItems`: folds new lines into existing lines through a JS `Map` keyed by product id. It copies the existing lines, stores new lines by reference, and mutates stored objects in place.
- The order of steps in the controller's `updateCart`: process the items, look up the cart, answer 404, write, answer 200, or answer 500 from the catch branch.

Files:

- `cart_types.dfy` (`CartTypes`). The records: product, requested item, processed line, cart. `Result`/`Option`. The reference sums `SumTotalPrice` and `SumQuantity`.
- `item_processing.dfy` (`ItemProcessing`). `ProcessCart`, the reference meaning of processing a batch. Both `cartCreation` loops are proved equal to it.
- `merge_spec.dfy` (`MergeSpec`). The value-level meaning of the merge:
  - an insertion-ordered map (`Entries`) with `Map.prototype.set` semantics;
  - the two folds `FromExisting` and `AddNew`, and `Merge`;
  - lemmas on key order, per-key values, distinctness, totals and commutation.
- `cart_helper.dfy` (`CartHelper`). The helper file:
  - `Reduce` and `CalculateTotalAmount`;
  - the helper's `CartCreation` loop;
  - `MergeCartItems`, an imperative method over `LineRecord` objects whose fields are updated in place. It is proved to return objects holding exactly `Merge` of the input values, with the aliasing the source has.
- `cart_controller.dfy` (`CartController`). The controller's `CartCreation` loop, and a `CartStore` class. Its `carts` map is updated by `UpdateCart`.

Money and quantities are exact integers (minor units). The catalog is a map from product id to product (`_id`, `price`): an absent key is a `findById` that returns `null`.

## Model

| member | source | states |
|---|---|---|
| ItemProcessing.ProcessCart | src/utils/cartHelper.js:4-25 | The reference definition of processing a batch, which both `cartCreation` loops are proved to return: "Product not found" when any requested product does not resolve, otherwise the line for each request and the sum of their prices. `ProcessedLines` and `ProcessCartExtend` characterise it. |
| CartTypes.LineFor | src/utils/cartHelper.js:13-19 | The line built for one resolved request: the product's `_id`, the requested quantity, and unit price × quantity. `ProcessedLines` states these per position. |
| ItemProcessing.ProcessedLines | src/utils/cartHelper.js:7-20 | A batch succeeds iff every requested product resolves, and otherwise fails with "Product not found". On success it has one line per request at the same position: the resolved product's `_id` (the requested id when the catalog stores each product under its own id), the requested quantity, and price × quantity. |
| ItemProcessing.ProcessCartExtend | src/controllers/cart.controller.js:138-151 | Adding one resolvable request appends exactly that request's line and adds its `totalPrice` to the total. This is the step the running `totalAmount +=` relies on. |
| CartHelper.Reduce | src/utils/cartHelper.js:28 | The left fold `reduce((total, item) => total + item.totalPrice, acc)` equals `acc` plus the reference sum of the lines' prices. |
| CartHelper.CalculateTotalAmount | src/utils/cartHelper.js:27-29 | 0 for an empty list; otherwise the sum of every line's `totalPrice`. |
| CartHelper.CartCreation | src/utils/cartHelper.js:4-25 | The helper's loop returns exactly `ProcessCart`: failure at an unresolved product with no partial result, or every line in order. Its `totalAmount` equals `calculateTotalAmount` of the returned lines. |
| CartController.CartCreation | src/controllers/cart.controller.js:134-155 | The controller's loop returns the same result as the helper's (both equal `ProcessCart`). Its running total, starting at 0, equals `calculateTotalAmount` of the emitted lines. |
| CartController.CartStore.UpdateCart | src/controllers/cart.controller.js:62-103 | Items are processed before the cart lookup. An unresolved product gives 500 with "Product not found" whether or not the cart exists. Then an id that is not 24 hexadecimal digits makes `findById` throw its cast error, which also gives 500. 404 "Cart not found" only when every product resolves and the id is well formed. Otherwise the cart's lines and total are replaced (not merged) and returned with 200. No other cart changes, and a store whose totals are consistent stays consistent. |
| CartController.CartStore.UpdateCartAsWritten | src/controllers/cart.controller.js:62-103 | The same 500 answers for an unresolved product and for a malformed id, and the same 404. As written, when the cart exists the call at line 80 throws "addedItems is not defined". The handler answers 500 and never writes any cart, so it never answers 200. |
| CartHelper.LineRecord.constructor | src/utils/cartHelper.js:36-40 | The object literal copying an existing line's three fields. |
| CartHelper.CopyStep | src/utils/cartHelper.js:35-41 | Storing the copy of the next existing line keeps the stored objects mirroring `FromExisting` of the lines seen so far. |
| CartHelper.CopyOne | src/utils/cartHelper.js:36-40 | `itemMap.set(id, {...})` stores a fresh object under the line's id and keeps the mirror. |
| CartHelper.CopyExisting | src/utils/cartHelper.js:32-41 | After the `forEach` over the existing lines, the map's keys and objects mirror `FromExisting` of their values, and every stored object is fresh. |
| CartHelper.AddInto | src/utils/cartHelper.js:45-49 | `existing.quantity +=`, `existing.totalPrice +=` on the stored object turns its entry into the accumulated line and leaves every other stored object as it was. |
| CartHelper.MirrorsStore | src/utils/cartHelper.js:50-53 | `itemMap.set(id, item)` for an absent id appends the key and stores the new object itself. |
| CartHelper.AddNewPresent | src/utils/cartHelper.js:45-49 | One step of the fold over new lines, for an id already stored: the stored line accumulates. |
| CartHelper.AddNewAbsent | src/utils/cartHelper.js:50-53 | One step of the fold over new lines, for an absent id: the new line is stored. |
| CartHelper.FoldPresent | src/utils/cartHelper.js:45-49 | Adding into the stored object keeps the mirror of `AddNew` one line further. Every new object not stored keeps its original line. |
| CartHelper.FirstStoredPresent | src/utils/cartHelper.js:45-49 | An id already stored keeps the first new object stored for it. |
| CartHelper.FirstStoredAbsent | src/utils/cartHelper.js:50-53 | An id stored from the new lines holds the new object at the id's first index among them. |
| CartHelper.AheadAbsent | src/utils/cartHelper.js:52 | No stored object is a new line still to come. |
| CartHelper.UntouchedAbsent | src/utils/cartHelper.js:52 | Storing an object never changes a new object that is not stored. |
| CartHelper.FoldStepPresent | src/utils/cartHelper.js:43-49 | One iteration for a present id preserves the whole state of the second phase. |
| CartHelper.FoldStepAbsent | src/utils/cartHelper.js:43-53 | One iteration for an absent id preserves the whole state of the second phase. |
| CartHelper.FoldNewLines | src/utils/cartHelper.js:43-54 | After the `forEach` over new lines: the map mirrors `AddNew`, and the objects stored before stay. An id first stored here holds the first new object with that id. A new object not stored holds its original line. |
| CartHelper.ListedValues | src/utils/cartHelper.js:56 | `Array.from(itemMap.values())` yields `Values` of the entries, and lists every stored object. |
| CartHelper.ListedOrigins | src/utils/cartHelper.js:36-56 | Each returned object is either the copy made for an existing id or the first new object with its id. |
| CartHelper.MergeCartItems | src/utils/cartHelper.js:31-57 | The returned objects hold exactly `Merge` of the input lines. An object for an existing id is a fresh copy. An object for any other id is the caller's first new object with that id, mutated in place. New objects not returned keep their values. The caller's existing objects keep their values, even one also passed among the new lines. |
| CartHelper.FillAndList | src/utils/cartHelper.js:32-56 | The two `forEach` passes and the read-back: the returned objects hold exactly `Merge` of the input lines, with fresh copies for existing ids and the caller's first new object for any other id. New objects not returned keep their values. |
| CartHelper.ExistingNotListed | src/utils/cartHelper.js:36-56 | No existing object is among the returned ones: existing ids get fresh copies, and any other id gets a new object whose id no existing line had. |
| MergeSpec.Set | src/utils/cartHelper.js:36 | The reference definition of `Map.prototype.set`: a new key goes last, a present key keeps its place and takes the new value. `SetValid` and `SetTotal` characterise it. |
| MergeSpec.Values | src/utils/cartHelper.js:56 | The reference definition of `Array.from(itemMap.values())`: the stored lines in key insertion order. `ListedValues` ties the objects read back to it. |
| CartHelper.InKeyOrder | src/utils/cartHelper.js:56 | `Array.from(itemMap.values())` over the stored objects. `ListedValues` and `ListedOrigins` state what it returns. |
| MergeSpec.Accumulate | src/utils/cartHelper.js:48-49 | The reference definition of the two `+=` updates: quantity and price add, the id stays. `AddInto` is proved to perform it on the stored object. |
| MergeSpec.FromExisting | src/utils/cartHelper.js:35-41 | The reference definition of the first `forEach`: each existing line stored in turn under its id. `FromExistingValid`, `FromExistingKeys`, `FromExistingDomain`, `FromExistingLines` and `FromExistingTotal` characterise it. |
| MergeSpec.AddNew | src/utils/cartHelper.js:43-54 | The reference definition of the second `forEach`: a present id accumulates the new line, an absent id stores it. `AddNewValid`, `AddNewKeys`, `AddNewDomain`, `AddNewLines` and `AddNewTotal` characterise it. |
| MergeSpec.Merge | src/utils/cartHelper.js:31-57 | The reference definition of the lines `mergeCartItems` returns. `MergeOrder`, `MergeDistinct`, `MergeLines`, `MergeLookup`, `MergeTotal` and `MergeCommutes` characterise it, and `MergeCartItems` is proved to return it. |
| CartController.ServerError | src/controllers/cart.controller.js:95-101 | The catch branch's 500 response carrying the thrown error's message. The 404 response of lines 72-77 is the constant `CartNotFound`. `UpdateCart` and `UpdateCartAsWritten` state when each is returned. |
| MergeSpec.SetValid | src/utils/cartHelper.js:36 | `Map.set` keeps keys distinct and exactly the domain. |
| MergeSpec.FromExistingValid | src/utils/cartHelper.js:35-41 | Storing the existing lines yields a well-formed map. |
| MergeSpec.AddNewValid | src/utils/cartHelper.js:43-54 | Folding in the new lines keeps the map well-formed. |
| MergeSpec.FromExistingKeys | src/utils/cartHelper.js:35-41 | The stored keys are the existing ids, each once, in first-seen order. |
| MergeSpec.FromExistingDomain | src/utils/cartHelper.js:35-41 | The ids stored after copying are exactly the existing lines' ids. |
| MergeSpec.AddNewKeys | src/utils/cartHelper.js:43-54 | Folding in new lines extends first-seen order over the new ids. |
| MergeSpec.AddNewDomain | src/utils/cartHelper.js:43-54 | An id is stored after the fold iff it was stored before or occurs among the new lines. |
| MergeSpec.MergeOrder | src/utils/cartHelper.js:31-57 | The merged lines list each id of existing ++ new exactly once, and no other ids, in order of first appearance. |
| MergeSpec.MergeDistinct | src/utils/cartHelper.js:32-56 | The merged lines have pairwise-distinct product ids. |
| MergeSpec.FromExistingLines | src/utils/cartHelper.js:35-41 | After copying, each id holds its last occurrence among the existing lines. |
| MergeSpec.AddNewLineStep | src/utils/cartHelper.js:45-53 | One new line keeps each stored line equal to its base plus the sums over the new lines with its id. |
| MergeSpec.AddNewLines | src/utils/cartHelper.js:43-54 | After the fold, each stored line is its starting line (zero when absent) plus the quantity and price sums of all new lines with its id. |
| MergeSpec.MergeLines | src/utils/cartHelper.js:35-56 | Every merged line is the existing line for its id (last occurrence; zero when absent) plus the sums over all new lines with that id. |
| MergeSpec.MergeLookupPresent | src/utils/cartHelper.js:35-56 | For an id in the merge, the merged line is the existing line plus the sums over new lines with that id. |
| MergeSpec.MergeLookup | src/utils/cartHelper.js:35-56 | For every id, its line after the merge is the existing line plus the sums over the new lines with it. This includes ids in neither list. |
| MergeSpec.MergeCommutes | src/utils/cartHelper.js:31-57 | Merging two batches in either order gives every product the same line. |
| MergeSpec.SetTotal | src/utils/cartHelper.js:36 | `Map.set` changes the sum of the stored prices by the new price minus the replaced one. |
| MergeSpec.FromExistingTotal | src/utils/cartHelper.js:35-41 | With distinct existing ids, the copies' prices sum to the existing total. |
| MergeSpec.AddNewTotal | src/utils/cartHelper.js:43-54 | Folding in new lines adds exactly their total to the stored prices' sum. |
| MergeSpec.MergeTotal | src/utils/cartHelper.js:31-57 | With distinct existing ids, the merged total is the existing total plus the new total. |

## Left out

- Money is JS `Number` (floating point) in the source. Here prices, quantities and totals are exact integers, so rounding is not modelled.
- `productModel.findById` is an awaited database query. Here it is a catalog map lookup. A malformed product id, which makes Mongoose throw a cast error into the 500 branch, is not modelled: here it is a product that does not resolve. The cart id's cast error is modelled. A cart id is well formed when it is 24 hexadecimal digits. The 12-character strings that some BSON versions also accept are treated as malformed. The cast error's message follows Mongoose's wording and may differ between versions. The `async`/`await` sequencing is modelled as sequential code.
- A request body without an iterable `cartItems`, which throws a `TypeError` into the 500 branch, is not modelled. The items are always a sequence.
- Both `cartCreation` loops stop at the first unresolved product. The lookups have no side effects, so the result equals "fail when any product is unresolved", and that is how `ProcessCart` states it.
- `item.productId.toString()` is the identity here: product ids are strings.
- CartHelper.MergeCartItems: requires the new line objects to be pairwise distinct objects. The same assumption is a requires of its phase members `CartHelper.FillAndList`, `CartHelper.FoldNewLines`, `CartHelper.FoldStepAbsent` and `CartHelper.AheadAbsent`. The source does not demand this. With one object listed twice, the source would add the object into itself, and the model does not cover that call.
- The cart schema's `quantity` minimum of 1 is not required. The code never checks it, and nothing proved depends on it.
- `createCart`, `getCart` and `deleteCart` are persistence and response glue. `createCart` also passes the undefined `addedItems` (line 12).
- The response's `__v` stripping and `toObject` are not modelled. The 200 response carries the updated cart record.
- `findById` and `findByIdAndUpdate` are separate awaits. Concurrent requests interleaving between them are not modelled.
- `console.error` logging is not modelled.
- The route file imports `addToCart`, `addToExistingCart`, `removeFromCart` and `clearCart`. These handlers do not exist in the controller and are not part of this model.
- Nothing in the controller calls `mergeCartItems`, so it is modelled on its own.
- The other controllers, middlewares, routes and server bootstrap are not part of this model: product, category and user handling, JWT, bcrypt and Cloudinary.

## Findings

| source | as written | input that shows it | evidently intended | confidence | as-written member | corrected member |
|---|---|---|---|---|---|---|
| src/controllers/cart.controller.js:80 | `await cartCreation(payload, addedItems)` evaluates the undefined identifier `addedItems`. This throws a ReferenceError once the cart has been found, so the handler answers 500 "addedItems is not defined" and never reaches the update at 82-86. | Any update request whose products all resolve, for the id of an existing cart. | The items were already processed at line 68 and the call's result is unused, so line 80 does nothing useful: the cart is updated and 200 returned. | not executed; high | CartController.CartStore.UpdateCartAsWritten | CartController.CartStore.UpdateCart |
