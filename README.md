# Cart store model

A Dafny model of the client-side cart store of the storefront, `src/store/cardStore.ts`.
The cart is an ordered sequence of line items. Each line item has `id`, `title`, `price`, `thumbnail` and `quantity`.
The store exposes four actions and one derived count:

- `addToCart` increases the quantity of the line item that has the product's id. When no such item exists, it appends a new line item at the end.
- `removeFromCart` filters out the line items with an id.
- `updateQuantity` sets a quantity absolutely. A quantity of zero or less removes the line item instead.
- `clearCart` empties the cart.
- `useCartCount` sums the quantities.

The model has two modules:

- `CartItems` (cart_items.dfy) holds the data model and the pure transformations the actions compute. Each transformation is a function of the old item sequence: `find`, `map`, `filter`, append and the `reduce` sum. The module also holds the lemmas about them.
- `CartStore` (cart_store.dfy) holds the class `Store`. Its field `items` is the store's state. Its methods assign that field, as the store's `set` calls do. `updateQuantity` calls the store's own `removeFromCart` when the quantity is not positive, as the source does. `useCartItems` is the identity read of `items`. `Store.Valid()` is the cart invariant: ids are unique and every quantity is at least 1. Each method states the new `items` as a function of the old one, and states that the invariant is kept. A client method `Session` replays a short session. It uses these contracts together with the `CartItems` lemmas `AddNew`, `AddExisting`, `UpdateAt` and `RemoveAt`, which describe the carts each step produces.

The methods do not require the invariant or a positive quantity, because the source checks neither. Instead, each method states when the invariant is preserved. `addToCart` keeps it only for a positive quantity. A non-positive quantity on a new product would append a line with quantity ≤ 0. On an existing product it could bring a quantity to ≤ 0. The only caller in the repository, `src/pages/product/products.tsx:13`, passes 1. `addToCart`'s default quantity of 1 is a Dafny default parameter value (`DefaultQuantity`).

The source's `map` updates every line item with the matching id, not only the first. The model does the same. Under the uniqueness invariant there is exactly one such item, and the lemmas that talk about "the" item assume unique ids.

## Model

| member | source | states |
|---|---|---|
| `CartItems.Find` | src/store/cardStore.ts:31 | Finds nothing exactly when no line item has the id. Otherwise it returns the first line item with that id: it sits at some position k, and no item before k has that id. Under unique ids it is the only one. |
| `CartItems.MapItems` | src/store/cardStore.ts:35-37 | The result has the same length, and each position holds the image of the old item at that position. |
| `CartItems.NewItem` | src/store/cardStore.ts:43-49 | The appended line carries the product's id, title, price and thumbnail, with the given quantity. |
| `CartItems.AddToCart` | src/store/cardStore.ts:29-52 | The length grows by at most one. The product's id is present afterwards. The set of ids is the old set plus the product's id. |
| `CartItems.AddExisting` | src/store/cardStore.ts:31-38 | Re-adding a product already in the cart keeps the length. The item at its position gets old quantity + `quantity`, with id, title, price and thumbnail unchanged. Every other item is unchanged. |
| `CartItems.AddNew` | src/store/cardStore.ts:39-52 | Adding an absent product grows the length by one and leaves the old items as a prefix, in order. The last item carries the product's id, title, price and thumbnail and the given quantity. |
| `CartItems.AddKeepsUnique` | src/store/cardStore.ts:29-52 | Adding preserves the uniqueness of ids, for any quantity. |
| `CartItems.AddKeepsWellFormed` | src/store/cardStore.ts:29-52 | With a positive quantity, adding preserves unique ids and "every quantity ≥ 1". |
| `CartItems.AddCount` | src/store/cardStore.ts:29-52 | Under unique ids, adding raises the count by exactly `quantity`, whether it merges or appends. |
| `CartItems.RemoveFromCart` | src/store/cardStore.ts:56-58 | Afterwards no line item has the id, and the cart never grows. |
| `CartItems.RemoveMembers` | src/store/cardStore.ts:57 | An item is kept exactly when it was in the cart and its id differs from the removed one. |
| `CartItems.RemoveAbsent` | src/store/cardStore.ts:57 | Removing an id that is not present leaves the cart unchanged. |
| `CartItems.RemoveConcat` | src/store/cardStore.ts:57 | Removal distributes over concatenation, so the kept items keep their relative order. |
| `CartItems.RemoveAt` | src/store/cardStore.ts:56-58 | Under unique ids, removing the id held at position i gives exactly the cart with position i deleted. |
| `CartItems.RemoveIdempotent` | src/store/cardStore.ts:56-58 | Removing the same id twice gives the same cart as removing it once. |
| `CartItems.RemoveKeepsUnique` | src/store/cardStore.ts:56-58 | Removal preserves the uniqueness of ids, whatever the quantities. |
| `CartItems.RemoveKeepsWellFormed` | src/store/cardStore.ts:56-58 | Removal preserves unique ids and positive quantities. |
| `CartItems.RemoveCount` | src/store/cardStore.ts:56-58 | Under unique ids, removing a present id lowers the count by that line's quantity. |
| `CartItems.SetQuantity` | src/store/cardStore.ts:64 | Keeps the length. Every line keeps its id, title, price and thumbnail. Lines with the id get exactly the given quantity, and all other lines keep theirs. |
| `CartItems.UpdateQuantity` | src/store/cardStore.ts:59-67 | A quantity ≤ 0 has exactly the effect of `RemoveFromCart`. A positive quantity keeps the length. It keeps "every quantity ≥ 1" for any quantity, and never introduces an id. |
| `CartItems.UpdateAt` | src/store/cardStore.ts:62-65 | Under unique ids, a positive update sets the matching line's quantity to exactly the value given (an absolute set). Its other fields, every other line and the length are unchanged. |
| `CartItems.UpdateAbsent` | src/store/cardStore.ts:59-67 | Updating an id that is not present leaves the cart unchanged, whatever the quantity. |
| `CartItems.UpdateKeepsUnique` | src/store/cardStore.ts:59-67 | Updating preserves the uniqueness of ids, for any quantity and whatever the quantities already in the cart. |
| `CartItems.UpdateKeepsWellFormed` | src/store/cardStore.ts:59-67 | Updating preserves unique ids and positive quantities, for any quantity. |
| `CartItems.UpdateCount` | src/store/cardStore.ts:62-65 | Under unique ids, a positive update replaces the line's old quantity by the new one in the count. |
| `CartItems.CartCount` | src/store/cardStore.ts:81-82 | The `reduce` from 0 equals the sum of the quantities of all line items, which is 0 for the empty cart. |
| `CartItems.Reduce` | src/store/cardStore.ts:82 | The left fold from any start value equals that value plus the sum of the quantities. |
| `CartItems.CountBounds` | src/store/cardStore.ts:81-82 | When every quantity is ≥ 1, the count is at least the number of lines, and it is 0 exactly when the cart is empty. |
| `CartItems.SessionScenario` | src/store/cardStore.ts:29-67 | Starting empty: add product 1 with quantity 2 (count 2), add it again with quantity 3 (one line, quantity 5, count 5), set its quantity to 1, then to 0 (empty cart). |
| `CartStore.Store.constructor` | src/store/cardStore.ts:27 | A new store has no items and satisfies the invariant. |
| `CartStore.Store.Count` | src/store/cardStore.ts:81-82 | The count is the sum of quantities. Under the invariant it is at least the number of lines, and 0 exactly for an empty cart. |
| `CartStore.Store.AddToCart` | src/store/cardStore.ts:29-55 | The new `items` is `AddToCart` of the old. The invariant is kept when the quantity is positive. Unique ids are kept for any quantity, and the count then grows by `quantity`. |
| `CartStore.Store.RemoveFromCart` | src/store/cardStore.ts:56-58 | The new `items` is `RemoveFromCart` of the old. No item with the id remains. The invariant is kept, and unique ids are kept on their own. |
| `CartStore.Store.UpdateQuantity` | src/store/cardStore.ts:59-67 | The new `items` is `UpdateQuantity` of the old. The invariant is kept, and unique ids are kept on their own. |
| `CartStore.Store.ClearCart` | src/store/cardStore.ts:68 | Whatever the prior state, `items` becomes empty, the invariant holds and the count is 0. |

## Left out

- The success toast after `addToCart` (src/store/cardStore.ts:54) is left out. It is a foreign notification call with no effect on the cart.
- Persistence through the zustand `persist` middleware and `localStorage` (src/store/cardStore.ts:25, 71-75) is left out. It is library code and browser I/O. The storage key is `cartStore` (line 72). `partialize` stores `items` under the property `StorageEnum.Cart` (line 74); that enum is not part of this model. Rehydration is hidden in the library. So no serialisation round-trip and no "malformed storage reads as empty" behaviour is claimed. A store is always constructed empty.
- The zustand `create` wrapper, the hook selectors and React re-render subscription are left out. They are library plumbing. `useCartItems` is the identity read of the `items` field.
- `id` and `quantity` are JavaScript numbers; the model uses unbounded integers, so fractional or non-finite quantities are not modelled. `price` is carried as a `real` and `thumbnail` as a string; the store never computes with either.
- The `product` argument is untyped (`any`) in the source. The model reads exactly the four fields the store uses (`Product`), so missing fields are not modelled.
- The floating-point cart total in src/layouts/components/shopping-card.tsx:28 and the discounted price in src/pages/product/products.tsx:44 are left out. They are display code outside the store and use floating-point arithmetic.
- CartStore.Store.AddToCart: the invariant is promised only for a positive quantity, because the source accepts any quantity and a non-positive one can break "every quantity ≥ 1".
