# Shopping-cart hook: cart rules

A Dafny model of the cart state kept by the storefront's cart provider
(`src/hooks/useCart.tsx`). The cart is an ordered sequence of products. Each
product has an `id`, an `amount` and catalog details. Three operations replace
the cart:

- **add** (`addProduct`) is refused if the id is already in the cart. It is also
  refused if the stock service reports fewer than one unit. Otherwise the
  catalog record is appended with `amount = 1`.
- **remove** (`removeProduct`) is refused if the id is not in the cart.
  Otherwise the lines with that id are filtered out.
- **update quantity** (`updateProductAmount`) is refused if the id is not in
  the cart. Otherwise the cart is rebuilt. The matching line's amount grows by
  `delta` only when the reported stock is strictly greater than the amount it
  would reach. When the stock is too low, nothing changes and no error is
  raised. There is no lower bound on the new amount.

The services are parameters. `stock` is the amount returned by `GET
stock/{id}`. `fetched` is the record returned by `GET products/{id}`. The error
notification becomes an `Outcome`: `Ok` or `Rejected(reason)`.

All of it is in `use_cart.dfy`, module `UseCart`:

- The pure functions `Add`, `Remove` and `UpdateAmount` each return the new
  cart and the outcome.
- The class `CartManager` holds the `cart` state. Its three methods are
  proved to agree with those functions.
- The `cart.map` pass of the update is the loop method `RebuildCart`.
- The invariant "no two lines share an id" is proved for every operation,
  whether it succeeds or fails, and for any sequence of operations (`Run`).

The add path appends the catalog record as returned and never compares its id
with the requested one. Add therefore keeps ids unique only when the catalog
returns the record of the product asked for (`CatalogAgrees`).

## Model

| member | source | states |
|---|---|---|
| `UseCart.Contains` | src/hooks/useCart.tsx:37 | Definition of the `cart.find` guard (also at lines 76 and 100): some line of the cart carries the id. Its contract restates this over the lines rather than their indices; it is a definition, not a proved property |
| `UseCart.Add` | src/hooks/useCart.tsx:35-72 | Refused with AlreadyInCart exactly when the id is in the cart. Refused with OutOfStock exactly when it is not and stock < 1. Ok exactly when it is not and stock >= 1. A refusal leaves the cart unchanged. Success keeps the old cart as a prefix and adds exactly one line at the end: the fetched record's id and details, with amount 1 |
| `UseCart.Filtered` | src/hooks/useCart.tsx:77-79 | Every value in the result is a line of the cart with a different id, and every such line appears in it. The filter never grows the cart, and it shrinks it when the id is present. Order and multiplicity are given by `FilteredAppend` |
| `UseCart.FilteredAppend` | src/hooks/useCart.tsx:77-79 | Filtering `a + b` is filtering `a` followed by filtering `b`. With the one-line case of the definition, this means every kept line stays, as many times as it occurs and in its original order, for any cart, unique ids or not |
| `UseCart.FilteredAbsent` | src/hooks/useCart.tsx:77-79 | Filtering an id that is not in the cart gives the same cart back |
| `UseCart.FilteredUnique` | src/hooks/useCart.tsx:77-79 | Filtering preserves "no two lines share an id" |
| `UseCart.FilteredAt` | src/hooks/useCart.tsx:77-79 | With unique ids, filtering the id of line k gives `cart[..k] + cart[k+1..]`: only that line goes, and the others keep their order |
| `UseCart.Remove` | src/hooks/useCart.tsx:74-93 | Ok exactly when the id is in the cart. Otherwise the result is NotInCart and the cart is unchanged. On success no line has that id and the cart is shorter. The remaining values are exactly the other lines; the contract states that the new cart is `Filtered` of the old one, so its order and multiplicity follow from `FilteredAppend` |
| `UseCart.RemoveAt` | src/hooks/useCart.tsx:76-79 | With unique ids, removing the id of line k succeeds. The result is `cart[..k] + cart[k+1..]`, one line shorter |
| `UseCart.Bump` | src/hooks/useCart.tsx:104-106 | The `map` callback never changes a line's id or details, and leaves a line with another id as it is. For the matching id, the amount becomes old + delta when the reported stock is strictly greater than old + delta. Otherwise, and for every other id, it stays the same |
| `UseCart.Rebuilt` | src/hooks/useCart.tsx:103-107 | The rebuilt cart has the old cart's length, and each line keeps its id and details. Lines with another id are unchanged. A matching line's amount becomes old + delta when stock > old + delta and stays old otherwise. It has unique ids exactly when the old cart had them |
| `UseCart.RebuildCart` | src/hooks/useCart.tsx:103-107 | The loop over the cart returns exactly the rebuilt cart `Rebuilt`: each line is changed by the stock-guarded increment and by nothing else |
| `UseCart.UpdateAmount` | src/hooks/useCart.tsx:95-123 | Ok exactly when the id is in the cart. Otherwise the result is NotInCart and the cart is unchanged. Length, ids, details and order are kept. Lines with other ids are untouched. A matching line's amount becomes old + delta when stock > old + delta, and stays old otherwise, with no error |
| `UseCart.UpdateAt` | src/hooks/useCart.tsx:103-108 | With unique ids, updating the id of line k succeeds and changes line k's amount alone, to the guarded value. When stock <= amount + delta, the cart after the update equals the old one |
| `UseCart.UpdateHasNoLowerBound` | src/hooks/useCart.tsx:104-105 | A cart whose amounts are all at least 1 can be driven below 1 by one update: amount 1, delta -3 and stock 10 give amount -2 |
| `UseCart.ApplyPreservesUnique` | src/hooks/useCart.tsx:35-123 | Every operation keeps ids unique, whether it succeeds or is refused. For add this holds when the catalog record has the requested id |
| `UseCart.RunPreservesUnique` | src/hooks/useCart.tsx:35-123 | Any sequence of operations keeps ids unique, given that condition on every add |
| `UseCart.AddRemoveKeepAmounts` | src/hooks/useCart.tsx:35-93 | Add and remove keep every amount at least 1. Update is left out of this lemma on purpose (see `UpdateHasNoLowerBound`) |
| `UseCart.CappedThenAccepted` | src/hooks/useCart.tsx:35-123 | Adding product 5 with stock 3 gives amount 1. Raising the amount by 2 with stock 3 is capped (3 is not > 1 + 2), so the amount stays 1. Raising it by 2 with stock 10 then gives amount 3 |
| `UseCart.CartManager.constructor` | src/hooks/useCart.tsx:25-33 | The provider starts with an empty cart |
| `UseCart.CartManager.AddProduct` | src/hooks/useCart.tsx:35-72 | The new cart and the outcome are those of `Add` on the old cart. Ids stay unique when the fetched record has the requested id |
| `UseCart.CartManager.RemoveProduct` | src/hooks/useCart.tsx:74-93 | The new cart and the outcome are those of `Remove` on the old cart. Ids stay unique |
| `UseCart.CartManager.UpdateProductAmount` | src/hooks/useCart.tsx:95-123 | The new cart, built by the `RebuildCart` loop, and the outcome are those of `UpdateAmount` on the old cart. Ids stay unique |

## Left out

- React context, provider rendering and the `useCart` accessor (src/hooks/useCart.tsx:22, 125-138). They are framework wiring.
- The HTTP calls to the stock and catalog services (src/hooks/useCart.tsx:40, 43, 101). They are foreign I/O. Their answers are the parameters `stock` and `fetched`, and service failures are not modelled.
- The success and error notifications and their display options. An `Outcome` value stands in for them. `Ok` means that no error notification is raised.
- The commented-out restore from local storage (src/hooks/useCart.tsx:26-30). It is inert.
- Asynchrony. Overlapping calls that each work from a stale cart snapshot, and so lose updates, are not modelled. In the code the no-stock `throw` (line 58) runs inside a promise callback, so it escapes the surrounding `try` as an unhandled rejection. The model reports it as `Rejected(OutOfStock)` with the cart unchanged.
- Aliasing. `updateProductAmount` mutates the product objects inside `map`, and those objects are shared with the previous cart array. The model builds new product values, so changes seen through the old array are not captured.
- JavaScript numbers. Ids, amounts and stock levels are unbounded integers. Fractional values and floating-point rounding are not modelled.
- Product display attributes (name, price, image). They are an opaque `Details` value that the cart carries and never inspects.
