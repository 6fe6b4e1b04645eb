/** The cart rules of the shopping-cart hook: adding a product, removing a
    product and changing a product's quantity. The stock service and the
    catalog service become parameters (the stock level reported for the
    product, the catalog record fetched for it), and the notification an
    operation raises becomes an Outcome. */
module UseCart {

  /** Catalog attributes shown by the storefront; the cart carries them untouched. */
  datatype Details = Details(title: string, price: real, image: string)

  /** A cart line: the catalog record together with the quantity the hook keeps in it. */
  datatype Product = Product(id: int, amount: int, details: Details)

  /** The error an operation raises. AlreadyInCart and NotInCart reach the error
      notification; OutOfStock is thrown inside a promise callback, so it escapes
      the handler and shows no notification. */
  datatype Reason = AlreadyInCart | OutOfStock | NotInCart

  /** Ok when no error is raised, otherwise the error raised. */
  datatype Outcome = Ok | Rejected(reason: Reason)

  /** The cart an operation leaves behind, with its outcome. */
  datatype Step = Step(cart: seq<Product>, outcome: Outcome)

  /** Some line of the cart has this id (the `cart.find` guard). */
  function Contains(cart: seq<Product>, productId: int): (found: bool)
    ensures found <==> exists p | p in cart :: p.id == productId
  {
    exists i | 0 <= i < |cart| :: cart[i].id == productId
  }

  /** No two lines of the cart share an id. */
  predicate UniqueIds(cart: seq<Product>)
  {
    forall i, j | 0 <= i < j < |cart| :: cart[i].id != cart[j].id
  }

  /** Every line holds at least one unit. */
  predicate AmountsAtLeastOne(cart: seq<Product>)
  {
    forall i | 0 <= i < |cart| :: cart[i].amount >= 1
  }

  // ---------------------------------------------------------------------
  // addProduct
  // ---------------------------------------------------------------------

  /** Adding `productId` when the stock service reports `stock` units and the
      catalog service returns `fetched`. */
  function Add(cart: seq<Product>, productId: int, stock: int, fetched: Product): (r: Step)
    ensures r.outcome == Rejected(AlreadyInCart) <==> Contains(cart, productId)
    ensures r.outcome == Rejected(OutOfStock) <==> !Contains(cart, productId) && stock < 1
    ensures r.outcome == Ok <==> !Contains(cart, productId) && stock >= 1
    ensures r.outcome != Ok ==> r.cart == cart
    ensures r.outcome == Ok ==>
      |r.cart| == |cart| + 1 && r.cart[..|cart|] == cart &&
      r.cart[|cart|].id == fetched.id && r.cart[|cart|].amount == 1 &&
      r.cart[|cart|].details == fetched.details
  {
    if Contains(cart, productId) then Step(cart, Rejected(AlreadyInCart))
    else if stock >= 1 then Step(cart + [fetched.(amount := 1)], Ok)
    else Step(cart, Rejected(OutOfStock))
  }

  // ---------------------------------------------------------------------
  // removeProduct
  // ---------------------------------------------------------------------

  /** The cart without the lines whose id is `productId`, others kept in order. */
  function Filtered(cart: seq<Product>, productId: int): (r: seq<Product>)
    ensures |r| <= |cart|
    ensures forall p :: p in r <==> p in cart && p.id != productId
    ensures Contains(cart, productId) ==> |r| < |cart|
  {
    if cart == [] then []
    else if cart[0].id != productId then
      assert Contains(cart, productId) ==> Contains(cart[1..], productId) by {
        if Contains(cart, productId) {
          var i :| 0 <= i < |cart| && cart[i].id == productId;
          assert cart[1..][i - 1].id == productId;
        }
      }
      [cart[0]] + Filtered(cart[1..], productId)
    else Filtered(cart[1..], productId)
  }

  /** Filtering an id that is not in the cart leaves the cart as it is. */
  lemma {:induction false} FilteredAbsent(cart: seq<Product>, productId: int)
    requires !Contains(cart, productId)
    ensures Filtered(cart, productId) == cart
  {
    if cart != [] {
      assert cart[0].id != productId;
      assert !Contains(cart[1..], productId) by {
        forall i | 0 <= i < |cart[1..]| ensures cart[1..][i].id != productId {
          assert cart[1..][i] == cart[i + 1];
        }
      }
      FilteredAbsent(cart[1..], productId);
      assert cart == [cart[0]] + cart[1..];
    }
  }

  /** Filtering keeps ids unique. */
  lemma {:induction false} FilteredUnique(cart: seq<Product>, productId: int)
    requires UniqueIds(cart)
    ensures UniqueIds(Filtered(cart, productId))
  {
    if cart != [] {
      var rest := cart[1..];
      assert UniqueIds(rest) by {
        forall i, j | 0 <= i < j < |rest| ensures rest[i].id != rest[j].id {
          assert rest[i] == cart[i + 1] && rest[j] == cart[j + 1];
        }
      }
      FilteredUnique(rest, productId);
      if cart[0].id != productId {
        var tail := Filtered(rest, productId);
        var r := [cart[0]] + tail;
        forall i, j | 0 <= i < j < |r| ensures r[i].id != r[j].id {
          if i == 0 {
            assert r[j] == tail[j - 1] && tail[j - 1] in rest;
            var k :| 0 <= k < |rest| && rest[k] == tail[j - 1];
            assert rest[k] == cart[k + 1];
          } else {
            assert r[i] == tail[i - 1] && r[j] == tail[j - 1];
          }
        }
      }
    }
  }

  /** Removing `productId`. */
  function Remove(cart: seq<Product>, productId: int): (r: Step)
    ensures r.outcome == Ok <==> Contains(cart, productId)
    ensures r.outcome != Ok ==> r == Step(cart, Rejected(NotInCart))
    ensures r.outcome == Ok ==> r.cart == Filtered(cart, productId)
    ensures r.outcome == Ok ==>
      !Contains(r.cart, productId) && |r.cart| < |cart| &&
      forall p :: p in r.cart <==> p in cart && p.id != productId
  {
    if Contains(cart, productId) then
      var rest := Filtered(cart, productId);
      assert !Contains(rest, productId) by {
        forall i | 0 <= i < |rest| ensures rest[i].id != productId {
          assert rest[i] in rest;
        }
      }
      Step(rest, Ok)
    else Step(cart, Rejected(NotInCart))
  }

  /** Filtering distributes over concatenation: together with the one-line case
      of its definition, the filter keeps every other line, as many times as it
      occurs and in its original order, whether or not ids are unique. */
  lemma {:induction false} FilteredAppend(a: seq<Product>, b: seq<Product>, productId: int)
    ensures Filtered(a + b, productId) == Filtered(a, productId) + Filtered(b, productId)
  {
    if a != [] {
      assert (a + b)[1..] == a[1..] + b;
      FilteredAppend(a[1..], b, productId);
    } else {
      assert a + b == b;
    }
  }

  /** In a cart with unique ids, filtering the id of line k cuts out exactly
      that line and keeps every other line in its original order. */
  lemma {:induction false} FilteredAt(cart: seq<Product>, k: nat)
    requires UniqueIds(cart) && k < |cart|
    ensures Filtered(cart, cart[k].id) == cart[..k] + cart[k + 1..]
  {
    var productId := cart[k].id;
    var rest := cart[1..];
    if k == 0 {
      assert !Contains(rest, productId) by {
        forall i | 0 <= i < |rest| ensures rest[i].id != productId {
          assert rest[i] == cart[i + 1];
        }
      }
      FilteredAbsent(rest, productId);
    } else {
      assert UniqueIds(rest) by {
        forall i, j | 0 <= i < j < |rest| ensures rest[i].id != rest[j].id {
          assert rest[i] == cart[i + 1] && rest[j] == cart[j + 1];
        }
      }
      assert cart[0].id != productId;
      assert rest[k - 1] == cart[k];
      FilteredAt(rest, k - 1);
      assert cart[..k] == [cart[0]] + rest[..k - 1];
      assert cart[k + 1..] == rest[k..];
    }
  }

  /** In a cart with unique ids, removing the id of line k succeeds and leaves
      one line fewer: every line but line k, in its original order. */
  lemma RemoveAt(cart: seq<Product>, k: nat)
    requires UniqueIds(cart) && k < |cart|
    ensures Remove(cart, cart[k].id) == Step(cart[..k] + cart[k + 1..], Ok)
    ensures |Remove(cart, cart[k].id).cart| == |cart| - 1
  {
    FilteredAt(cart, k);
  }

  // ---------------------------------------------------------------------
  // updateProductAmount
  // ---------------------------------------------------------------------

  /** One product as the `cart.map` callback leaves it: its quantity grows by
      `delta` only when the reported stock exceeds the quantity it would reach. */
  function Bump(product: Product, productId: int, stock: int, delta: int): (r: Product)
    ensures r.id == product.id && r.details == product.details
    ensures product.id != productId ==> r == product
    ensures r.amount == product.amount ||
      (product.id == productId && r.amount == product.amount + delta && r.amount < stock)
    ensures product.id == productId && stock > product.amount + delta ==>
      r.amount == product.amount + delta
  {
    if product.id == productId && stock > product.amount + delta then
      product.(amount := product.amount + delta)
    else product
  }

  /** The rebuilt cart of the update, line by line. It keeps the cart's
      length, ids and details, so it keeps ids unique exactly when they were. */
  function Rebuilt(cart: seq<Product>, productId: int, stock: int, delta: int): (r: seq<Product>)
    ensures |r| == |cart|
    ensures forall i | 0 <= i < |r| :: r[i].id == cart[i].id && r[i].details == cart[i].details
    ensures forall i | 0 <= i < |r| && cart[i].id != productId :: r[i] == cart[i]
    ensures forall i | 0 <= i < |r| && cart[i].id == productId ::
      r[i].amount ==
        if stock > cart[i].amount + delta then cart[i].amount + delta else cart[i].amount
    ensures UniqueIds(r) <==> UniqueIds(cart)
  {
    seq(|cart|, i requires 0 <= i < |cart| => Bump(cart[i], productId, stock, delta))
  }

  /** The `cart.map` pass of the update, walking the cart line by line. */
  method RebuildCart(cart: seq<Product>, productId: int, stock: int, delta: int)
    returns (newCart: seq<Product>)
    ensures newCart == Rebuilt(cart, productId, stock, delta)
  {
    newCart := [];
    var i := 0;
    while i < |cart|
      invariant 0 <= i <= |cart|
      invariant |newCart| == i
      invariant forall j | 0 <= j < i :: newCart[j] == Bump(cart[j], productId, stock, delta)
    {
      var product := cart[i];
      if product.id == productId && stock > product.amount + delta {
        product := product.(amount := product.amount + delta);
      }
      newCart := newCart + [product];
      i := i + 1;
    }
  }

  /** Changing the quantity of `productId` by `delta` when the stock service
      reports `stock` units. There is no lower bound on the new quantity. */
  function UpdateAmount(cart: seq<Product>, productId: int, stock: int, delta: int): (r: Step)
    ensures r.outcome == Ok <==> Contains(cart, productId)
    ensures r.outcome != Ok ==> r == Step(cart, Rejected(NotInCart))
    ensures |r.cart| == |cart|
    ensures forall i | 0 <= i < |cart| ::
      r.cart[i].id == cart[i].id && r.cart[i].details == cart[i].details
    ensures forall i | 0 <= i < |cart| && cart[i].id != productId :: r.cart[i] == cart[i]
    ensures forall i | 0 <= i < |cart| && cart[i].id == productId ::
      r.cart[i].amount ==
        if stock > cart[i].amount + delta then cart[i].amount + delta else cart[i].amount
  {
    if Contains(cart, productId) then Step(Rebuilt(cart, productId, stock, delta), Ok)
    else Step(cart, Rejected(NotInCart))
  }

  /** With unique ids, the update touches line k alone. */
  lemma UpdateAt(cart: seq<Product>, k: nat, stock: int, delta: int)
    requires UniqueIds(cart) && k < |cart|
    ensures var r := UpdateAmount(cart, cart[k].id, stock, delta);
      r.outcome == Ok &&
      r.cart == cart[k := cart[k].(amount :=
        if stock > cart[k].amount + delta then cart[k].amount + delta else cart[k].amount)]
    ensures stock <= cart[k].amount + delta ==> UpdateAmount(cart, cart[k].id, stock, delta).cart == cart
  {
  }

  /** The update has no lower bound: a line holding one unit can be driven
      below one (the stock bound is the only check). */
  lemma UpdateHasNoLowerBound(details: Details)
    ensures var line := Product(5, 1, details);
      AmountsAtLeastOne([line]) &&
      UpdateAmount([line], 5, 10, -3) == Step([line.(amount := -2)], Ok) &&
      !AmountsAtLeastOne(UpdateAmount([line], 5, 10, -3).cart)
  {
  }

  // ---------------------------------------------------------------------
  // Sequences of operations
  // ---------------------------------------------------------------------

  /** A call of one of the three operations, with the service responses it sees. */
  datatype Request =
    | AddRequest(productId: int, stock: int, fetched: Product)
    | RemoveRequest(productId: int)
    | UpdateRequest(productId: int, stock: int, delta: int)

  /** The cart and outcome one request leaves behind. */
  function Apply(cart: seq<Product>, request: Request): (r: Step)
  {
    match request
    case AddRequest(productId, stock, fetched) => Add(cart, productId, stock, fetched)
    case RemoveRequest(productId) => Remove(cart, productId)
    case UpdateRequest(productId, stock, delta) => UpdateAmount(cart, productId, stock, delta)
  }

  /** The cart after the requests, one after another, from `cart`. */
  function Run(cart: seq<Product>, requests: seq<Request>): (r: seq<Product>)
    decreases |requests|
  {
    if requests == [] then cart
    else Run(Apply(cart, requests[0]).cart, requests[1..])
  }

  /** The catalog answers an add with the record of the product asked for. */
  predicate CatalogAgrees(request: Request)
  {
    request.AddRequest? ==> request.fetched.id == request.productId
  }

  /** Every operation, successful or not, keeps ids unique. */
  lemma ApplyPreservesUnique(cart: seq<Product>, request: Request)
    requires UniqueIds(cart) && CatalogAgrees(request)
    ensures UniqueIds(Apply(cart, request).cart)
  {
    match request
    case AddRequest(productId, stock, fetched) =>
    case RemoveRequest(productId) =>
      FilteredUnique(cart, productId);
    case UpdateRequest(productId, stock, delta) =>
  }

  /** Any sequence of operations keeps ids unique. */
  lemma {:induction false} RunPreservesUnique(cart: seq<Product>, requests: seq<Request>)
    requires UniqueIds(cart)
    requires forall i | 0 <= i < |requests| :: CatalogAgrees(requests[i])
    ensures UniqueIds(Run(cart, requests))
    decreases |requests|
  {
    if requests != [] {
      ApplyPreservesUnique(cart, requests[0]);
      var rest := requests[1..];
      assert forall i | 0 <= i < |rest| :: CatalogAgrees(rest[i]) by {
        forall i | 0 <= i < |rest| ensures CatalogAgrees(rest[i]) {
          assert rest[i] == requests[i + 1];
        }
      }
      RunPreservesUnique(Apply(cart, requests[0]).cart, rest);
    }
  }

  /** Adding and removing keep every quantity at least one; updating may not. */
  lemma AddRemoveKeepAmounts(cart: seq<Product>, request: Request)
    requires AmountsAtLeastOne(cart) && !request.UpdateRequest?
    ensures AmountsAtLeastOne(Apply(cart, request).cart)
  {
  }

  /** A stock of three does not let one unit grow by two; a stock of ten does. */
  lemma CappedThenAccepted(details: Details)
    ensures var item := Product(5, 0, details);
      var added := AddRequest(5, 3, item);
      Run([], [added]) == [item.(amount := 1)] &&
      Run([], [added, UpdateRequest(5, 3, 2)]) == [item.(amount := 1)] &&
      Run([], [added, UpdateRequest(5, 3, 2), UpdateRequest(5, 10, 2)]) == [item.(amount := 3)]
  {
    var item := Product(5, 0, details);
    var one := [item.(amount := 1)];
    assert Contains(one, 5) by { assert one[0].id == 5; }
    var three := [item.(amount := 3)];
    var added := AddRequest(5, 3, item);
    assert Run([], [added]) == Run(one, []);
    assert Run([], [added, UpdateRequest(5, 3, 2)]) == Run(one, [UpdateRequest(5, 3, 2)]);
    assert Run(one, [UpdateRequest(5, 3, 2)]) == Run(one, []);
    assert Run([], [added, UpdateRequest(5, 3, 2), UpdateRequest(5, 10, 2)])
        == Run(one, [UpdateRequest(5, 3, 2), UpdateRequest(5, 10, 2)]);
    assert Run(one, [UpdateRequest(5, 3, 2), UpdateRequest(5, 10, 2)])
        == Run(one, [UpdateRequest(5, 10, 2)]);
    assert Run(one, [UpdateRequest(5, 10, 2)]) == Run(three, []);
  }

  // ---------------------------------------------------------------------
  // The provider's state
  // ---------------------------------------------------------------------

  /** The cart state the provider holds; every operation replaces it. */
  class CartManager {
    var cart: seq<Product>

    /** The provider starts with an empty cart. */
    constructor ()
      ensures cart == []
    {
      cart := [];
    }

    method AddProduct(productId: int, stock: int, fetched: Product) returns (outcome: Outcome)
      modifies this
      ensures Step(cart, outcome) == Add(old(cart), productId, stock, fetched)
      ensures UniqueIds(old(cart)) && fetched.id == productId ==> UniqueIds(cart)
    {
      if Contains(cart, productId) {
        outcome := Rejected(AlreadyInCart);
      } else if stock >= 1 {
        cart := cart + [fetched.(amount := 1)];
        outcome := Ok;
      } else {
        outcome := Rejected(OutOfStock);
      }
    }

    method RemoveProduct(productId: int) returns (outcome: Outcome)
      modifies this
      ensures Step(cart, outcome) == Remove(old(cart), productId)
      ensures UniqueIds(old(cart)) ==> UniqueIds(cart)
    {
      if Contains(cart, productId) {
        if UniqueIds(cart) {
          FilteredUnique(cart, productId);
        }
        cart := Filtered(cart, productId);
        outcome := Ok;
      } else {
        outcome := Rejected(NotInCart);
      }
    }

    method UpdateProductAmount(productId: int, stock: int, delta: int) returns (outcome: Outcome)
      modifies this
      ensures Step(cart, outcome) == UpdateAmount(old(cart), productId, stock, delta)
      ensures UniqueIds(old(cart)) ==> UniqueIds(cart)
    {
      if Contains(cart, productId) {
        var newCart := RebuildCart(cart, productId, stock, delta);
        cart := newCart;
        outcome := Ok;
      } else {
        outcome := Rejected(NotInCart);
      }
    }
  }
}
