/** The four cart route handlers of backend/routes/cart.js over the one
    persisted cart. `CartStore.cart` is the stored cart document (null
    while none exists); the catalogue is the product store as the request
    sees it. Each handler is one atomic, single-writer step. Where a
    handler fails after changing its freshly loaded copy of the cart, the
    copy is never saved, so the stored cart is left as it was. */
module CartRoutes {
  import opened CartItems
  import opened CartTotals

  /** How a handler ends: success, a 404 (missing product, cart or line),
      or a fault caught by the handler (a 400). */
  datatype Status = Ok | NotFound | Error

  /** The cart document: its ordered lines and the stored total. */
  class Cart {
    var items: seq<Line>
    var total: int

    /** A new cart: no lines, total 0. */
    constructor Empty()
      ensures items == [] && total == 0
    {
      items := [];
      total := 0;
    }
  }

  /** First index of a line for `id` in `items`, or -1 (the handlers'
      `find` and `findIndex` searches). */
  method FindIndex(items: seq<Line>, id: ProductId) returns (i: int)
    ensures i == IndexOf(items, id)
  {
    i := 0;
    while i < |items|
      invariant 0 <= i <= |items|
      invariant forall k :: 0 <= k < i ==> items[k].product != id
    {
      if items[i].product == id {
        return;
      }
      i := i + 1;
    }
    i := -1;
  }

  /** The store holding at most one cart. */
  class CartStore {
    var cart: Cart?

    /** An empty store: no cart yet. */
    constructor ()
      ensures cart == null
    {
      cart := null;
    }

    /** The stored lines, none while there is no cart. */
    function Items(): seq<Line>
      reads this, cart
    {
      if cart == null then [] else cart.items
    }

    /** The stored total, 0 while there is no cart. */
    function Total(): int
      reads this, cart
    {
      if cart == null then 0 else cart.total
    }

    /** The store's invariant: the stored cart has at most one line per
        product. */
    predicate Valid()
      reads this, cart
    {
      cart != null ==> NoDuplicates(cart.items)
    }

    /** GET /: the stored cart as it is (its total is not recomputed), or
        a new empty cart when none exists yet. */
    method Get() returns (c: Cart)
      modifies this
      ensures cart == c
      ensures old(cart) == null ==> fresh(c) && c.items == [] && c.total == 0
      ensures old(cart) != null ==> c == old(cart) && c.items == old(cart.items) && c.total == old(cart.total)
      ensures old(Valid()) ==> Valid()
    {
      if cart == null {
        cart := new Cart.Empty();
      }
      c := cart;
    }

    /** POST /add: creates the cart if needed, then adds `quantity` of
        `productId` — merged into its line or appended as a new one — and
        sets the total to the number of units in the cart times the added
        product's price. An unknown product is NotFound, after the cart
        has been created. Neither stock nor the sign of `quantity` is
        checked. */
    method Add(catalogue: Catalogue, productId: ProductId, quantity: int) returns (status: Status)
      modifies this, cart
      ensures cart != null
      ensures old(cart) != null ==> cart == old(cart)
      ensures old(cart) == null ==> fresh(cart)
      ensures productId !in catalogue ==>
        status == NotFound && cart.items == old(Items()) && cart.total == old(Total())
      ensures productId in catalogue ==>
        status == Ok &&
        cart.items == Merged(old(Items()), productId, quantity) &&
        cart.total == QuantitySum(cart.items) * catalogue[productId].price
      ensures old(Valid()) ==> Valid()
    {
      if cart == null {
        cart := new Cart.Empty();
      }
      if productId !in catalogue {
        return NotFound;
      }
      var product := catalogue[productId];
      ghost var before := cart.items;
      var i := FindIndex(cart.items, productId);
      if i >= 0 {
        cart.items := cart.items[i := cart.items[i].(quantity := cart.items[i].quantity + quantity)];
      } else {
        cart.items := cart.items + [Line(productId, quantity)];
      }
      cart.total := FlatTotal(cart.items, product.price);
      if NoDuplicates(before) {
        MergedKeepsNoDuplicates(before, productId, quantity);
      }
      status := Ok;
    }

    /** PUT /update/:productId: with no cart, or no line for `productId`,
        NotFound. Otherwise the line is dropped (`quantity <= 0`) or gets
        quantity `quantity`, and the total is recomputed from each
        remaining line's current price; when some remaining line's product
        is gone from the catalogue the handler faults and nothing is
        saved. */
    method Update(catalogue: Catalogue, productId: ProductId, quantity: int) returns (status: Status)
      modifies cart
      ensures cart == old(cart)
      ensures cart == null ==> status == NotFound
      ensures cart != null && !HasLine(old(cart.items), productId) ==>
        status == NotFound && cart.items == old(cart.items) && cart.total == old(cart.total)
      ensures cart != null && HasLine(old(cart.items), productId) ==>
        var next := Updated(old(cart.items), productId, quantity);
        (AllPriced(next, catalogue) ==>
          status == Ok && cart.items == next && cart.total == Worth(next, catalogue)) &&
        (!AllPriced(next, catalogue) ==>
          status == Error && cart.items == old(cart.items) && cart.total == old(cart.total))
      ensures old(Valid()) ==> Valid()
    {
      if cart == null {
        return NotFound;
      }
      var i := FindIndex(cart.items, productId);
      if i == -1 {
        return NotFound;
      }
      var items := cart.items;
      if quantity <= 0 {
        items := items[..i] + items[i + 1..];
      } else {
        items := items[i := items[i].(quantity := quantity)];
      }
      var total := PricedTotal(items, catalogue);
      if total.None? {
        return Error;
      }
      PricedTotalIsWorth(items, catalogue);
      if NoDuplicates(cart.items) {
        UpdatedKeepsNoDuplicates(cart.items, productId, quantity);
      }
      cart.items, cart.total := items, total.value;
      status := Ok;
    }

    /** DELETE /remove/:productId: with no cart, NotFound. Otherwise every
        line for `productId` is filtered out (none is fine) and the total
        is recomputed from each remaining line's current price; when some
        remaining line's product is gone from the catalogue the handler
        faults and nothing is saved. */
    method Remove(catalogue: Catalogue, productId: ProductId) returns (status: Status)
      modifies cart
      ensures cart == old(cart)
      ensures cart == null ==> status == NotFound
      ensures cart != null ==>
        var next := Without(old(cart.items), productId);
        (AllPriced(next, catalogue) ==>
          status == Ok && cart.items == next && cart.total == Worth(next, catalogue)) &&
        (!AllPriced(next, catalogue) ==>
          status == Error && cart.items == old(cart.items) && cart.total == old(cart.total))
      ensures old(Valid()) ==> Valid()
    {
      if cart == null {
        return NotFound;
      }
      var items := Without(cart.items, productId);
      var total := PricedTotal(items, catalogue);
      if total.None? {
        return Error;
      }
      PricedTotalIsWorth(items, catalogue);
      if NoDuplicates(cart.items) {
        WithoutKeepsNoDuplicates(cart.items, productId);
      }
      cart.items, cart.total := items, total.value;
      status := Ok;
    }
  }
}
