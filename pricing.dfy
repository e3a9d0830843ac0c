/** Price resolution and order arithmetic, shared by the checkout
    (services/store.tsx:190-206), the cart and checkout totals
    (App.tsx:354-357, 418-421), the manual-order form
    (pages/Dashboard.tsx:401-421) and the invoice (pages/Dashboard.tsx:112). */
module Pricing {
  import opened Types

  /** JavaScript's `Math.round`: the nearest integer, a half rounded up. */
  function Round(x: real): (n: int)
    ensures x - 0.5 < n as real <= x + 0.5
  {
    (x + 0.5).Floor
  }

  /** Rounding commutes with adding a whole number. */
  lemma RoundShift(n: int, x: real)
    ensures Round(n as real + x) == n + Round(x)
  {
    var a, b := Round(n as real + x), n + Round(x);
    assert a as real - b as real < 1.0 && b as real - a as real < 1.0;
  }

  /** The price a buyer pays per unit: the distributor price on a wholesale
      sale, the MRP otherwise. */
  function UnitPrice(p: Product, wholesale: bool): real {
    if wholesale then p.distributorPrice else p.mrp
  }

  /** An order is wholesale exactly when its buyer is a distributor
      (services/store.tsx:212, pages/Dashboard.tsx:426). */
  function OrderTypeFor(role: Role): (t: OrderType)
    ensures t == WHOLESALE <==> role == DISTRIBUTOR
  {
    if role == DISTRIBUTOR then WHOLESALE else RETAIL
  }

  function LineTotal(item: CartItem, wholesale: bool): real {
    UnitPrice(item.product, wholesale) * item.quantity as real
  }

  /** `items.reduce((sum, item) => sum + price * item.quantity, 0)`: the sum
      of the line totals, folded from the left as `reduce` does. */
  function Subtotal(items: seq<CartItem>, wholesale: bool): real
    decreases |items|
  {
    if items == [] then 0.0
    else Subtotal(items[..|items| - 1], wholesale) + LineTotal(items[|items| - 1], wholesale)
  }

  /** The subtotal of a concatenation is the sum of the subtotals, so the
      fold's order does not matter. */
  lemma {:induction false} SubtotalAppend(a: seq<CartItem>, b: seq<CartItem>, wholesale: bool)
    ensures Subtotal(a + b, wholesale) == Subtotal(a, wholesale) + Subtotal(b, wholesale)
    decreases |b|
  {
    if b == [] {
      assert a + b == a;
    } else {
      var b' := b[..|b| - 1];
      assert (a + b)[..|a + b| - 1] == a + b';
      assert (a + b)[|a + b| - 1] == b[|b| - 1];
      SubtotalAppend(a, b', wholesale);
    }
  }

  /** With non-negative quantities, and a distributor price never above the
      MRP, a wholesale subtotal is never above the retail one and neither is
      negative. */
  lemma {:induction false} WholesaleNotAboveRetail(items: seq<CartItem>)
    requires forall i :: 0 <= i < |items| ==> items[i].quantity >= 0
    requires forall i :: 0 <= i < |items| ==>
      0.0 <= items[i].product.distributorPrice <= items[i].product.mrp
    ensures 0.0 <= Subtotal(items, true) <= Subtotal(items, false)
    decreases |items|
  {
    if items != [] {
      var last := items[|items| - 1];
      WholesaleNotAboveRetail(items[..|items| - 1]);
      assert last.product.distributorPrice * last.quantity as real <= last.product.mrp * last.quantity as real;
    }
  }

  /** 5% GST (services/store.tsx:195, pages/Dashboard.tsx:412). */
  const TaxRate: real := 0.05

  /** `Math.round(subtotal * 0.05)`: the tax to the nearest rupee. */
  function TaxAmount(subtotal: real): (t: int)
    ensures subtotal * TaxRate - 0.5 < t as real <= subtotal * TaxRate + 0.5
  {
    Round(subtotal * TaxRate)
  }

  /** `Math.round(subtotal + subtotal * 0.05)`: the total is rounded on its
      own, not as the rounded subtotal plus the rounded tax. */
  function TotalAmount(subtotal: real): (t: int)
    ensures subtotal * (1.0 + TaxRate) - 0.5 < t as real <= subtotal * (1.0 + TaxRate) + 0.5
  {
    Round(subtotal + subtotal * TaxRate)
  }

  /** Because tax and total are rounded separately, total minus tax (the
      invoice's displayed subtotal) stays strictly within one rupee of the
      real subtotal... */
  lemma TotalMinusTaxNear(subtotal: real)
    ensures subtotal - 1.0 < (TotalAmount(subtotal) - TaxAmount(subtotal)) as real < subtotal + 1.0
  {
  }

  /** ...and equals it exactly whenever the subtotal is a whole number of rupees. */
  lemma TotalMinusTaxExact(n: int)
    ensures TotalAmount(n as real) - TaxAmount(n as real) == n
  {
    RoundShift(n, n as real * TaxRate);
    assert n as real + n as real * TaxRate == n as real + (n as real * TaxRate);
  }

  /** Once the subtotal reaches 10 the rounded total is strictly more than
      the untaxed subtotal (half a rupee of tax is enough to round up). */
  lemma TotalExceedsUntaxed(subtotal: real)
    requires subtotal >= 10.0
    ensures TotalAmount(subtotal) as real > subtotal
  {
  }

  /** An order's recorded tax and total are what its own lines give at the
      price its type selects: what the checkout stores (services/store.tsx:190-206). */
  predicate PricedConsistently(o: Order) {
    var subtotal := Subtotal(o.items, o.orderType == WHOLESALE);
    o.taxAmount == TaxAmount(subtotal) as real && o.totalAmount == TotalAmount(subtotal) as real
  }
}
