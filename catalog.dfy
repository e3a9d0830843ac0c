/** Product lookup and every rule that moves stock: the checkout's
    sufficiency check (services/store.tsx:182-188), the decrement on order
    placement and manual orders (services/store.tsx:216-222, 234-240) and the
    increment on purchase-order receipt (services/store.tsx:266-275). */
module Catalog {
  import opened Types
  import opened Seqs

  /** The test `p => p.id === id`. */
  function ProductIs(id: string): Product -> bool {
    (p: Product) => p.id == id
  }

  /** The test `p => p.id !== id`. */
  function ProductIsNot(id: string): Product -> bool {
    (p: Product) => p.id != id
  }

  /** The test `item => item.id === id` on order and cart lines. */
  function LineIs(id: string): CartItem -> bool {
    (l: CartItem) => l.product.id == id
  }

  /** `products.findIndex(p => p.id === id)`. */
  function IndexOfProduct(products: seq<Product>, id: string): (k: int)
    ensures -1 <= k < |products|
    ensures 0 <= k ==> products[k].id == id && forall j :: 0 <= j < k ==> products[j].id != id
    ensures k == -1 <==> forall j :: 0 <= j < |products| ==> products[j].id != id
  {
    FirstIndex(products, ProductIs(id))
  }

  /** `products.find(p => p.id === id)`. */
  function FindProduct(products: seq<Product>, id: string): (r: Option<Product>)
    ensures r.Some? ==> r.value in products && r.value.id == id
    ensures r.None? <==> forall j :: 0 <= j < |products| ==> products[j].id != id
  {
    var k := IndexOfProduct(products, id);
    if k < 0 then None else Some(products[k])
  }

  ghost predicate UniqueIds(products: seq<Product>) {
    forall i, j :: 0 <= i < j < |products| ==> products[i].id != products[j].id
  }

  /** With unique ids, a product's own id finds that product. */
  lemma IndexOfOwnId(products: seq<Product>, i: int)
    requires UniqueIds(products) && 0 <= i < |products|
    ensures IndexOfProduct(products, products[i].id) == i
  {
  }

  /** A cart line fails the checkout's stock check when its product is still
      in the catalog with less stock than the line asks for. A line whose
      product has left the catalog passes (services/store.tsx:184). */
  predicate Short(products: seq<Product>, line: CartItem) {
    var k := IndexOfProduct(products, line.product.id);
    0 <= k && products[k].stock < line.quantity
  }

  predicate StockSufficient(products: seq<Product>, cart: seq<CartItem>) {
    forall j :: 0 <= j < |cart| ==> !Short(products, cart[j])
  }

  /** The first index of a short line, or None when every line passes: the
      checkout's `for` loop with its early return (services/store.tsx:182-188). */
  method FirstShortage(products: seq<Product>, cart: seq<CartItem>) returns (r: Option<nat>)
    ensures r.None? <==> StockSufficient(products, cart)
    ensures r.Some? ==> r.value < |cart| && Short(products, cart[r.value])
    ensures r.Some? ==> forall j :: 0 <= j < r.value ==> !Short(products, cart[j])
  {
    var i := 0;
    while i < |cart|
      invariant 0 <= i <= |cart|
      invariant forall j :: 0 <= j < i ==> !Short(products, cart[j])
    {
      var k := IndexOfProduct(products, cart[i].product.id);
      if 0 <= k && products[k].stock < cart[i].quantity {
        return Some(i);
      }
      i := i + 1;
    }
    return None;
  }

  ghost predicate UniqueLineIds(items: seq<CartItem>) {
    forall i, j :: 0 <= i < j < |items| ==> items[i].product.id != items[j].product.id
  }

  /** The quantity of the first line for product `id`, or 0 when no line
      names it: what `items.find(i => i.id === p.id)` contributes. */
  function FirstLineQuantity(items: seq<CartItem>, id: string): int {
    var k := FirstIndex(items, LineIs(id));
    if k < 0 then 0 else items[k].quantity
  }

  /** The total quantity of ALL lines for product `id`. */
  function QuantityOrdered(items: seq<CartItem>, id: string): int
    decreases |items|
  {
    if items == [] then 0
    else
      var last := items[|items| - 1];
      QuantityOrdered(items[..|items| - 1], id) + (if last.product.id == id then last.quantity else 0)
  }

  /** Stock after an order as the source computes it: every catalog product
      loses the quantity of the FIRST order line that names it. */
  function DeductFirstMatch(products: seq<Product>, items: seq<CartItem>): seq<Product> {
    seq(|products|, i requires 0 <= i < |products| =>
      products[i].(stock := products[i].stock - FirstLineQuantity(items, products[i].id)))
  }

  /** Stock after an order with every line counted: each catalog product
      loses the total quantity ordered of it. */
  function DeductAll(products: seq<Product>, items: seq<CartItem>): seq<Product> {
    seq(|products|, i requires 0 <= i < |products| =>
      products[i].(stock := products[i].stock - QuantityOrdered(items, products[i].id)))
  }

  /** Quantities ordered add up over consecutive runs of lines. */
  lemma {:induction false} QuantityOrderedAppend(a: seq<CartItem>, b: seq<CartItem>, id: string)
    ensures QuantityOrdered(a + b, id) == QuantityOrdered(a, id) + QuantityOrdered(b, id)
    decreases |b|
  {
    if b == [] {
      assert a + b == a;
    } else {
      assert (a + b)[..|a + b| - 1] == a + b[..|b| - 1];
      QuantityOrderedAppend(a, b[..|b| - 1], id);
    }
  }

  /** Lines with non-negative quantities never order a negative amount. */
  lemma {:induction false} QuantityOrderedNonNegative(items: seq<CartItem>, id: string)
    requires forall i :: 0 <= i < |items| ==> items[i].quantity >= 0
    ensures QuantityOrdered(items, id) >= 0
    decreases |items|
  {
    if items != [] {
      QuantityOrderedNonNegative(items[..|items| - 1], id);
    }
  }

  /** Deducting all lines is insensitive to how the lines are split into
      orders: two orders deduct what their concatenation deducts. */
  lemma DeductAllComposes(products: seq<Product>, a: seq<CartItem>, b: seq<CartItem>)
    ensures DeductAll(DeductAll(products, a), b) == DeductAll(products, a + b)
  {
    forall i | 0 <= i < |products|
      ensures DeductAll(DeductAll(products, a), b)[i] == DeductAll(products, a + b)[i]
    {
      QuantityOrderedAppend(a, b, products[i].id);
    }
  }

  /** When no product appears on two lines, the first line's quantity is the
      whole quantity ordered. */
  lemma {:induction false} FirstLineIsAllWhenUnique(items: seq<CartItem>, id: string)
    requires UniqueLineIds(items)
    ensures FirstLineQuantity(items, id) == QuantityOrdered(items, id)
    decreases |items|
  {
    if items != [] {
      var init := items[..|items| - 1];
      var last := items[|items| - 1];
      assert forall j :: 0 <= j < |init| ==> init[j] == items[j];
      FirstLineIsAllWhenUnique(init, id);
      var k := FirstIndex(init, LineIs(id));
      if last.product.id == id {
        assert k == -1;
        assert FirstIndex(items, LineIs(id)) == |items| - 1;
      } else {
        assert FirstIndex(items, LineIs(id)) == k;
      }
    }
  }

  /** So with unique lines the two decrements agree. */
  lemma DeductionsAgreeWhenUnique(products: seq<Product>, items: seq<CartItem>)
    requires UniqueLineIds(items)
    ensures DeductFirstMatch(products, items) == DeductAll(products, items)
  {
    forall i | 0 <= i < |products|
      ensures DeductFirstMatch(products, items)[i] == DeductAll(products, items)[i]
    {
      FirstLineIsAllWhenUnique(items, products[i].id);
    }
  }

  /** Stock never goes negative after an order that passed the stock check:
      every line of a product in the catalog asked for at most its stock. */
  lemma CheckedDeductionKeepsStock(products: seq<Product>, items: seq<CartItem>)
    requires UniqueIds(products) && UniqueLineIds(items)
    requires forall i :: 0 <= i < |products| ==> products[i].stock >= 0
    requires StockSufficient(products, items)
    ensures forall i :: 0 <= i < |products| ==> DeductAll(products, items)[i].stock >= 0
  {
    forall i | 0 <= i < |products|
      ensures DeductAll(products, items)[i].stock >= 0
    {
      var id := products[i].id;
      FirstLineIsAllWhenUnique(items, id);
      var k := FirstIndex(items, LineIs(id));
      if 0 <= k {
        assert !Short(products, items[k]);
        IndexOfOwnId(products, i);
      }
    }
  }

  /** The units of product `id` a purchase order brings in. */
  function QuantityReceived(items: seq<PurchaseItem>, id: string): int
    decreases |items|
  {
    if items == [] then 0
    else
      var last := items[|items| - 1];
      QuantityReceived(items[..|items| - 1], id) + (if last.productId == id then last.quantity else 0)
  }

  /** One step of the receipt loop: the first product with the item's id
      gains the item's quantity; an item naming no product changes nothing. */
  function RestockOne(products: seq<Product>, item: PurchaseItem): (r: seq<Product>)
    ensures |r| == |products|
  {
    var k := IndexOfProduct(products, item.productId);
    if k < 0 then products else products[k := products[k].(stock := products[k].stock + item.quantity)]
  }

  /** The receipt loop over all of a purchase order's items, in order. */
  function Restocked(products: seq<Product>, items: seq<PurchaseItem>): (r: seq<Product>)
    ensures |r| == |products|
    decreases |items|
  {
    if items == [] then products
    else RestockOne(Restocked(products, items[..|items| - 1]), items[|items| - 1])
  }

  /** Receiving a purchase order adds to each catalog product exactly the
      units of it that the order lists, and changes nothing but stock. */
  lemma {:induction false} RestockedAddsQuantities(products: seq<Product>, items: seq<PurchaseItem>)
    requires UniqueIds(products)
    ensures forall i :: 0 <= i < |products| ==>
      Restocked(products, items)[i] == products[i].(stock := products[i].stock + QuantityReceived(items, products[i].id))
    decreases |items|
  {
    if items != [] {
      var init := items[..|items| - 1];
      var last := items[|items| - 1];
      RestockedAddsQuantities(products, init);
      var before := Restocked(products, init);
      assert forall i :: 0 <= i < |products| ==> before[i].id == products[i].id;
      assert UniqueIds(before);
      var k := IndexOfProduct(before, last.productId);
      forall i | 0 <= i < |products|
        ensures Restocked(products, items)[i] == products[i].(stock := products[i].stock + QuantityReceived(items, products[i].id))
      {
        if i == k {
          assert products[i].id == last.productId;
        } else if products[i].id == last.productId {
          IndexOfOwnId(before, i);
        }
      }
    }
  }

  /** With non-negative quantities, receipt only raises stock and changes
      nothing else about any product. */
  lemma {:induction false} RestockedOnlyRaises(products: seq<Product>, items: seq<PurchaseItem>)
    requires forall j :: 0 <= j < |items| ==> items[j].quantity >= 0
    ensures forall i :: 0 <= i < |products| ==>
      && Restocked(products, items)[i] == products[i].(stock := Restocked(products, items)[i].stock)
      && Restocked(products, items)[i].stock >= products[i].stock
    decreases |items|
  {
    if items != [] {
      RestockedOnlyRaises(products, items[..|items| - 1]);
    }
  }
}
