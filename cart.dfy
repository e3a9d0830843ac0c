/** The session cart (services/store.tsx:161-177) and the header's item
    count (components/Layout.tsx:9). */
module Cart {
  import opened Types
  import opened Seqs
  import opened Catalog

  /** The rewrite `item => ({ ...item, quantity: item.quantity + q })`. */
  function AddQuantity(q: int): CartItem -> CartItem {
    (l: CartItem) => l.(quantity := l.quantity + q)
  }

  /** The test `item => item.id !== id`. */
  function LineIsNot(id: string): CartItem -> bool {
    (l: CartItem) => l.product.id != id
  }

  /** `addToCart`: a product already in the cart has `quantity` added to its
      line (which keeps the snapshot taken when it was first added); any other
      product gets a new line at the end. There is no stock check here. */
  function AddLine(cart: seq<CartItem>, product: Product, quantity: int): seq<CartItem> {
    if FirstIndex(cart, LineIs(product.id)) >= 0
    then MapWhere(cart, LineIs(product.id), AddQuantity(quantity))
    else cart + [CartItem(product, quantity)]
  }

  /** `removeFromCart`: every line for `id` goes, whole. */
  function RemoveLine(cart: seq<CartItem>, id: string): (r: seq<CartItem>)
    ensures forall x :: x in r <==> x in cart && x.product.id != id
  {
    Filter(cart, LineIsNot(id))
  }

  /** `cart.reduce((acc, item) => acc + item.quantity, 0)`. */
  function CartCount(cart: seq<CartItem>): int
    decreases |cart|
  {
    if cart == [] then 0 else CartCount(cart[..|cart| - 1]) + cart[|cart| - 1].quantity
  }

  /** Raising one line's quantity by `q` raises the count by `q`. */
  lemma {:induction false} CartCountBump(cart: seq<CartItem>, k: int, q: int)
    requires 0 <= k < |cart|
    ensures CartCount(cart[k := cart[k].(quantity := cart[k].quantity + q)]) == CartCount(cart) + q
    decreases |cart|
  {
    var bumped := cart[k := cart[k].(quantity := cart[k].quantity + q)];
    var n := |cart| - 1;
    if k == n {
      assert bumped[..n] == cart[..n];
    } else {
      CartCountBump(cart[..n], k, q);
      assert bumped[..n] == cart[..n][k := cart[k].(quantity := cart[k].quantity + q)];
    }
  }

  /** Raising the quantity of one line of a cart with one line per product
      keeps one line per product and adds to that product's quantity only. */
  lemma BumpKeepsQuantities(cart: seq<CartItem>, k: int, q: int)
    requires UniqueLineIds(cart) && 0 <= k < |cart|
    ensures var r := cart[k := cart[k].(quantity := cart[k].quantity + q)];
      && UniqueLineIds(r)
      && forall id :: QuantityOrdered(r, id) == QuantityOrdered(cart, id) + (if id == cart[k].product.id then q else 0)
  {
    var r := cart[k := cart[k].(quantity := cart[k].quantity + q)];
    assert forall i :: 0 <= i < |cart| ==> r[i].product == cart[i].product;
    forall id
      ensures QuantityOrdered(r, id) == QuantityOrdered(cart, id) + (if id == cart[k].product.id then q else 0)
    {
      FirstLineIsAllWhenUnique(cart, id);
      FirstLineIsAllWhenUnique(r, id);
      FirstIndexStable(cart, r, LineIs(id));
    }
  }

  /** With one line per product before, `addToCart` keeps one line per
      product, keeps every existing line's price snapshot, adds exactly
      `quantity` units of that product and no units of any other, and raises
      the header count by `quantity`. It grows the cart only for a product
      not yet in it, and then by that one line at the end. */
  lemma AddLineSpec(cart: seq<CartItem>, product: Product, quantity: int)
    requires UniqueLineIds(cart)
    ensures var r := AddLine(cart, product, quantity);
      && UniqueLineIds(r)
      && (forall i :: 0 <= i < |cart| ==> r[i].product == cart[i].product)
      && (forall id :: QuantityOrdered(r, id) == QuantityOrdered(cart, id) + (if id == product.id then quantity else 0))
      && CartCount(r) == CartCount(cart) + quantity
      && (if FirstIndex(cart, LineIs(product.id)) >= 0 then |r| == |cart| else r == cart + [CartItem(product, quantity)])
  {
    var r := AddLine(cart, product, quantity);
    var k := FirstIndex(cart, LineIs(product.id));
    if k >= 0 {
      assert r == cart[k := cart[k].(quantity := cart[k].quantity + quantity)];
      CartCountBump(cart, k, quantity);
      BumpKeepsQuantities(cart, k, quantity);
    } else {
      assert r[..|r| - 1] == cart;
      assert UniqueLineIds(r);
    }
  }

  /** With one line per product, `removeFromCart` takes out exactly the line
      for `id` and keeps the others in their order... */
  lemma RemoveLineKeepsOrder(cart: seq<CartItem>, id: string, k: int)
    requires UniqueLineIds(cart) && 0 <= k < |cart| && cart[k].product.id == id
    ensures RemoveLine(cart, id) == cart[..k] + cart[k + 1..]
  {
    forall i | 0 <= i < |cart| && i != k
      ensures LineIsNot(id)(cart[i])
    {
      assert if i < k then cart[i].product.id != cart[k].product.id else cart[k].product.id != cart[i].product.id;
    }
    FilterDropsOne(cart, k, LineIsNot(id));
  }

  /** ...and leaves a cart without such a line as it was. */
  lemma RemoveAbsentLine(cart: seq<CartItem>, id: string)
    requires forall i :: 0 <= i < |cart| ==> cart[i].product.id != id
    ensures RemoveLine(cart, id) == cart
  {
    FilterKeepsAll(cart, LineIsNot(id));
  }

  /** Removing a line keeps one line per product. */
  lemma RemoveLineKeepsUnique(cart: seq<CartItem>, id: string)
    requires UniqueLineIds(cart)
    ensures UniqueLineIds(RemoveLine(cart, id))
  {
    var k := FirstIndex(cart, LineIs(id));
    if k < 0 {
      RemoveAbsentLine(cart, id);
    } else {
      RemoveLineKeepsOrder(cart, id, k);
    }
  }
}
