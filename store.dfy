/** The storefront's state and every operation on it (services/store.tsx).
    Each operation of the source's store replaces one or more collections.
    Here that is a method assigning the matching field, specified by the
    Catalog, Cart, Auth and Pricing functions. Ids, dates and invoice
    numbers the source takes from the clock are parameters. */
module Storefront {
  import opened Types
  import opened Seqs
  import opened Pricing
  import opened Catalog
  import opened Cart
  import opened Auth
  import opened Orders

  /** The test `p => p.id === id` on purchase orders. */
  function PoIs(id: string): PurchaseOrder -> bool {
    (po: PurchaseOrder) => po.id == id
  }

  /** The test `p => p.id !== id` on purchase orders. */
  function PoIsNot(id: string): PurchaseOrder -> bool {
    (po: PurchaseOrder) => po.id != id
  }

  /** The rewrite `p => updatedProduct`. */
  function ReplaceBy(updated: Product): Product -> Product {
    (p: Product) => updated
  }

  /** The rewrite `p => ({ ...p, stock: newStock })`. */
  function WithStock(stock: int): Product -> Product {
    (p: Product) => p.(stock := stock)
  }

  ghost predicate NonNegativeStock(products: seq<Product>) {
    forall i :: 0 <= i < |products| ==> products[i].stock >= 0
  }

  /** The order the checkout records for `user` (services/store.tsx:199-214):
      it holds the cart's own lines and is priced from them at the buyer's
      price, it is Processing, and it is wholesale exactly for a distributor. */
  function CheckoutOrder(
    user: User, cart: seq<CartItem>, paymentMethod: PaymentMethod, address: string,
    paymentStatus: PaymentStatus, transactionId: Option<string>,
    orderId: string, date: string, invoiceNumber: string): (o: Order)
    ensures PricedConsistently(o)
    ensures o.items == cart && o.userId == user.id && o.userName == user.name
    ensures o.status == Processing && o.paymentMethod == paymentMethod && o.paymentStatus == paymentStatus
    ensures o.orderType == WHOLESALE <==> user.role == DISTRIBUTOR
  {
    var wholesale := user.role == DISTRIBUTOR;
    var subtotal := Subtotal(cart, wholesale);
    Order(orderId, user.id, user.name, Some(address), None, cart,
          TotalAmount(subtotal) as real, TaxAmount(subtotal) as real,
          Processing, paymentMethod, paymentStatus, transactionId, date,
          OrderTypeFor(user.role), Some(invoiceNumber))
  }

  /** What `receivePurchaseOrder(id)` does to the purchase orders and the
      catalog: nothing for an unknown id or an order already Received;
      otherwise the first order with that id becomes Received and its items
      are restocked. A Cancelled order is received like a Pending one. */
  function ReceiveEffect(pos: seq<PurchaseOrder>, products: seq<Product>, id: string): (seq<PurchaseOrder>, seq<Product>) {
    var k := FirstIndex(pos, PoIs(id));
    if k < 0 || pos[k].status == PoStatus.Received then (pos, products)
    else (pos[k := pos[k].(status := PoStatus.Received)], Restocked(products, pos[k].items))
  }

  /** Receiving the same purchase order twice restocks it once. */
  lemma ReceiveIsIdempotent(pos: seq<PurchaseOrder>, products: seq<Product>, id: string)
    ensures var (pos1, products1) := ReceiveEffect(pos, products, id);
      ReceiveEffect(pos1, products1, id) == (pos1, products1)
  {
    var k := FirstIndex(pos, PoIs(id));
    if 0 <= k && pos[k].status != PoStatus.Received {
      var pos1 := pos[k := pos[k].(status := PoStatus.Received)];
      FirstIndexStable(pos, pos1, PoIs(id));
    }
  }

  /** Receiving an order that is not yet Received marks exactly that order
      Received, adds to each catalog product exactly the units of it the order
      lists, and touches nothing else. */
  lemma ReceiveRestocks(pos: seq<PurchaseOrder>, products: seq<Product>, id: string, k: int)
    requires UniqueIds(products)
    requires 0 <= k < |pos| && pos[k].id == id && pos[k].status != PoStatus.Received
    requires forall j :: 0 <= j < k ==> pos[j].id != id
    ensures var (pos1, products1) := ReceiveEffect(pos, products, id);
      && |pos1| == |pos| && pos1[k] == pos[k].(status := PoStatus.Received)
      && (forall j :: 0 <= j < |pos| && j != k ==> pos1[j] == pos[j])
      && (forall i :: 0 <= i < |products| ==>
            products1[i] == products[i].(stock := products[i].stock + QuantityReceived(pos[k].items, products[i].id)))
  {
    RestockedAddsQuantities(products, pos[k].items);
  }

  datatype PlaceOutcome =
    | NoSession                                           // no one is logged in: nothing happens
    | InsufficientStock(productName: string, available: int)  // alert "Insufficient stock for ..."
    | Placed(order: Order)

  class Store {
    var user: Option<User>
    var users: seq<User>
    var products: seq<Product>
    var orders: seq<Order>
    var purchaseOrders: seq<PurchaseOrder>
    var reviews: seq<Review>
    var cart: seq<CartItem>

    /** `addToCart` merges lines, so the cart holds one line per product. */
    ghost predicate Valid()
      reads this
    {
      UniqueLineIds(cart)
    }

    /** The store as loaded (services/store.tsx:56-96): the collections come
        from storage or the seed data, the cart starts empty. */
    constructor (users: seq<User>, products: seq<Product>, orders: seq<Order>,
                 purchaseOrders: seq<PurchaseOrder>, reviews: seq<Review>, session: Option<User>)
      ensures Valid()
      ensures this.user == session && this.users == users && this.products == products
      ensures this.orders == orders && this.purchaseOrders == purchaseOrders && this.reviews == reviews
      ensures cart == []
    {
      this.user := session;
      this.users := users;
      this.products := products;
      this.orders := orders;
      this.purchaseOrders := purchaseOrders;
      this.reviews := reviews;
      this.cart := [];
    }

    /** `login`: signs in on success, otherwise leaves the session alone. */
    method Login(mobile: string, password: string, role: Role) returns (outcome: LoginOutcome)
      modifies this`user
      ensures outcome == LoginCheck(users, mobile, password, role)
      ensures user == if outcome.LoggedIn? then Some(outcome.user) else old(user)
    {
      var k := FirstIndex(users, AccountIs(mobile, role));
      if k >= 0 {
        var found := users[k];
        if found.password != Some(password) {
          return WrongPassword;
        }
        if role == DISTRIBUTOR && !found.approved {
          return AwaitingApproval;
        }
        user := Some(found);
        return LoggedIn(found);
      }
      return NoAccount;
    }

    /** `logout`: ends the session and empties the cart. */
    method Logout()
      modifies this`user, this`cart
      ensures Valid()
      ensures user == None && cart == []
    {
      user := None;
      cart := [];
    }

    /** `register`: appends the new account without looking for a duplicate
        mobile, and signs it in unless it is a distributor awaiting approval. */
    method Register(id: string, name: string, mobile: string, password: string, role: Role, territory: Option<string>)
      modifies this`users, this`user
      ensures users == old(users) + [NewAccount(id, name, mobile, password, role, territory)]
      ensures user == if role != DISTRIBUTOR then Some(NewAccount(id, name, mobile, password, role, territory)) else old(user)
      ensures role == DISTRIBUTOR ==> FallthroughLogin(users, mobile, password) != Some(users[|users| - 1])
      ensures role == DISTRIBUTOR && UniqueMobiles(old(users)) && !MobileTaken(old(users), mobile) ==>
        FallthroughLogin(users, mobile, password) == None
    {
      var account := NewAccount(id, name, mobile, password, role, territory);
      ghost var before := users;
      users := users + [account];
      if role == DISTRIBUTOR && UniqueMobiles(before) && !MobileTaken(before, mobile) {
        assert UniqueMobiles(users);
        FallthroughFindsAccount(users, |before|, password);
      }
      if account.approved {
        user := Some(account);
      }
    }

    /** `addUser`: refuses a mobile already in use; otherwise appends the
        account, with the password '123456' when none was given. */
    method AddUser(account: User) returns (added: bool)
      modifies this`users
      ensures added <==> !MobileTaken(old(users), account.mobile)
      ensures users == if added then old(users) + [WithDefaultPassword(account)] else old(users)
      ensures UniqueMobiles(old(users)) ==> UniqueMobiles(users)
    {
      if MobileTaken(users, account.mobile) {
        return false;
      }
      users := users + [WithDefaultPassword(account)];
      return true;
    }

    /** `addToCart`. */
    method AddToCart(product: Product, quantity: int)
      requires Valid()
      modifies this`cart
      ensures Valid()
      ensures cart == AddLine(old(cart), product, quantity)
      ensures forall id :: QuantityOrdered(cart, id) == QuantityOrdered(old(cart), id) + (if id == product.id then quantity else 0)
      ensures CartCount(cart) == CartCount(old(cart)) + quantity
    {
      AddLineSpec(cart, product, quantity);
      cart := AddLine(cart, product, quantity);
    }

    /** `removeFromCart`. */
    method RemoveFromCart(productId: string)
      requires Valid()
      modifies this`cart
      ensures Valid()
      ensures cart == RemoveLine(old(cart), productId)
    {
      RemoveLineKeepsUnique(cart, productId);
      cart := RemoveLine(cart, productId);
    }

    /** `clearCart`. */
    method ClearCart()
      modifies this`cart
      ensures Valid()
      ensures cart == []
    {
      cart := [];
    }

    /** `placeOrder`. Without a session nothing happens. When some line asks
        for more than its product's stock, the first such line is reported
        and nothing changes. Otherwise the cart becomes an order at the front
        of the list, every ordered product loses the quantity ordered, and the
        cart is emptied. A checked order never takes stock below zero. */
    method PlaceOrder(paymentMethod: PaymentMethod, address: string, paymentStatus: PaymentStatus,
                      transactionId: Option<string>, orderId: string, date: string, invoiceNumber: string)
      returns (outcome: PlaceOutcome)
      requires Valid()
      requires paymentMethod != Cash
      modifies this`products, this`orders, this`cart
      ensures Valid()
      ensures outcome == NoSession <==> old(user).None?
      ensures outcome.InsufficientStock? <==> old(user).Some? && !StockSufficient(old(products), old(cart))
      ensures outcome.Placed? <==> old(user).Some? && StockSufficient(old(products), old(cart))
      ensures outcome.InsufficientStock? ==> exists j ::
        && 0 <= j < |old(cart)| && Short(old(products), old(cart)[j])
        && (forall i :: 0 <= i < j ==> !Short(old(products), old(cart)[i]))
        && outcome.productName == old(cart)[j].product.name
        && outcome.available == old(products)[IndexOfProduct(old(products), old(cart)[j].product.id)].stock
      ensures !outcome.Placed? ==> products == old(products) && orders == old(orders) && cart == old(cart)
      ensures outcome.Placed? ==>
        && outcome.order == CheckoutOrder(old(user).value, old(cart), paymentMethod, address, paymentStatus,
                                          transactionId, orderId, date, invoiceNumber)
        && orders == [outcome.order] + old(orders)
        && products == DeductFirstMatch(old(products), old(cart))
        && products == DeductAll(old(products), old(cart))
        && cart == []
      ensures outcome.Placed? && UniqueIds(old(products)) && NonNegativeStock(old(products)) ==> NonNegativeStock(products)
    {
      if user.None? {
        return NoSession;
      }
      var shortAt := FirstShortage(products, cart);
      if shortAt.Some? {
        var line := cart[shortAt.value];
        var k := IndexOfProduct(products, line.product.id);
        return InsufficientStock(line.product.name, products[k].stock);
      }
      var order := CheckoutOrder(user.value, cart, paymentMethod, address, paymentStatus,
                                 transactionId, orderId, date, invoiceNumber);
      DeductionsAgreeWhenUnique(products, cart);
      if UniqueIds(products) && NonNegativeStock(products) {
        CheckedDeductionKeepsStock(products, cart);
      }
      products := DeductFirstMatch(products, cart);
      orders := [order] + orders;
      cart := [];
      return Placed(order);
    }

    /** `deleteOrder`: the order disappears and no stock comes back. */
    method DeleteOrder(orderId: string)
      modifies this`orders
      ensures orders == Filter(old(orders), OrderIsNot(orderId))
      ensures forall o :: o in orders <==> o in old(orders) && o.id != orderId
    {
      orders := Filter(orders, OrderIsNot(orderId));
    }

    /** `addOrder` (a manual order) with every line of a product counted;
        the source counts only the first, see DeductFirstMatch. */
    method AddOrder(order: Order)
      modifies this`products, this`orders
      ensures products == DeductAll(old(products), order.items)
      ensures orders == [order] + old(orders)
      ensures UniqueLineIds(order.items) ==> products == DeductFirstMatch(old(products), order.items)
    {
      if UniqueLineIds(order.items) {
        DeductionsAgreeWhenUnique(products, order.items);
      }
      products := DeductAll(products, order.items);
      orders := [order] + orders;
    }

    /** `addPurchaseOrder`: newest first; stock moves only on receipt. */
    method AddPurchaseOrder(po: PurchaseOrder)
      modifies this`purchaseOrders
      ensures purchaseOrders == [po] + old(purchaseOrders)
    {
      purchaseOrders := [po] + purchaseOrders;
    }

    /** `deletePurchaseOrder`. */
    method DeletePurchaseOrder(poId: string)
      modifies this`purchaseOrders
      ensures purchaseOrders == Filter(old(purchaseOrders), PoIsNot(poId))
      ensures forall po :: po in purchaseOrders <==> po in old(purchaseOrders) && po.id != poId
    {
      purchaseOrders := Filter(purchaseOrders, PoIsNot(poId));
    }

    /** `receivePurchaseOrder`, with its loop over the order's items. */
    method ReceivePurchaseOrder(poId: string)
      modifies this`purchaseOrders, this`products
      ensures (purchaseOrders, products) == ReceiveEffect(old(purchaseOrders), old(products), poId)
    {
      var poIndex := FirstIndex(purchaseOrders, PoIs(poId));
      if poIndex == -1 {
        return;
      }
      var po := purchaseOrders[poIndex];
      if po.status == PoStatus.Received {
        return;
      }
      purchaseOrders := purchaseOrders[poIndex := po.(status := PoStatus.Received)];
      var updated := products;
      var i := 0;
      while i < |po.items|
        invariant 0 <= i <= |po.items|
        invariant updated == Restocked(products, po.items[..i])
      {
        var item := po.items[i];
        ghost var before := updated;
        var prodIndex := IndexOfProduct(updated, item.productId);
        if prodIndex > -1 {
          updated := updated[prodIndex := updated[prodIndex].(stock := updated[prodIndex].stock + item.quantity)];
        }
        assert updated == RestockOne(before, item);
        assert po.items[..i + 1][..i] == po.items[..i];
        i := i + 1;
      }
      assert po.items[..|po.items|] == po.items;
      products := updated;
    }

    /** `updateOrderStatus`: only the status of orders with that id changes. */
    method UpdateOrderStatus(orderId: string, status: OrderStatus)
      modifies this`orders
      ensures orders == MapWhere(old(orders), OrderIs(orderId), WithStatus(status))
      ensures |orders| == |old(orders)| && forall i :: 0 <= i < |orders| ==>
        orders[i] == if old(orders)[i].id == orderId then old(orders)[i].(status := status) else old(orders)[i]
    {
      orders := MapWhere(orders, OrderIs(orderId), WithStatus(status));
    }

    /** `updatePaymentStatus`: only the payment status of orders with that id changes. */
    method UpdatePaymentStatus(orderId: string, status: PaymentStatus)
      modifies this`orders
      ensures orders == MapWhere(old(orders), OrderIs(orderId), WithPaymentStatus(status))
      ensures |orders| == |old(orders)| && forall i :: 0 <= i < |orders| ==>
        orders[i] == if old(orders)[i].id == orderId then old(orders)[i].(paymentStatus := status) else old(orders)[i]
    {
      orders := MapWhere(orders, OrderIs(orderId), WithPaymentStatus(status));
    }

    /** `approveDistributor`. */
    method ApproveDistributor(userId: string)
      modifies this`users
      ensures users == ApproveAccount(old(users), userId)
      ensures |users| == |old(users)| && forall i :: 0 <= i < |users| ==>
        users[i] == if old(users)[i].id == userId then old(users)[i].(approved := true) else old(users)[i]
      ensures UniqueMobiles(old(users)) ==> UniqueMobiles(users)
    {
      users := ApproveAccount(users, userId);
    }

    /** `updateProduct`: every product with that id is replaced whole. */
    method UpdateProduct(updated: Product)
      modifies this`products
      ensures products == MapWhere(old(products), ProductIs(updated.id), ReplaceBy(updated))
      ensures UniqueIds(old(products)) ==> UniqueIds(products)
    {
      products := MapWhere(products, ProductIs(updated.id), ReplaceBy(updated));
    }

    /** `deleteProduct`: orders and carts keep their snapshots of it. */
    method DeleteProduct(productId: string)
      modifies this`products
      ensures products == Filter(old(products), ProductIsNot(productId))
      ensures forall p :: p in products <==> p in old(products) && p.id != productId
    {
      products := Filter(products, ProductIsNot(productId));
    }

    /** `addProduct`: appended without a duplicate-id check. */
    method AddProduct(product: Product)
      modifies this`products
      ensures products == old(products) + [product]
      ensures UniqueIds(old(products)) && FindProduct(old(products), product.id).None? ==> UniqueIds(products)
    {
      products := products + [product];
    }

    /** `updateStock`: the stock of products with that id is overwritten. */
    method UpdateStock(productId: string, newStock: int)
      modifies this`products
      ensures products == MapWhere(old(products), ProductIs(productId), WithStock(newStock))
      ensures |products| == |old(products)| && forall i :: 0 <= i < |products| ==>
        products[i] == if old(products)[i].id == productId then old(products)[i].(stock := newStock) else old(products)[i]
      ensures UniqueIds(old(products)) ==> UniqueIds(products)
    {
      products := MapWhere(products, ProductIs(productId), WithStock(newStock));
    }

    /** `addReview`: newest first. */
    method AddReview(review: Review)
      modifies this`reviews
      ensures reviews == [review] + old(reviews)
    {
      reviews := [review] + reviews;
    }
  }
}
