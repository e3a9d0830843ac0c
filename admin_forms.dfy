/** The three admin forms of the dashboard that build a record for the
    store: a new account (pages/Dashboard.tsx:162-182), a counter sale
    (pages/Dashboard.tsx:384-429) and a purchase order
    (pages/Dashboard.tsx:489-519). Form state is passed in; `Date.now()`
    ids and today's date are parameters. */
module AdminForms {
  import opened Types
  import opened Seqs
  import opened Pricing
  import opened Catalog
  import opened Auth

  // ----- Add user -----

  /** The account the add-user form submits, or None when the name or the
      mobile is empty. Admin-made accounts are approved whatever their role,
      and an empty password becomes '123456'. */
  function NewUserFromForm(id: string, name: string, mobile: string, password: string, role: Role, territory: string): (r: Option<User>)
    ensures r.None? <==> name == "" || mobile == ""
    ensures r.Some? ==>
      && r.value.approved && r.value.role == role
      && r.value.name == name && r.value.mobile == mobile
      && r.value.password == Some(if password == "" then "123456" else password)
  {
    if name == "" || mobile == "" then None
    else Some(User(id, name, mobile, Some(if password == "" then "123456" else password), role, true,
                   Some(territory), Some(""), Some("")))
  }

  /** The form already fills in the default password, so the store's own
      default never changes what the form submits. */
  lemma FormAccountNeedsNoDefault(id: string, name: string, mobile: string, password: string, role: Role, territory: string)
    requires NewUserFromForm(id, name, mobile, password, role, territory).Some?
    ensures var u := NewUserFromForm(id, name, mobile, password, role, territory).value;
      WithDefaultPassword(u) == u
  {
  }

  /** Unlike self-registration, an account the admin adds under a free
      mobile can log in straight away with the password it was given (or
      '123456'), distributors included. */
  lemma FormAccountCanLogIn(users: seq<User>, id: string, name: string, mobile: string, password: string, role: Role, territory: string)
    requires UniqueMobiles(users) && !MobileTaken(users, mobile)
    requires NewUserFromForm(id, name, mobile, password, role, territory).Some?
    ensures var u := NewUserFromForm(id, name, mobile, password, role, territory).value;
      FallthroughLogin(users + [u], mobile, u.password.value) == Some(u)
  {
    var u := NewUserFromForm(id, name, mobile, password, role, territory).value;
    var added := users + [u];
    assert UniqueMobiles(added);
    FallthroughFindsAccount(added, |users|, u.password.value);
  }

  // ----- Manual (counter) order -----

  /** `users.find(u => u.id === selectedUser)`. */
  function FindUser(users: seq<User>, id: string): (r: Option<User>)
    ensures r.Some? ==> r.value in users && r.value.id == id
    ensures r.None? <==> forall i :: 0 <= i < |users| ==> users[i].id != id
  {
    var k := FirstIndex(users, UserIs(id));
    if k < 0 then None else Some(users[k])
  }

  /** `handleAddItem`: appends a line for the chosen product with the chosen
      quantity; nothing happens when no product is chosen or it is not in
      the catalog. It never merges with an existing line of that product. */
  function AddItem(items: seq<CartItem>, products: seq<Product>, productId: string, quantity: int): (r: seq<CartItem>)
    ensures r == items <==> productId == "" || FindProduct(products, productId).None?
    ensures r != items ==>
      && |r| == |items| + 1 && r[..|items|] == items
      && r[|items|] == CartItem(FindProduct(products, productId).value, quantity)
      && r[|items|].product.id == productId
  {
    if productId == "" then items
    else
      match FindProduct(products, productId)
      case None => items
      case Some(p) =>
        assert |items + [CartItem(p, quantity)]| != |items|;
        items + [CartItem(p, quantity)]
  }

  /** Whether the selected buyer is a distributor (no buyer: no). */
  function SelectedIsDistributor(users: seq<User>, selectedUser: string): bool {
    var u := FindUser(users, selectedUser);
    u.Some? && u.value.role == DISTRIBUTOR
  }

  /** `calculateTotal`: the untaxed subtotal at the selected buyer's price. */
  function ManualTotal(users: seq<User>, selectedUser: string, items: seq<CartItem>): real {
    Subtotal(items, SelectedIsDistributor(users, selectedUser))
  }

  /** The total the form shows while the order is built: `Math.round(total * 1.05)`. */
  function ManualDisplayTotal(users: seq<User>, selectedUser: string, items: seq<CartItem>): int {
    Round(ManualTotal(users, selectedUser, items) * 1.05)
  }

  /** `user.address || 'Counter Sale'`: an absent or empty address is
      replaced by the label. */
  function CounterAddress(address: Option<string>): (a: string)
    ensures a == "Counter Sale" <==> address.None? || address.value == "" || address.value == "Counter Sale"
    ensures address.Some? && address.value != "" ==> a == address.value
  {
    if address.None? || address.value == "" then "Counter Sale" else address.value
  }

  /** `handleSubmit`: nothing without a selected buyer or without lines;
      otherwise a delivered, cash-paid order priced like a checkout. */
  function ManualOrder(users: seq<User>, selectedUser: string, items: seq<CartItem>,
                       orderId: string, date: string, invoiceNumber: string): (r: Option<Order>)
    ensures r.None? <==> FindUser(users, selectedUser).None? || items == []
    ensures r.Some? ==>
      var u := FindUser(users, selectedUser).value;
      && PricedConsistently(r.value)
      && r.value.items == items
      && r.value.userId == u.id && r.value.userName == u.name
      && r.value.userAddress == Some(CounterAddress(u.address))
      && (r.value.orderType == WHOLESALE <==> u.role == DISTRIBUTOR)
      && r.value.status == Delivered && r.value.paymentMethod == Cash && r.value.paymentStatus == Paid
      && r.value.invoiceNumber == Some(invoiceNumber)
  {
    var user := FindUser(users, selectedUser);
    if user.None? || items == [] then None
    else
      var u := user.value;
      var total := ManualTotal(users, selectedUser, items);
      Some(Order(orderId, u.id, u.name, Some(CounterAddress(u.address)), None, items,
                 TotalAmount(total) as real, TaxAmount(total) as real,
                 Delivered, Cash, Paid, None, date, OrderTypeFor(u.role), Some(invoiceNumber)))
  }

  /** The total the form shows is the total the submitted order records. */
  lemma DisplayedTotalIsOrderTotal(users: seq<User>, selectedUser: string, items: seq<CartItem>,
                                   orderId: string, date: string, invoiceNumber: string)
    requires ManualOrder(users, selectedUser, items, orderId, date, invoiceNumber).Some?
    ensures ManualOrder(users, selectedUser, items, orderId, date, invoiceNumber).value.totalAmount
      == ManualDisplayTotal(users, selectedUser, items) as real
  {
    var t := ManualTotal(users, selectedUser, items);
    assert t * 1.05 == t + t * TaxRate;
  }

  /** A catalog of one product "p1" with 10 in stock. */
  function OneProductCatalog(): (products: seq<Product>)
    ensures |products| == 1 && products[0].id == "p1" && products[0].stock == 10
  {
    [Product("p1", "Sachet", "", "", "20g", 10.0, 7.5, 5.0, 10, 2, Sachet, None)]
  }

  /** Adding "p1" with quantity 2 twice gives two lines of 2. The store's
      `addOrder` takes from each product the quantity of its first line
      only, so the catalog shows 8 in stock after 4 of the 10 units were
      sold; counting every line gives the 6 that remain. */
  lemma {:induction false} DuplicateLinesUnderDeduct()
    ensures var products := OneProductCatalog();
      var items := AddItem(AddItem([], products, "p1", 2), products, "p1", 2);
      && items == [CartItem(products[0], 2), CartItem(products[0], 2)]
      && DeductFirstMatch(products, items)[0].stock == 8
      && DeductAll(products, items)[0].stock == 6
  {
    var products := OneProductCatalog();
    var p := products[0];
    assert FirstIndex(products, ProductIs("p1")) == 0;
    var one := AddItem([], products, "p1", 2);
    assert one == [CartItem(p, 2)];
    var items := AddItem(one, products, "p1", 2);
    assert items == [CartItem(p, 2), CartItem(p, 2)];
    assert FirstIndex(items, LineIs("p1")) == 0;
    assert items[..1] == [CartItem(p, 2)];
    assert QuantityOrdered(items[..1], "p1") == 2 by {
      assert items[..1][..0] == [];
    }
  }

  // ----- Purchase order -----

  /** The form's `addItem`: appends a line for the chosen product, costed
      as quantity times unit cost; nothing happens for an unknown product. */
  function AddPoItem(items: seq<PurchaseItem>, products: seq<Product>, productId: string, quantity: int, unitCost: real): (r: seq<PurchaseItem>)
    ensures r == items <==> FindProduct(products, productId).None?
    ensures r != items ==>
      && |r| == |items| + 1 && r[..|items|] == items
      && r[|items|].productId == productId && r[|items|].productName == FindProduct(products, productId).value.name
      && r[|items|].quantity == quantity && r[|items|].unitCost == unitCost
  {
    match FindProduct(products, productId)
    case None => items
    case Some(p) =>
      assert |items + [PurchaseItem(p.id, p.name, quantity, unitCost, quantity as real * unitCost)]| != |items|;
      items + [PurchaseItem(p.id, p.name, quantity, unitCost, quantity as real * unitCost)]
  }

  /** Every line's cost is its quantity times its unit cost. */
  predicate LinesCosted(items: seq<PurchaseItem>) {
    forall i :: 0 <= i < |items| ==> items[i].totalCost == items[i].quantity as real * items[i].unitCost
  }

  /** Lines the form builds are always costed. */
  lemma AddPoItemKeepsCosted(items: seq<PurchaseItem>, products: seq<Product>, productId: string, quantity: int, unitCost: real)
    requires LinesCosted(items)
    ensures LinesCosted(AddPoItem(items, products, productId, quantity, unitCost))
  {
    var r := AddPoItem(items, products, productId, quantity, unitCost);
    if r != items {
      assert forall i :: 0 <= i < |items| ==> r[i] == items[i];
    }
  }

  /** `items.reduce((sum, i) => sum + i.totalCost, 0)`. */
  function PoTotal(items: seq<PurchaseItem>): real
    decreases |items|
  {
    if items == [] then 0.0 else PoTotal(items[..|items| - 1]) + items[|items| - 1].totalCost
  }

  /** The total of concatenated lines is the sum of their totals, so the
      fold's direction does not matter. */
  lemma {:induction false} PoTotalAppend(a: seq<PurchaseItem>, b: seq<PurchaseItem>)
    ensures PoTotal(a + b) == PoTotal(a) + PoTotal(b)
    decreases |b|
  {
    if b == [] {
      assert a + b == a;
    } else {
      var front := b[..|b| - 1];
      assert (a + b)[..|a + b| - 1] == a + front;
      assert (a + b)[|a + b| - 1] == b[|b| - 1];
      PoTotalAppend(a, front);
    }
  }

  /** The cost of the lines computed afresh from quantity and unit cost,
      ignoring their recorded `totalCost`. */
  function LinesCost(items: seq<PurchaseItem>): real {
    if items == [] then 0.0 else items[0].quantity as real * items[0].unitCost + LinesCost(items[1..])
  }

  /** For costed lines the recorded total is the cost computed afresh. */
  lemma {:induction false} PoTotalIsLinesCost(items: seq<PurchaseItem>)
    requires LinesCosted(items)
    ensures PoTotal(items) == LinesCost(items)
  {
    if items != [] {
      var rest := items[1..];
      assert items == [items[0]] + rest;
      PoTotalAppend([items[0]], rest);
      assert [items[0]][..0] == [];
      assert LinesCosted(rest) by {
        forall i | 0 <= i < |rest|
          ensures rest[i].totalCost == rest[i].quantity as real * rest[i].unitCost
        {
          assert rest[i] == items[i + 1];
        }
      }
      PoTotalIsLinesCost(rest);
    }
  }

  lemma {:induction false} PoTotalNonNegative(items: seq<PurchaseItem>)
    requires forall i :: 0 <= i < |items| ==> items[i].totalCost >= 0.0
    ensures PoTotal(items) >= 0.0
    decreases |items|
  {
    if items != [] {
      PoTotalNonNegative(items[..|items| - 1]);
    }
  }

  /** `handleSubmit`: nothing without a supplier or without lines;
      otherwise a Pending purchase order whose total is the sum of its line
      costs. */
  function NewPurchaseOrder(id: string, poNumber: string, supplier: string, date: string, items: seq<PurchaseItem>): (r: Option<PurchaseOrder>)
    ensures r.None? <==> supplier == "" || items == []
    ensures r.Some? ==>
      && r.value.status == PoStatus.Pending && r.value.items == items
      && r.value.supplierName == supplier && r.value.poNumber == poNumber
      && r.value.totalAmount == PoTotal(items)
  {
    if supplier == "" || items == [] then None
    else Some(PurchaseOrder(id, poNumber, supplier, date, PoStatus.Pending, items, PoTotal(items)))
  }

  /** A purchase order's recorded total is the sum of its line costs. */
  predicate PoTotalConsistent(po: PurchaseOrder) {
    po.totalAmount == PoTotal(po.items)
  }

  /** Every purchase order the form submits from lines it built records as
      its total the lines' cost computed from quantities and unit costs, and
      adding a line raises that total by the line's cost. */
  lemma FormPurchaseOrderConsistent(id: string, poNumber: string, supplier: string, date: string, items: seq<PurchaseItem>, item: PurchaseItem)
    requires supplier != "" && LinesCosted(items + [item])
    ensures NewPurchaseOrder(id, poNumber, supplier, date, items + [item]).Some?
    ensures PoTotalConsistent(NewPurchaseOrder(id, poNumber, supplier, date, items + [item]).value)
    ensures NewPurchaseOrder(id, poNumber, supplier, date, items + [item]).value.totalAmount
      == LinesCost(items + [item])
    ensures NewPurchaseOrder(id, poNumber, supplier, date, items + [item]).value.totalAmount
      == PoTotal(items) + item.quantity as real * item.unitCost
  {
    var all := items + [item];
    PoTotalIsLinesCost(all);
    PoTotalAppend(items, [item]);
    assert [item][..0] == [];
    assert PoTotal([item]) == item.totalCost;
    var cost := item.quantity as real * item.unitCost;
    LastLineCosted(items, item);
    assert item.totalCost == cost;
    assert PoTotal(all) == PoTotal(items) + cost;
  }

  lemma LastLineCosted(items: seq<PurchaseItem>, item: PurchaseItem)
    requires LinesCosted(items + [item])
    ensures item.totalCost == item.quantity as real * item.unitCost
  {
    assert (items + [item])[|items|] == item;
  }
}
