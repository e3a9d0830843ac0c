/** The admin dashboard's figures (pages/Dashboard.tsx:629-690, 761): profit
    and loss over delivered orders, the exported P&L statement, the low-stock
    count and the online/COD payment totals. */
module Reports {
  import opened Types
  import opened Seqs
  import opened Pricing
  import opened Catalog
  import opened Orders
  import opened Csv

  /** A line is sold at the distributor price exactly on a wholesale order. */
  function Wholesale(o: Order): bool {
    o.orderType == WHOLESALE
  }

  /** The cost price of a line's product as the catalog holds it now, or 0
      once the product has been deleted (pages/Dashboard.tsx:675-676). */
  function UnitCost(products: seq<Product>, item: CartItem): (c: real)
    ensures (forall j :: 0 <= j < |products| ==> products[j].id != item.product.id) ==> c == 0.0
    ensures c != 0.0 ==> exists j :: 0 <= j < |products| && products[j].id == item.product.id && products[j].costPrice == c
  {
    var p := FindProduct(products, item.product.id);
    if p.Some? then p.value.costPrice else 0.0
  }

  function LineCost(products: seq<Product>, item: CartItem): real {
    UnitCost(products, item) * item.quantity as real
  }

  /** The cost of goods of a run of lines, folded from the left. */
  function ItemsCost(products: seq<Product>, items: seq<CartItem>): real
    decreases |items|
  {
    if items == [] then 0.0
    else ItemsCost(products, items[..|items| - 1]) + LineCost(products, items[|items| - 1])
  }

  /** `orders.filter(o => o.status === 'Delivered')`. */
  function DeliveredOrders(orders: seq<Order>): (r: seq<Order>)
    ensures forall o :: o in r <==> o in orders && o.status == Delivered
  {
    Filter(orders, IsDelivered())
  }

  /** Revenue of a run of orders: each line at its order's selling price. */
  function Revenue(orders: seq<Order>): real
    decreases |orders|
  {
    if orders == [] then 0.0
    else
      var last := orders[|orders| - 1];
      Revenue(orders[..|orders| - 1]) + Subtotal(last.items, Wholesale(last))
  }

  /** Cost of goods of a run of orders at the current cost prices. */
  function Cogs(products: seq<Product>, orders: seq<Order>): real
    decreases |orders|
  {
    if orders == [] then 0.0
    else Cogs(products, orders[..|orders| - 1]) + ItemsCost(products, orders[|orders| - 1].items)
  }

  /** The profit margin in percent, or 0 when there is no revenue
      (pages/Dashboard.tsx:685, before `toFixed(1)`). */
  function Margin(revenue: real, grossProfit: real): (m: real)
    ensures revenue > 0.0 && 0.0 <= grossProfit <= revenue ==> 0.0 <= m <= 100.0
    ensures revenue > 0.0 && grossProfit < 0.0 ==> m < 0.0
    ensures revenue <= 0.0 ==> m == 0.0
  {
    if revenue > 0.0 then grossProfit / revenue * 100.0 else 0.0
  }

  /** The dashboard's P&L block: nested loops over the delivered orders and
      their lines, accumulating revenue and cost of goods
      (pages/Dashboard.tsx:668-685). */
  method ProfitAndLoss(orders: seq<Order>, products: seq<Product>)
    returns (revenue: real, cogs: real, grossProfit: real, margin: real)
    ensures revenue == Revenue(DeliveredOrders(orders))
    ensures cogs == Cogs(products, DeliveredOrders(orders))
    ensures grossProfit == revenue - cogs
    ensures margin == Margin(revenue, grossProfit)
  {
    var delivered := DeliveredOrders(orders);
    revenue, cogs := 0.0, 0.0;
    var i := 0;
    while i < |delivered|
      invariant 0 <= i <= |delivered|
      invariant revenue == Revenue(delivered[..i])
      invariant cogs == Cogs(products, delivered[..i])
    {
      var order := delivered[i];
      var j := 0;
      while j < |order.items|
        invariant 0 <= j <= |order.items|
        invariant revenue == Revenue(delivered[..i]) + Subtotal(order.items[..j], Wholesale(order))
        invariant cogs == Cogs(products, delivered[..i]) + ItemsCost(products, order.items[..j])
      {
        var item := order.items[j];
        LineStep(products, order.items, j, Wholesale(order));
        revenue := revenue + LineTotal(item, Wholesale(order));
        cogs := cogs + LineCost(products, item);
        j := j + 1;
      }
      assert order.items[..j] == order.items;
      OrderStep(products, delivered, i);
      i := i + 1;
    }
    assert delivered[..i] == delivered;
    grossProfit := revenue - cogs;
    margin := if revenue > 0.0 then grossProfit / revenue * 100.0 else 0.0;
  }

  /** One more line adds its total and its cost. */
  lemma LineStep(products: seq<Product>, items: seq<CartItem>, j: int, wholesale: bool)
    requires 0 <= j < |items|
    ensures Subtotal(items[..j + 1], wholesale) == Subtotal(items[..j], wholesale) + LineTotal(items[j], wholesale)
    ensures ItemsCost(products, items[..j + 1]) == ItemsCost(products, items[..j]) + LineCost(products, items[j])
  {
    assert items[..j + 1][..j] == items[..j];
  }

  /** One more order adds its revenue, its cost and its rows. */
  lemma OrderStep(products: seq<Product>, orders: seq<Order>, i: int)
    requires 0 <= i < |orders|
    ensures Revenue(orders[..i + 1]) == Revenue(orders[..i]) + Subtotal(orders[i].items, Wholesale(orders[i]))
    ensures Cogs(products, orders[..i + 1]) == Cogs(products, orders[..i]) + ItemsCost(products, orders[i].items)
    ensures PnlRows(products, orders[..i + 1]) == PnlRows(products, orders[..i]) + OrderRows(products, orders[i])
  {
    assert orders[..i + 1][..i] == orders[..i];
  }

  /** A further order changes revenue and cost of goods only if it is
      Delivered, and then by exactly its own lines. */
  lemma DeliveredOnlyCount(orders: seq<Order>, products: seq<Product>, o: Order)
    ensures Revenue(DeliveredOrders(orders + [o])) ==
      Revenue(DeliveredOrders(orders)) + (if o.status == Delivered then Subtotal(o.items, Wholesale(o)) else 0.0)
    ensures Cogs(products, DeliveredOrders(orders + [o])) ==
      Cogs(products, DeliveredOrders(orders)) + (if o.status == Delivered then ItemsCost(products, o.items) else 0.0)
  {
    FilterAppend(orders, [o], IsDelivered());
    var d := DeliveredOrders(orders);
    if o.status == Delivered {
      assert Filter([o], IsDelivered()) == [o];
      assert (d + [o])[..|d + [o]| - 1] == d;
    } else {
      assert Filter([o], IsDelivered()) == [];
      assert d + [] == d;
    }
  }

  /** Deleting a product makes every line of it cost nothing in the P&L. */
  lemma DeletedProductCostsNothing(products: seq<Product>, item: CartItem)
    ensures LineCost(Filter(products, ProductIsNot(item.product.id)), item) == 0.0
  {
    var rest := Filter(products, ProductIsNot(item.product.id));
    forall j | 0 <= j < |rest|
      ensures rest[j].id != item.product.id
    {
      assert rest[j] in rest;
    }
  }

  /** One row of the exported P&L statement (pages/Dashboard.tsx:641-649). */
  datatype PnlRow = PnlRow(
    date: string, orderId: string, product: string, quantity: int,
    revenue: real, cogs: real, profit: real)

  /** The row pushed for one line: its revenue at the order's selling
      price, its cost at the current cost price, and the difference. */
  function LineRow(products: seq<Product>, o: Order, item: CartItem): PnlRow {
    var revenue := LineTotal(item, Wholesale(o));
    var cogs := LineCost(products, item);
    PnlRow(o.date, o.id, item.product.name, item.quantity, revenue, cogs, revenue - cogs)
  }

  /** The rows of one order, one per line, in line order. */
  function OrderRows(products: seq<Product>, o: Order): seq<PnlRow> {
    seq(|o.items|, k requires 0 <= k < |o.items| => LineRow(products, o, o.items[k]))
  }

  /** The rows of a run of orders, order after order. */
  function PnlRows(products: seq<Product>, orders: seq<Order>): seq<PnlRow>
    decreases |orders|
  {
    if orders == [] then []
    else PnlRows(products, orders[..|orders| - 1]) + OrderRows(products, orders[|orders| - 1])
  }

  /** `handleExportPnL`'s row building: nested loops pushing one row per line
      of every delivered order (pages/Dashboard.tsx:629-651). */
  method ExportPnlRows(orders: seq<Order>, products: seq<Product>) returns (rows: seq<PnlRow>)
    ensures rows == PnlRows(products, DeliveredOrders(orders))
  {
    var delivered := DeliveredOrders(orders);
    rows := [];
    var i := 0;
    while i < |delivered|
      invariant 0 <= i <= |delivered|
      invariant rows == PnlRows(products, delivered[..i])
    {
      var order := delivered[i];
      var j := 0;
      while j < |order.items|
        invariant 0 <= j <= |order.items|
        invariant rows == PnlRows(products, delivered[..i]) + OrderRows(products, order)[..j]
      {
        var item := order.items[j];
        OrderRowsStep(products, order, j);
        rows := rows + [LineRow(products, order, item)];
        j := j + 1;
      }
      assert OrderRows(products, order)[..j] == OrderRows(products, order);
      OrderStep(products, delivered, i);
      i := i + 1;
    }
    assert delivered[..i] == delivered;
  }

  /** One more line adds its row. */
  lemma OrderRowsStep(products: seq<Product>, o: Order, j: int)
    requires 0 <= j < |o.items|
    ensures OrderRows(products, o)[..j + 1] == OrderRows(products, o)[..j] + [LineRow(products, o, o.items[j])]
  {
  }

  function RevenueColumn(rows: seq<PnlRow>): real
    decreases |rows|
  {
    if rows == [] then 0.0 else RevenueColumn(rows[..|rows| - 1]) + rows[|rows| - 1].revenue
  }

  function CogsColumn(rows: seq<PnlRow>): real
    decreases |rows|
  {
    if rows == [] then 0.0 else CogsColumn(rows[..|rows| - 1]) + rows[|rows| - 1].cogs
  }

  lemma {:induction false} ColumnsAppend(a: seq<PnlRow>, b: seq<PnlRow>)
    ensures RevenueColumn(a + b) == RevenueColumn(a) + RevenueColumn(b)
    ensures CogsColumn(a + b) == CogsColumn(a) + CogsColumn(b)
    decreases |b|
  {
    if b == [] {
      assert a + b == a;
    } else {
      assert (a + b)[..|a + b| - 1] == a + b[..|b| - 1];
      ColumnsAppend(a, b[..|b| - 1]);
    }
  }

  /** The first `n` rows of an order total its first `n` lines. */
  lemma {:induction false} OrderRowsTotal(products: seq<Product>, o: Order, n: nat)
    requires n <= |o.items|
    ensures RevenueColumn(OrderRows(products, o)[..n]) == Subtotal(o.items[..n], Wholesale(o))
    ensures CogsColumn(OrderRows(products, o)[..n]) == ItemsCost(products, o.items[..n])
  {
    if n > 0 {
      OrderRowsTotal(products, o, n - 1);
      assert OrderRows(products, o)[..n][..n - 1] == OrderRows(products, o)[..n - 1];
      assert o.items[..n][..n - 1] == o.items[..n - 1];
    }
  }

  /** The exported statement agrees with the dashboard: its Revenue and COGS
      columns add up to the P&L block's totals, it has one row per line of a
      delivered order, and every row's Profit is its Revenue minus its COGS. */
  lemma {:induction false} PnlRowsMatchTotals(products: seq<Product>, orders: seq<Order>)
    ensures RevenueColumn(PnlRows(products, orders)) == Revenue(orders)
    ensures CogsColumn(PnlRows(products, orders)) == Cogs(products, orders)
    ensures |PnlRows(products, orders)| == LineCount(orders)
    ensures forall r :: r in PnlRows(products, orders) ==> r.profit == r.revenue - r.cogs
    decreases |orders|
  {
    if orders != [] {
      var init := orders[..|orders| - 1];
      var last := orders[|orders| - 1];
      PnlRowsMatchTotals(products, init);
      ColumnsAppend(PnlRows(products, init), OrderRows(products, last));
      OrderRowsTotal(products, last, |last.items|);
      assert OrderRows(products, last)[..|last.items|] == OrderRows(products, last);
      assert last.items[..|last.items|] == last.items;
    }
  }

  /** The number of lines over a run of orders. */
  function LineCount(orders: seq<Order>): nat
    decreases |orders|
  {
    if orders == [] then 0 else LineCount(orders[..|orders| - 1]) + |orders[|orders| - 1].items|
  }

  /** The test `p => p.stock <= p.lowStockThreshold`. */
  function IsLowStock(): Product -> bool {
    (p: Product) => p.stock <= p.lowStockThreshold
  }

  /** The dashboard's low-stock count (pages/Dashboard.tsx:761). */
  function LowStockCount(products: seq<Product>): (n: nat)
    ensures n <= |products|
  {
    |Filter(products, IsLowStock())|
  }

  /** The count is zero exactly when every product is above its threshold. */
  lemma NoLowStockIffAllAbove(products: seq<Product>)
    ensures LowStockCount(products) == 0 <==>
      forall i :: 0 <= i < |products| ==> products[i].stock > products[i].lowStockThreshold
  {
    var low := Filter(products, IsLowStock());
    if low != [] {
      assert low[0] in low;
    }
    forall i | 0 <= i < |products| && products[i].stock <= products[i].lowStockThreshold
      ensures low != []
    {
      assert products[i] in products;
    }
  }

  /** Receiving stock never adds to the low-stock count... */
  lemma RestockNeverRaisesLowStock(products: seq<Product>, items: seq<PurchaseItem>)
    requires forall j :: 0 <= j < |items| ==> items[j].quantity >= 0
    ensures LowStockCount(Restocked(products, items)) <= LowStockCount(products)
  {
    RestockedOnlyRaises(products, items);
    FilterLengthMonotone(products, Restocked(products, items), IsLowStock());
  }

  /** ...and an order never takes from it. */
  lemma OrderNeverLowersLowStock(products: seq<Product>, items: seq<CartItem>)
    requires forall j :: 0 <= j < |items| ==> items[j].quantity >= 0
    ensures LowStockCount(DeductAll(products, items)) >= LowStockCount(products)
  {
    forall i | 0 <= i < |products|
      ensures DeductAll(products, items)[i].stock <= products[i].stock
    {
      QuantityOrderedNonNegative(items, products[i].id);
    }
    FilterLengthMonotone(DeductAll(products, items), products, IsLowStock());
  }

  /** `reduce((acc, o) => acc + o.totalAmount, 0)`; exact sums do not depend
      on the order of addition, so this folds from the front. */
  function AmountSum(orders: seq<Order>): real
    decreases |orders|
  {
    if orders == [] then 0.0 else orders[0].totalAmount + AmountSum(orders[1..])
  }

  /** Online revenue: orders paid other than by COD (pages/Dashboard.tsx:688-689). */
  function OnlineRevenue(orders: seq<Order>): real {
    AmountSum(Filter(orders, IsOnlinePaid()))
  }

  /** The COD total, whatever the payment status (pages/Dashboard.tsx:690). */
  function CodTotal(orders: seq<Order>): real {
    AmountSum(Filter(orders, IsCod()))
  }

  /** Summing what a filter keeps, one order at a time. */
  lemma AmountSumFilterStep(orders: seq<Order>, keep: Order -> bool)
    requires orders != []
    ensures AmountSum(Filter(orders, keep)) ==
      (if keep(orders[0]) then orders[0].totalAmount else 0.0) + AmountSum(Filter(orders[1..], keep))
  {
    var rest := Filter(orders[1..], keep);
    if keep(orders[0]) {
      assert ([orders[0]] + rest)[1..] == rest;
    } else {
      assert [] + rest == rest;
    }
  }

  /** Every order's amount counts exactly once among online revenue, the COD
      total and the online orders still unpaid: together they are all sales
      (pages/Dashboard.tsx:660). */
  lemma {:induction false} PaymentsPartitionSales(orders: seq<Order>)
    ensures OnlineRevenue(orders) + CodTotal(orders) + AmountSum(Filter(orders, IsOnlineUnpaid())) == AmountSum(orders)
  {
    if orders != [] {
      PaymentsPartitionSales(orders[1..]);
      AmountSumFilterStep(orders, IsOnlinePaid());
      AmountSumFilterStep(orders, IsCod());
      AmountSumFilterStep(orders, IsOnlineUnpaid());
    }
  }

  /** Marking an order paid or pending never moves the COD total. */
  lemma {:induction false} CodIgnoresPaymentStatus(orders: seq<Order>, id: string, status: PaymentStatus)
    ensures CodTotal(MapWhere(orders, OrderIs(id), WithPaymentStatus(status))) == CodTotal(orders)
  {
    if orders != [] {
      var updated := MapWhere(orders, OrderIs(id), WithPaymentStatus(status));
      assert updated[1..] == MapWhere(orders[1..], OrderIs(id), WithPaymentStatus(status));
      CodIgnoresPaymentStatus(orders[1..], id, status);
      AmountSumFilterStep(orders, IsCod());
      AmountSumFilterStep(updated, IsCod());
    }
  }

  /** Marking a Pending non-COD order Paid moves its amount into online
      revenue, provided no other order shares its id. */
  lemma {:induction false} MarkPaidAddsOnline(orders: seq<Order>, k: int)
    requires 0 <= k < |orders| && orders[k].paymentMethod != COD && orders[k].paymentStatus == PaymentStatus.Pending
    requires forall j :: 0 <= j < |orders| && j != k ==> orders[j].id != orders[k].id
    ensures OnlineRevenue(MapWhere(orders, OrderIs(orders[k].id), WithPaymentStatus(Paid)))
      == OnlineRevenue(orders) + orders[k].totalAmount
  {
    var id := orders[k].id;
    var updated := MapWhere(orders, OrderIs(id), WithPaymentStatus(Paid));
    assert updated[1..] == MapWhere(orders[1..], OrderIs(id), WithPaymentStatus(Paid));
    AmountSumFilterStep(orders, IsOnlinePaid());
    AmountSumFilterStep(updated, IsOnlinePaid());
    if k == 0 {
      MapWhereMissesNothing(orders[1..], id, Paid);
    } else {
      assert orders[1..][k - 1] == orders[k];
      MarkPaidAddsOnline(orders[1..], k - 1);
    }
  }

  /** Rewriting an id that no order has changes nothing. */
  lemma MapWhereMissesNothing(orders: seq<Order>, id: string, status: PaymentStatus)
    requires forall j :: 0 <= j < |orders| ==> orders[j].id != id
    ensures MapWhere(orders, OrderIs(id), WithPaymentStatus(status)) == orders
  {
  }

  /** One row of the payments export (pages/Dashboard.tsx:818-825). */
  datatype PaymentRow = PaymentRow(
    date: string, paymentId: string, orderId: string, paymentMethod: PaymentMethod, amount: real, status: string)

  /** `o.transactionId || 'N/A'`: a missing or empty id shows as N/A. */
  function PaymentId(o: Order): (s: string)
    ensures s != ""
  {
    if o.transactionId.Some? && o.transactionId.value != "" then o.transactionId.value else "N/A"
  }

  /** The payments export's rows: one per online-paid order, in order. */
  function PaymentRows(orders: seq<Order>): (rows: seq<PaymentRow>)
    ensures |rows| == |Filter(orders, IsOnlinePaid())|
  {
    var online := Filter(orders, IsOnlinePaid());
    seq(|online|, k requires 0 <= k < |online| =>
      var o := online[k];
      PaymentRow(o.date, PaymentId(o), o.id, o.paymentMethod, o.totalAmount, "Captured"))
  }

  /** Every exported payment is a paid non-COD order of the list, with that
      order's id and amount. */
  lemma PaymentRowIsPaidOnline(orders: seq<Order>, k: int)
    requires 0 <= k < |PaymentRows(orders)|
    ensures exists o ::
      && o in orders && o.id == PaymentRows(orders)[k].orderId
      && o.paymentMethod != COD && o.paymentStatus == Paid && PaymentRows(orders)[k].amount == o.totalAmount
  {
    var online := Filter(orders, IsOnlinePaid());
    assert online[k] in online;
  }

  /** A P&L row as the record handed to the export, under the source's keys
      in the source's order; `numberText` is how JavaScript writes a number. */
  function PnlRecord(row: PnlRow, numberText: real -> string): Record {
    [("Date", Str(row.date)), ("OrderId", Str(row.orderId)), ("Product", Str(row.product)),
     ("Quantity", Num(numberText(row.quantity as real))), ("Revenue", Num(numberText(row.revenue))),
     ("COGS", Num(numberText(row.cogs))), ("Profit", Num(numberText(row.profit)))]
  }

  function PnlRecords(rows: seq<PnlRow>, numberText: real -> string): (data: seq<Record>)
    ensures |data| == |rows|
  {
    seq(|rows|, i requires 0 <= i < |rows| => PnlRecord(rows[i], numberText))
  }

  /** The statement's header names the seven columns in order; with no
      delivered line there is nothing to export. */
  lemma PnlExportHeader(rows: seq<PnlRow>, numberText: real -> string)
    ensures CsvText(PnlRecords(rows, numberText)).None? <==> rows == []
    ensures rows != [] ==>
      SplitOn(CsvLines(PnlRecords(rows, numberText))[0], ',') == ["Date", "OrderId", "Product", "Quantity", "Revenue", "COGS", "Profit"]
  {
    if rows != [] {
      HeaderSplitsIntoKeys(PnlRecords(rows, numberText));
      assert Keys(PnlRecords(rows, numberText)[0]) == ["Date", "OrderId", "Product", "Quantity", "Revenue", "COGS", "Profit"];
    }
  }

  function MethodName(m: PaymentMethod): string {
    match m
    case UPI => "UPI"
    case Card => "Card"
    case COD => "COD"
    case Cash => "Cash"
  }

  /** A payment row as the record handed to the export. */
  function PaymentRecord(row: PaymentRow, numberText: real -> string): Record {
    [("Date", Str(row.date)), ("PaymentID", Str(row.paymentId)), ("OrderID", Str(row.orderId)),
     ("Method", Str(MethodName(row.paymentMethod))), ("Amount", Num(numberText(row.amount))),
     ("Status", Str(row.status))]
  }

  function PaymentRecords(rows: seq<PaymentRow>, numberText: real -> string): (data: seq<Record>)
    ensures |data| == |rows|
  {
    seq(|rows|, i requires 0 <= i < |rows| => PaymentRecord(rows[i], numberText))
  }

  /** The payments export's header names its six columns in order, and there
      is nothing to export exactly when no order is paid online. */
  lemma PaymentExportHeader(orders: seq<Order>, numberText: real -> string)
    ensures CsvText(PaymentRecords(PaymentRows(orders), numberText)).None? <==>
      forall i :: 0 <= i < |orders| ==> !(orders[i].paymentMethod != COD && orders[i].paymentStatus == Paid)
    ensures PaymentRows(orders) != [] ==>
      SplitOn(CsvLines(PaymentRecords(PaymentRows(orders), numberText))[0], ',') == ["Date", "PaymentID", "OrderID", "Method", "Amount", "Status"]
  {
    var online := Filter(orders, IsOnlinePaid());
    if online != [] {
      assert online[0] in online;
    }
    forall i | 0 <= i < |orders| && orders[i].paymentMethod != COD && orders[i].paymentStatus == Paid
      ensures online != []
    {
      assert orders[i] in orders;
    }
    var data := PaymentRecords(PaymentRows(orders), numberText);
    if data != [] {
      HeaderSplitsIntoKeys(data);
      assert Keys(data[0]) == ["Date", "PaymentID", "OrderID", "Method", "Amount", "Status"];
    }
  }
}
