/** What the tax invoice shows for an order (pages/Dashboard.tsx:40-160):
    its number, the bill-to address, one row per line and the totals block.
    The company header and footer come from the invoice settings and are
    text only; printing is not part of this model. */
module Invoice {
  import opened Types
  import opened Pricing

  /** `#{order.invoiceNumber || order.id}`. */
  function InvoiceNumberShown(o: Order): (s: string)
    ensures o.invoiceNumber.Some? && o.invoiceNumber.value != "" ==> s == o.invoiceNumber.value
    ensures o.invoiceNumber.None? || o.invoiceNumber.value == "" ==> s == o.id
  {
    if o.invoiceNumber.Some? && o.invoiceNumber.value != "" then o.invoiceNumber.value else o.id
  }

  /** `order.userAddress || 'Address not provided'`. */
  function AddressShown(o: Order): (s: string)
    ensures s != ""
    ensures o.userAddress.Some? && o.userAddress.value != "" ==> s == o.userAddress.value
  {
    if o.userAddress.Some? && o.userAddress.value != "" then o.userAddress.value else "Address not provided"
  }

  /** The payment badge, `order.paymentStatus.toUpperCase()`. */
  function StatusBadge(o: Order): string {
    match o.paymentStatus
    case Paid => "PAID"
    case Pending => "PENDING"
  }

  /** One row of the items table. Every row shows the HSN code 0902, not
      the product's own `hsnCode`. */
  datatype InvoiceRow = InvoiceRow(name: string, weight: string, hsn: string, quantity: int, price: real, total: real)

  function Row(item: CartItem, wholesale: bool): (r: InvoiceRow)
    ensures r.price == UnitPrice(item.product, wholesale) && r.total == LineTotal(item, wholesale)
    ensures r.quantity == item.quantity && r.name == item.product.name && r.hsn == "0902"
  {
    InvoiceRow(item.product.name, item.product.weight, "0902", item.quantity,
               UnitPrice(item.product, wholesale), UnitPrice(item.product, wholesale) * item.quantity as real)
  }

  /** `order.items.map(...)`: a row per line, priced by the order's type. */
  function Rows(items: seq<CartItem>, wholesale: bool): (rows: seq<InvoiceRow>)
    ensures |rows| == |items|
    ensures forall i :: 0 <= i < |items| ==> rows[i] == Row(items[i], wholesale)
    decreases |items|
  {
    if items == [] then []
    else Rows(items[..|items| - 1], wholesale) + [Row(items[|items| - 1], wholesale)]
  }

  function InvoiceRows(o: Order): seq<InvoiceRow> {
    Rows(o.items, o.orderType == WHOLESALE)
  }

  /** The sum of the rows' Total column. */
  function RowsTotal(rows: seq<InvoiceRow>): real
    decreases |rows|
  {
    if rows == [] then 0.0 else RowsTotal(rows[..|rows| - 1]) + rows[|rows| - 1].total
  }

  /** The Total column adds up to the order's subtotal at its price. */
  lemma {:induction false} RowsAddUpToSubtotal(items: seq<CartItem>, wholesale: bool)
    ensures RowsTotal(Rows(items, wholesale)) == Subtotal(items, wholesale)
    decreases |items|
  {
    if items != [] {
      var rows := Rows(items, wholesale);
      assert rows[..|rows| - 1] == Rows(items[..|items| - 1], wholesale);
      RowsAddUpToSubtotal(items[..|items| - 1], wholesale);
    }
  }

  /** The totals block: Subtotal is the total minus the tax, CGST and SGST
      (2.5% each) are half the tax each, and the grand total is the order's
      total. */
  datatype TotalsBlock = TotalsBlock(subtotal: real, cgst: real, sgst: real, grandTotal: real)

  function Totals(o: Order): (t: TotalsBlock)
    ensures t.subtotal + t.cgst + t.sgst == t.grandTotal == o.totalAmount
    ensures t.cgst == t.sgst && t.cgst + t.sgst == o.taxAmount
  {
    TotalsBlock(o.totalAmount - o.taxAmount, o.taxAmount / 2.0, o.taxAmount / 2.0, o.totalAmount)
  }

  /** For an order priced like a checkout, the Subtotal the block shows is
      within one rupee of the sum of the item rows, and equal to it when that
      sum is a whole number of rupees. */
  lemma InvoiceSubtotalMatchesRows(o: Order)
    requires PricedConsistently(o)
    ensures var shown := Totals(o).subtotal;
      var rows := RowsTotal(InvoiceRows(o));
      && rows - 1.0 < shown < rows + 1.0
      && (rows == rows.Floor as real ==> shown == rows)
  {
    var w := o.orderType == WHOLESALE;
    RowsAddUpToSubtotal(o.items, w);
    var s := Subtotal(o.items, w);
    TotalMinusTaxNear(s);
    if s == s.Floor as real {
      TotalMinusTaxExact(s.Floor);
    }
  }
}
