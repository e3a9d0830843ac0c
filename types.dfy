/** The storefront's record shapes and enumerations (types.ts).
    Money is an exact `real`; counts, stock levels and ratings are `int`. */
module Types {

  datatype Option<+T> = None | Some(value: T)

  /** types.ts:1 -- exactly one of three roles. */
  datatype Role = ADMIN | DISTRIBUTOR | CUSTOMER

  /** types.ts:3-13. `password` is optional in the source; the optional
      text fields are `None` when the property is absent. */
  datatype User = User(
    id: string,
    name: string,
    mobile: string,
    password: Option<string>,
    role: Role,
    approved: bool,
    territory: Option<string>,
    address: Option<string>,
    gstNumber: Option<string>)

  datatype Category = Sachet | Pouch | Bulk

  /** types.ts:15-28: one catalog entry with its two selling prices. */
  datatype Product = Product(
    id: string,
    name: string,
    description: string,
    image: string,
    weight: string,
    mrp: real,
    distributorPrice: real,
    costPrice: real,
    stock: int,
    lowStockThreshold: int,
    category: Category,
    hsnCode: Option<string>)

  /** types.ts:30-32: a cart line is a full product snapshot plus a quantity,
      so an order line still knows both prices after the catalog changes. */
  datatype CartItem = CartItem(product: Product, quantity: int)

  /** types.ts:43 */
  datatype OrderStatus = Processing | Shipped | Delivered | Cancelled

  /** types.ts:44 */
  datatype PaymentMethod = UPI | Card | COD | Cash

  /** types.ts:45 */
  datatype PaymentStatus = Pending | Paid

  /** types.ts:48 (the field is called `type` in the source) */
  datatype OrderType = RETAIL | WHOLESALE

  /** types.ts:34-50 */
  datatype Order = Order(
    id: string,
    userId: string,
    userName: string,
    userAddress: Option<string>,
    userGst: Option<string>,
    items: seq<CartItem>,
    totalAmount: real,
    taxAmount: real,
    status: OrderStatus,
    paymentMethod: PaymentMethod,
    paymentStatus: PaymentStatus,
    transactionId: Option<string>,
    date: string,
    orderType: OrderType,
    invoiceNumber: Option<string>)

  /** types.ts:52-58 */
  datatype PurchaseItem = PurchaseItem(
    productId: string,
    productName: string,
    quantity: int,
    unitCost: real,
    totalCost: real)

  /** types.ts:65. `Pending` and `Cancelled` also name payment and order
      states, so uses outside a match write `PoStatus.Pending`. */
  datatype PoStatus = Pending | Received | Cancelled

  /** types.ts:60-68 */
  datatype PurchaseOrder = PurchaseOrder(
    id: string,
    poNumber: string,
    supplierName: string,
    date: string,
    status: PoStatus,
    items: seq<PurchaseItem>,
    totalAmount: real)

  /** types.ts:89-97 */
  datatype Review = Review(
    id: string,
    productId: string,
    userId: string,
    userName: string,
    rating: int,
    comment: string,
    date: string)

  /** types.ts:94 documents a rating as 1 to 5; nothing in the source enforces it. */
  predicate DocumentedRating(r: int) {
    1 <= r <= 5
  }
}
