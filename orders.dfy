/** The tests and rewrites the store and the dashboard apply to orders
    (services/store.tsx:229-231, 279-285; pages/Dashboard.tsx:668, 688-690). */
module Orders {
  import opened Types

  /** The test `o => o.id === id`. */
  function OrderIs(id: string): Order -> bool {
    (o: Order) => o.id == id
  }

  /** The test `o => o.id !== id`. */
  function OrderIsNot(id: string): Order -> bool {
    (o: Order) => o.id != id
  }

  /** The rewrite `o => ({ ...o, status })`. */
  function WithStatus(status: OrderStatus): Order -> Order {
    (o: Order) => o.(status := status)
  }

  /** The rewrite `o => ({ ...o, paymentStatus: status })`. */
  function WithPaymentStatus(status: PaymentStatus): Order -> Order {
    (o: Order) => o.(paymentStatus := status)
  }

  /** The test `o => o.status === 'Delivered'`. */
  function IsDelivered(): Order -> bool {
    (o: Order) => o.status == Delivered
  }

  /** The test `o => o.paymentMethod !== 'COD' && o.paymentStatus === 'Paid'`. */
  function IsOnlinePaid(): Order -> bool {
    (o: Order) => o.paymentMethod != COD && o.paymentStatus == Paid
  }

  /** Orders paid other than by COD that are still Pending: neither online
      revenue nor COD. */
  function IsOnlineUnpaid(): Order -> bool {
    (o: Order) => o.paymentMethod != COD && o.paymentStatus != Paid
  }

  /** The test `o => o.paymentMethod === 'COD'`. */
  function IsCod(): Order -> bool {
    (o: Order) => o.paymentMethod == COD
  }
}
