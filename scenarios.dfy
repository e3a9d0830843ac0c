/** The seed catalog and orders (constants.ts:3-113) as concrete checks of
    the pricing rule and the reports. */
module Scenarios {
  import opened Types
  import opened Pricing
  import opened Reports

  function FamilyPack(): Product {
    Product("p2", "Amrit Assam Gold - Family Pack", "", "", "250g", 120.0, 90.0, 65.0, 1000, 100, Pouch, None)
  }

  function JumboPack(): Product {
    Product("p3", "Amrit Assam Gold - Jumbo Pack", "", "", "500g", 230.0, 175.0, 130.0, 800, 100, Pouch, None)
  }

  function HotelDust(): Product {
    Product("p4", "Hotel Special Dust", "", "", "1kg", 400.0, 320.0, 250.0, 200, 50, Bulk, None)
  }

  /** ORD-001: a retail UPI order, delivered and paid. */
  function FirstSeedOrder(): Order {
    Order("ORD-001", "cust1", "Amit Sharma", None, None, [CartItem(FamilyPack(), 2)], 252.0, 12.0,
          Delivered, UPI, Paid, Some("pay_M3k29sl29dJ"), "2023-10-15", RETAIL, None)
  }

  /** ORD-002: a wholesale UPI order, processing and unpaid. */
  function SecondSeedOrder(): Order {
    Order("ORD-002", "dist1", "Rajesh Traders", None, None, [CartItem(JumboPack(), 50), CartItem(HotelDust(), 10)],
          12548.0, 598.0, Processing, UPI, PaymentStatus.Pending, None, "2023-10-20", WHOLESALE, None)
  }

  /** Both seed orders carry the tax and total the checkout computes: 240
      gives 12 and 252; 11950 gives 597.5, rounded up to 598, and 12547.5,
      rounded up to 12548. */
  lemma SeedOrdersPricedConsistently()
    ensures PricedConsistently(FirstSeedOrder())
    ensures PricedConsistently(SecondSeedOrder())
  {
    var first := FirstSeedOrder().items;
    assert first[..0] == [];
    assert Subtotal(first, false) == 240.0;
    var second := SecondSeedOrder().items;
    assert second[..1] == [CartItem(JumboPack(), 50)];
    assert second[..1][..0] == [];
    assert Subtotal(second, true) == 11950.0;
  }

  /** The seed's P&L counts only the delivered ORD-001: revenue 240 at the
      MRP and cost 130 at the cost price. */
  lemma SeedProfitAndLoss()
    ensures var orders := [FirstSeedOrder(), SecondSeedOrder()];
      var products := [FamilyPack(), JumboPack(), HotelDust()];
      Revenue(DeliveredOrders(orders)) == 240.0 && Cogs(products, DeliveredOrders(orders)) == 130.0
  {
    var orders := [FirstSeedOrder(), SecondSeedOrder()];
    var products := [FamilyPack(), JumboPack(), HotelDust()];
    assert DeliveredOrders(orders) == [FirstSeedOrder()] by {
      assert orders[1..] == [SecondSeedOrder()];
      assert orders[1..][1..] == [];
    }
    var items := FirstSeedOrder().items;
    assert items[..0] == [];
    assert [FirstSeedOrder()][..0] == [];
    assert UnitCost(products, items[0]) == 65.0;
  }
}
