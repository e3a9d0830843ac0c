/** The storefront's request handlers (App.tsx): the sign-in page's submit
    handler (App.tsx:21-66), the buyer's price and the cart and checkout
    totals (App.tsx:286, 354-357, 418-421), the checkout page's place-order
    handler with the payment gateway's answer as an input (App.tsx:423-486),
    and the rule that decides where "checkout" leads (App.tsx:804-807). */
module Handlers {
  import opened Types
  import opened Pricing
  import opened Catalog
  import opened Auth
  import opened Storefront

  // ----- Sign in / register -----

  datatype AuthResult =
    | InputRejected(error: AuthInputError)   // bad mobile or missing password
    | MobileInUse                            // "User already exists. Please Login."
    | RegisteredPending                      // distributor registered; back to the login form
    | SignedIn                               // onLoginSuccess()
    | LoginRefused                           // an account exists; the store already said why
    | AccountNotFound                        // "Account not found. Please Register first."

  /** `handleAuth`. Inputs are checked first; registering refuses a mobile
      already in use and otherwise registers; logging in tries CUSTOMER,
      DISTRIBUTOR and ADMIN in turn, and reports a missing account only when
      no account at all has that mobile. */
  method HandleAuth(store: Store, isRegister: bool, mobile: string, password: string,
                    name: string, role: Role, territory: string, newId: string)
    returns (result: AuthResult)
    modifies store`users, store`user
    ensures CheckAuthInput(mobile, password).Some? ==>
      result == InputRejected(CheckAuthInput(mobile, password).value)
    ensures result.InputRejected? || result == MobileInUse || !isRegister ==> store.users == old(store.users)
    ensures result.InputRejected? || result == MobileInUse ==> store.user == old(store.user)
    ensures CheckAuthInput(mobile, password).None? && isRegister ==>
      if MobileTaken(old(store.users), mobile) then result == MobileInUse
      else
        && store.users == old(store.users) + [NewAccount(newId, name, mobile, password, role, Some(territory))]
        && result == (if role == DISTRIBUTOR then RegisteredPending else SignedIn)
        && store.user == (if role == DISTRIBUTOR then old(store.user)
                          else Some(NewAccount(newId, name, mobile, password, role, Some(territory))))
    ensures CheckAuthInput(mobile, password).None? && !isRegister ==>
      var signedIn := FallthroughLogin(old(store.users), mobile, password);
      && (result == SignedIn <==> signedIn.Some?)
      && store.user == (if signedIn.Some? then signedIn else old(store.user))
      && (result == AccountNotFound <==> !MobileTaken(old(store.users), mobile))
      && (result == SignedIn || result == LoginRefused || result == AccountNotFound)
  {
    var inputError := CheckAuthInput(mobile, password);
    if inputError.Some? {
      return InputRejected(inputError.value);
    }
    if isRegister {
      if MobileTaken(store.users, mobile) {
        return MobileInUse;
      }
      store.Register(newId, name, mobile, password, role, Some(territory));
      if role == DISTRIBUTOR {
        return RegisteredPending;
      }
      return SignedIn;
    }
    ghost var users := store.users;
    var outcome := store.Login(mobile, password, CUSTOMER);
    if !outcome.LoggedIn? {
      outcome := store.Login(mobile, password, DISTRIBUTOR);
      if !outcome.LoggedIn? {
        outcome := store.Login(mobile, password, ADMIN);
      }
    }
    if outcome.LoggedIn? {
      return SignedIn;
    }
    if MobileTaken(store.users, mobile) {
      return LoginRefused;
    }
    FallthroughUnknownMobile(users, mobile, password);
    return AccountNotFound;
  }

  /** Logging in never reports a missing account for a mobile that exists,
      and signs in an existing account exactly when the password matches and
      it is not a distributor awaiting approval (mobiles unique). */
  lemma LoginOutcomeForExistingAccount(users: seq<User>, i: int, password: string)
    requires UniqueMobiles(users) && 0 <= i < |users|
    ensures MobileTaken(users, users[i].mobile)
    ensures FallthroughLogin(users, users[i].mobile, password).Some? <==>
      users[i].password == Some(password) && (users[i].role == DISTRIBUTOR ==> users[i].approved)
  {
    FallthroughFindsAccount(users, i, password);
  }

  // ----- Prices and totals -----

  /** Whether the session belongs to a distributor (`user?.role === 'DISTRIBUTOR'`). */
  function DistributorSession(session: Option<User>): bool {
    session.Some? && session.value.role == DISTRIBUTOR
  }

  /** The price the shop shows for a product: the distributor price to a
      signed-in distributor, the MRP to anyone else, signed in or not. */
  function ShopPrice(session: Option<User>, p: Product): (price: real)
    ensures DistributorSession(session) ==> price == p.distributorPrice
    ensures !DistributorSession(session) ==> price == p.mrp
  {
    UnitPrice(p, DistributorSession(session))
  }

  /** The cart drawer's and checkout page's total: the lines at the
      session's price, with no tax added. */
  function CheckoutTotal(cart: seq<CartItem>, session: Option<User>): real {
    Subtotal(cart, DistributorSession(session))
  }

  /** The amount handed to the gateway, in paise. */
  function GatewayAmount(cart: seq<CartItem>, session: Option<User>): real {
    CheckoutTotal(cart, session) * 100.0
  }

  /** The total shown at checkout, and charged through the gateway, leaves
      out the 5% tax the placed order records: the order's total is the
      shown total with tax, rounded, and from 10 rupees on it is strictly
      more than what the gateway was asked to charge. */
  lemma CheckoutChargesLessThanOrderTotal(user: User, cart: seq<CartItem>, paymentMethod: PaymentMethod,
                                          address: string, transactionId: Option<string>,
                                          orderId: string, date: string, invoiceNumber: string)
    ensures var o := CheckoutOrder(user, cart, paymentMethod, address, PaymentStatus.Paid, transactionId, orderId, date, invoiceNumber);
      && o.totalAmount == TotalAmount(CheckoutTotal(cart, Some(user))) as real
      && (CheckoutTotal(cart, Some(user)) >= 10.0 ==> o.totalAmount * 100.0 > GatewayAmount(cart, Some(user)))
  {
    var total := CheckoutTotal(cart, Some(user));
    if total >= 10.0 {
      TotalExceedsUntaxed(total);
    }
  }

  // ----- Place order -----

  /** What the gateway (or its stand-in) answered. */
  datatype GatewayAnswer =
    | PaymentSucceeded(paymentId: string)   // the success handler ran
    | PaymentFailed                         // 'payment.failed'
    | Dismissed                             // the checkout window was closed
    | InitFailed                            // the gateway could not be opened
    | NoGateway(confirmed: bool)            // simulation mode: the user's answer to confirm()

  datatype CheckoutResult =
    | AddressMissing                // "Address is required"
    | NotPlaced                     // payment failed, cancelled or not confirmed
    | Proceeded(outcome: PlaceOutcome)  // placeOrder ran; the page moves on whatever it returned

  /** How the handler calls `placeOrder`: COD as Pending without a
      transaction id, a successful payment as Paid with the gateway's id, a
      confirmed simulation as Paid with the simulated id; None when the
      order is not placed at all. */
  function PaymentOf(paymentMethod: PaymentMethod, answer: GatewayAnswer, simulatedId: string): (r: Option<(PaymentStatus, Option<string>)>)
    ensures paymentMethod == COD ==> r == Some((PaymentStatus.Pending, None))
    ensures paymentMethod != COD ==>
      (r.Some? <==> answer.PaymentSucceeded? || answer == NoGateway(true))
    ensures r.Some? && paymentMethod != COD ==> r.value.0 == Paid && r.value.1.Some?
  {
    if paymentMethod == COD then Some((PaymentStatus.Pending, None))
    else match answer
      case PaymentSucceeded(id) => Some((Paid, Some(id)))
      case NoGateway(confirmed) => if confirmed then Some((Paid, Some(simulatedId))) else None
      case _ => None
  }

  /** `handlePlaceOrder`. An empty address stops it; otherwise the order is
      placed as PaymentOf decides, and the page proceeds whether or not
      `placeOrder` placed it. */
  method HandlePlaceOrder(store: Store, address: string, paymentMethod: PaymentMethod, answer: GatewayAnswer,
                          simulatedId: string, orderId: string, date: string, invoiceNumber: string)
    returns (result: CheckoutResult)
    requires store.Valid() && paymentMethod != Cash
    modifies store`products, store`orders, store`cart
    ensures store.Valid()
    ensures address == "" ==> result == AddressMissing
    ensures address != "" ==>
      (result.Proceeded? <==> PaymentOf(paymentMethod, answer, simulatedId).Some?)
    ensures !(result.Proceeded? && result.outcome.Placed?) ==>
      store.products == old(store.products) && store.orders == old(store.orders) && store.cart == old(store.cart)
    ensures result.Proceeded? ==>
      var (status, transactionId) := PaymentOf(paymentMethod, answer, simulatedId).value;
      && (result.outcome == NoSession <==> old(store.user).None?)
      && (result.outcome.InsufficientStock? <==>
            old(store.user).Some? && !StockSufficient(old(store.products), old(store.cart)))
      && (result.outcome.Placed? <==> old(store.user).Some? && StockSufficient(old(store.products), old(store.cart)))
      && (result.outcome.Placed? ==>
            && result.outcome.order == CheckoutOrder(old(store.user).value, old(store.cart), paymentMethod, address,
                                                     status, transactionId, orderId, date, invoiceNumber)
            && store.orders == [result.outcome.order] + old(store.orders)
            && store.products == DeductAll(old(store.products), old(store.cart))
            && store.cart == [])
  {
    if address == "" {
      return AddressMissing;
    }
    var payment := PaymentOf(paymentMethod, answer, simulatedId);
    if payment.None? {
      return NotPlaced;
    }
    var outcome := store.PlaceOrder(paymentMethod, address, payment.value.0, payment.value.1, orderId, date, invoiceNumber);
    return Proceeded(outcome);
  }

  // ----- Navigation -----

  datatype View = LOGIN | CHECKOUT

  /** The cart's checkout button leads to the checkout page for a signed-in
      user and to the sign-in page otherwise. */
  function CheckoutRoute(session: Option<User>): (v: View)
    ensures v == CHECKOUT <==> session.Some?
  {
    if session.Some? then CHECKOUT else LOGIN
  }
}
