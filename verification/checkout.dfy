/** The checkout page (`src/pages/Checkout.tsx`): turns the cart into an
    order request with a fixed shipping charge, asks the gateway for that
    amount in paise, and empties the cart once the payment is verified.
    Unlike the cart drawer, checkout charges every line at its full price. */
module Checkout {
  import opened Common
  import Cart
  import CartView
  import Orders
  import Payments
  import ServerBookings

  /** The fixed shipping charge, in rupees. */
  const Shipping: int := 100

  function ToOrderLine(x: Cart.CartItem): Orders.OrderLine {
    Orders.OrderLine(x.id, x.name, x.quantity, x.price)
  }

  /** `items.map(...)`: one order line per cart line, in cart order. */
  function OrderLines(items: Cart.Items): (r: seq<Orders.OrderLine>)
    ensures |r| == |items|
    ensures forall k :: 0 <= k < |r| ==>
      r[k].productId == items[k].id && r[k].productName == items[k].name
      && r[k].qty == items[k].quantity && r[k].price == items[k].price
  {
    seq(|items|, k requires 0 <= k < |items| => ToOrderLine(items[k]))
  }

  function LineAmount(l: Orders.OrderLine): int { l.qty * l.price }

  /** The order lines are worth exactly the cart subtotal. */
  lemma {:induction false} OrderLinesWorthSubtotal(items: Cart.Items)
    ensures Sum(LineAmount, OrderLines(items)) == Cart.Subtotal(items)
    decreases |items|
  {
    if |items| > 0 {
      OrderLinesWorthSubtotal(items[1..]);
      assert OrderLines(items)[1..] == OrderLines(items[1..]);
    }
  }

  /** What `handleCheckout` sends: the order body and the amount handed to the payment widget. */
  datatype Request = Request(body: Orders.CreateBody, widgetAmountPaise: int)

  /** `handleCheckout`: nothing without a signed-in user; otherwise the
      order total and the widget amount both include the shipping charge. */
  function HandleCheckout(user: Option<ServerBookings.AuthUser>, items: Cart.Items, address: Orders.Address)
    : (r: Option<Request>)
    ensures r.None? <==> user.None?
    ensures r.Some? ==>
      && r.value.body.cartItems == OrderLines(items)
      && r.value.body.totalAmount == Cart.Subtotal(items) + Shipping
      && r.value.body.shipping == Some(Shipping)
      && r.value.body.address == address
      && r.value.widgetAmountPaise == r.value.body.totalAmount * 100
  {
    if user.None? then None
    else
      var total := Cart.Subtotal(items);
      Some(Request(Orders.CreateBody(OrderLines(items), total + Shipping, Some(Shipping), address),
                   (total + Shipping) * 100))
  }

  /** The "Total" shown on the page: every line at its full price plus
      shipping, which is the drawer's "pay now" figure plus the service
      balance the drawer defers, plus shipping. */
  function GrandTotal(items: Cart.Items): (r: int)
    ensures r == Sum(LineAmount, OrderLines(items)) + Shipping
    ensures r == CartView.PayNow(items) + CartView.ServiceBalance(items) + Shipping
  {
    OrderLinesWorthSubtotal(items);
    Cart.Subtotal(items) + Shipping
  }

  /** The server opens a gateway order for the very amount the page shows
      and hands to the widget, and stores the fixed shipping charge. */
  lemma ServerAgreesWithPage(user: ServerBookings.AuthUser, items: Cart.Items, address: Orders.Address,
                             store: Orders.Store, now: nat)
    ensures var req := HandleCheckout(Some(user), items, address).value;
      var (_, created) := Orders.Create(store, user, req.body, now);
      && created.gatewayOrder.amountPaise == req.widgetAmountPaise == GrandTotal(items) * 100
      && created.order.shipping == Shipping
      && created.order.totalAmount == GrandTotal(items)
  {
  }

  /** Checkout charges the service balances too: it asks for the drawer's
      "pay now" figure plus the balance due after the service plus shipping. */
  lemma CheckoutChargesFullPrice(items: Cart.Items)
    ensures GrandTotal(items) == CartView.PayNow(items) + CartView.ServiceBalance(items) + Shipping
  {
  }

  /** The drawer's sign-in detour and the checkout page guard the same
      thing: the drawer sends a visitor to sign in exactly when the page,
      for that visitor, would send no order. */
  lemma SignInDetourGuardsCheckout(user: Option<ServerBookings.AuthUser>, items: Cart.Items, address: Orders.Address)
    ensures CartView.CheckoutClick(user.Some?).GoToSignIn? <==> HandleCheckout(user, items, address).None?
    ensures user.Some? ==> HandleCheckout(user, items, address).value.body.cartItems == OrderLines(items)
  {
  }

  /** What the widget's success callback posts to `/payments/verify`: the
      order id the server returned and the gateway's payment id, order id and
      signature. It carries no booking id. */
  function VerificationRequest(created: Orders.Created, paymentId: string, gatewayOrderId: string, signature: string)
    : (r: Payments.VerifyRequest)
    ensures r.bookingId.None? && r.orderId == Some(created.orderId)
    ensures r.paymentId == paymentId && r.gatewayOrderId == gatewayOrderId && r.signature == signature
  {
    Payments.VerifyRequest(None, Some(created.orderId), paymentId, gatewayOrderId, signature)
  }

  /** The cart once the verification call settles. The API client throws on
      any status other than success, and only a call that does not throw
      reaches `clearCart`. */
  function AfterPayment(items: Cart.Items, outcome: Payments.Outcome): (r: Cart.Items)
    ensures Payments.StatusCode(outcome) == 200 ==> r == [] && Cart.TotalItems(r) == 0 && Cart.Subtotal(r) == 0
    ensures Payments.StatusCode(outcome) != 200 ==> r == items
  {
    if Payments.StatusCode(outcome) == 200 then Cart.ClearCart(items) else items
  }

  /** For the order this page just created, the server accepts the
      verification as an order payment exactly when the gateway's signature
      is genuine and the confirmation mail goes out; a genuine signature whose
      mail fails gets a 500 reply. So the cart is emptied exactly when both
      hold and is otherwise kept whole. */
  lemma {:induction false} CartClearedIffPaymentConfirmed(items: Cart.Items, store: Orders.Store, user: ServerBookings.AuthUser,
                                                          body: Orders.CreateBody, now: nat, paymentId: string,
                                                          gatewayOrderId: string, signature: string,
                                                          hmacHex: string -> string, mail: Payments.MailService)
    ensures var created := Orders.Create(store, user, body, now).1;
      var req := VerificationRequest(created, paymentId, gatewayOrderId, signature);
      var outcome := Payments.Verify(req, user, hmacHex, mail);
      var delivered := Payments.SendEmail(mail, Payments.OrderMail(user.email, created.orderId)).None?;
      && (outcome.OrderVerified? <==> Payments.SignatureValid(hmacHex, req) && delivered)
      && (outcome.OrderVerified? ==> outcome.orderId == created.order.id)
      && (Payments.SignatureValid(hmacHex, req) && !delivered ==> Payments.StatusCode(outcome) == 500)
      && (Payments.SignatureValid(hmacHex, req) && delivered ==> AfterPayment(items, outcome) == [])
      && (!(Payments.SignatureValid(hmacHex, req) && delivered) ==> AfterPayment(items, outcome) == items)
  {
    var created := Orders.Create(store, user, body, now).1;
    var req := VerificationRequest(created, paymentId, gatewayOrderId, signature);
    assert |created.orderId| > 3;
    assert Truthy(req.orderId) && !Truthy(req.bookingId);
  }
}
