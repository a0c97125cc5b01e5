/** The server's order routes (`server/src/routes/orders.ts`): product
    orders kept in an in-memory array, each paid in full through the gateway. */
module Orders {
  import opened Common
  import opened Strings
  import Bookings
  import ServerBookings

  /** One line of the cart as the checkout page sends it. */
  datatype OrderLine = OrderLine(productId: string, productName: string, qty: int, price: int)

  datatype Address = Address(street: string, city: string, state: string, pincode: string, phone: string)

  datatype Order = Order(
    id: string,
    userId: string,
    userName: string,
    userEmail: string,
    items: seq<OrderLine>,
    totalAmount: int,
    shipping: int,
    address: Address,
    status: string,
    paymentStatus: Bookings.PaymentStatus,
    createdAt: nat)

  /** The body of `POST /orders`; `shipping` may be absent. */
  datatype CreateBody = CreateBody(cartItems: seq<OrderLine>, totalAmount: int, shipping: Option<int>, address: Address)

  datatype Created = Created(orderId: string, order: Order, gatewayOrder: ServerBookings.GatewayOrderRequest)

  type Store = seq<Order>

  /** `shipping || 0`: an absent or zero shipping charge is stored as 0. */
  function ShippingOrZero(shipping: Option<int>): (r: int)
    ensures shipping.None? ==> r == 0
    ensures shipping.Some? ==> r == shipping.value
  {
    match shipping
    case None => 0
    case Some(v) => v
  }

  /** The id of an order created at `now`: `ORD` followed by the time. */
  function OrderId(now: nat): (r: string)
    ensures |r| > 3 && r[..3] == "ORD" && r[3..] == NatToString(now)
  {
    "ORD" + NatToString(now)
  }

  /** `POST /orders`: stores a pending order for the caller and asks the
      gateway for the client-supplied total in paise; the items are not
      re-priced. */
  function Create(store: Store, user: ServerBookings.AuthUser, body: CreateBody, now: nat): (r: (Store, Created))
    ensures r.0 == store + [r.1.order]
    ensures r.1.orderId == OrderId(now) == r.1.order.id
    ensures r.1.order.status == "pending" && r.1.order.paymentStatus == Bookings.Pending
    ensures r.1.order.userId == user.id && r.1.order.userName == user.name && r.1.order.userEmail == user.email
    ensures r.1.order.items == body.cartItems && r.1.order.totalAmount == body.totalAmount
    ensures r.1.order.shipping == (if body.shipping.Some? then body.shipping.value else 0)
    ensures r.1.order.address == body.address && r.1.order.createdAt == now
    ensures r.1.gatewayOrder == ServerBookings.GatewayOrderRequest(body.totalAmount * 100, r.1.orderId, r.1.orderId, "product_order")
  {
    var id := OrderId(now);
    var o := Order(id, user.id, user.name, user.email, body.cartItems, body.totalAmount,
                   ShippingOrZero(body.shipping), body.address, "pending", Bookings.Pending, now);
    (store + [o], Created(id, o, ServerBookings.GatewayOrderRequest(body.totalAmount * 100, id, id, "product_order")))
  }

  /** `GET /orders`: the caller's orders, in creation order. */
  function List(store: Store, user: ServerBookings.AuthUser): (r: seq<Order>)
    ensures forall i :: 0 <= i < |r| ==> r[i].userEmail == user.email
    ensures forall o :: o in store && o.userEmail == user.email ==> o in r
    ensures forall o :: multiset(r)[o] == if o.userEmail == user.email then multiset(store)[o] else 0
    ensures SubsequenceOf(r, store)
  {
    FilterIsSubsequence((o: Order) => o.userEmail == user.email, store);
    Filter((o: Order) => o.userEmail == user.email, store)
  }

  /** A new order shows up at the end of its owner's list and in nobody else's. */
  lemma CreateThenList(store: Store, user: ServerBookings.AuthUser, body: CreateBody, now: nat, viewer: ServerBookings.AuthUser)
    ensures var (s, c) := Create(store, user, body, now);
      List(s, viewer) == List(store, viewer) + (if viewer.email == user.email then [c.order] else [])
  {
    var (s, c) := Create(store, user, body, now);
    FilterAppend((o: Order) => o.userEmail == viewer.email, store, [c.order]);
  }

  /** Orders created at different times get different ids. */
  lemma OrderIdsDistinct(m: nat, n: nat)
    requires m != n
    ensures OrderId(m) != OrderId(n)
  {
    if OrderId(m) == OrderId(n) {
      assert OrderId(m)[3..] == OrderId(n)[3..];
      NatToStringInjective(m, n);
    }
  }
}
