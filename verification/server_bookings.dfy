/** The server's booking routes (`server/src/routes/bookings.ts`): an
    in-memory array of booking records owned by the authenticated caller's
    e-mail address. The server's records use their own status vocabulary:
    they are created `pending`, a value outside the client's booking
    statuses, and cancellation never touches the payment status. */
module ServerBookings {
  import opened Common
  import opened Strings
  import Bookings

  /** The claims of the caller's token, as the authentication middleware attaches them. */
  datatype AuthUser = AuthUser(id: string, email: string, name: string)

  datatype ServerStatus = StatusPending | StatusCancelled

  datatype ServerBooking = ServerBooking(
    id: string,
    serviceId: string,
    serviceName: string,
    packageId: string,
    packageName: string,
    userId: string,
    userName: string,
    userEmail: string,
    preferredDate: string,
    preferredTime: string,
    city: string,
    pincode: string,
    totalAmount: int,
    lockingAmount: int,
    notes: Option<string>,
    status: ServerStatus,
    paymentStatus: Bookings.PaymentStatus,
    createdAt: nat,
    refundStatus: Option<Bookings.RefundStatus>,
    cancelledAt: Option<nat>)

  /** The fields `POST /bookings` reads from the request body. */
  datatype CreateBody = CreateBody(
    serviceId: string,
    serviceName: string,
    packageId: string,
    packageName: string,
    preferredDate: string,
    preferredTime: string,
    totalAmount: int,
    lockingAmount: int,
    city: string,
    pincode: string,
    notes: Option<string>)

  /** The order the route asks the payment gateway to open: amount in paise,
      receipt id, and the notes attached to it. */
  datatype GatewayOrderRequest = GatewayOrderRequest(amountPaise: int, receipt: string, noteId: string, purpose: string)

  datatype Created = Created(bookingId: string, booking: ServerBooking, gatewayOrder: GatewayOrderRequest)

  type Store = seq<ServerBooking>

  /** `POST /bookings`: stores a pending booking owned by the caller and asks
      for a gateway order of the client-supplied deposit, converted to paise. */
  function Create(store: Store, user: AuthUser, body: CreateBody, now: nat): (r: (Store, Created))
    ensures r.0 == store + [r.1.booking]
    ensures r.1.bookingId == "BKG" + NatToString(now) == r.1.booking.id
    ensures r.1.booking.status == StatusPending && r.1.booking.paymentStatus == Bookings.Pending
    ensures r.1.booking.userId == user.id && r.1.booking.userName == user.name && r.1.booking.userEmail == user.email
    ensures r.1.booking.refundStatus.None? && r.1.booking.cancelledAt.None? && r.1.booking.createdAt == now
    ensures RecordsBody(r.1.booking, body)
    ensures r.1.gatewayOrder == GatewayOrderRequest(body.lockingAmount * 100, r.1.bookingId, r.1.bookingId, "booking_lock")
  {
    var id := "BKG" + NatToString(now);
    var b := ServerBooking(id, body.serviceId, body.serviceName, body.packageId, body.packageName,
                           user.id, user.name, user.email, body.preferredDate, body.preferredTime,
                           body.city, body.pincode, body.totalAmount, body.lockingAmount, body.notes,
                           StatusPending, Bookings.Pending, now, None, None);
    (store + [b], Created(id, b, GatewayOrderRequest(body.lockingAmount * 100, id, id, "booking_lock")))
  }

  /** The stored record carries every body field unchanged. */
  predicate RecordsBody(b: ServerBooking, body: CreateBody) {
    && b.serviceId == body.serviceId && b.serviceName == body.serviceName
    && b.packageId == body.packageId && b.packageName == body.packageName
    && b.preferredDate == body.preferredDate && b.preferredTime == body.preferredTime
    && b.totalAmount == body.totalAmount && b.lockingAmount == body.lockingAmount
    && b.city == body.city && b.pincode == body.pincode && b.notes == body.notes
  }

  /** `GET /bookings`: the caller's bookings, in creation order. */
  function List(store: Store, user: AuthUser): (r: seq<ServerBooking>)
    ensures forall i :: 0 <= i < |r| ==> r[i].userEmail == user.email
    ensures forall b :: b in store && b.userEmail == user.email ==> b in r
    ensures forall b :: multiset(r)[b] == if b.userEmail == user.email then multiset(store)[b] else 0
    ensures SubsequenceOf(r, store)
  {
    FilterIsSubsequence((b: ServerBooking) => b.userEmail == user.email, store);
    Filter((b: ServerBooking) => b.userEmail == user.email, store)
  }

  datatype CancelOutcome = NotFound | TooLate | CancelledOk(booking: ServerBooking)

  function StatusCode(o: CancelOutcome): int {
    match o
    case NotFound => 404
    case TooLate => 400
    case CancelledOk(_) => 200
  }

  predicate Owned(b: ServerBooking, id: string, user: AuthUser) {
    b.id == id && b.userEmail == user.email
  }

  /** `POST /bookings/:id/cancel`: the booking must match both the id and the
      caller's e-mail; the six-hour rule is measured to `preferredDate`
      alone; a success cancels and flags the refund but leaves the payment
      status as it was, and an already cancelled booking is cancelled again. */
  function Cancel(store: Store, id: string, user: AuthUser, now: nat, parse: Bookings.DateParser)
    : (r: (Store, CancelOutcome))
    ensures (forall j :: 0 <= j < |store| ==> !Owned(store[j], id, user)) <==> r.1 == NotFound
    ensures !r.1.CancelledOk? ==> r.0 == store
    ensures r.1.CancelledOk? ==>
      exists k :: 0 <= k < |store| && Owned(store[k], id, user)
        && (forall j :: 0 <= j < k ==> !Owned(store[j], id, user))
        && !Bookings.LessThanSixHours(parse(store[k].preferredDate), now)
        && r.1.booking == store[k].(status := StatusCancelled, refundStatus := Some(Bookings.RefundProcessing), cancelledAt := Some(now))
        && r.0 == store[k := r.1.booking]
    ensures r.1 == TooLate <==>
      exists k :: 0 <= k < |store| && Owned(store[k], id, user)
        && (forall j :: 0 <= j < k ==> !Owned(store[j], id, user))
        && Bookings.LessThanSixHours(parse(store[k].preferredDate), now)
  {
    match FindFirst((b: ServerBooking) => Owned(b, id, user), store)
    case None => (store, NotFound)
    case Some(k) =>
      var b := store[k];
      if Bookings.LessThanSixHours(parse(b.preferredDate), now) then (store, TooLate)
      else
        var c := b.(status := StatusCancelled, refundStatus := Some(Bookings.RefundProcessing), cancelledAt := Some(now));
        (store[k := c], CancelledOk(c))
  }

  /** A new booking shows up at the end of its owner's list and in nobody else's. */
  lemma CreateThenList(store: Store, user: AuthUser, body: CreateBody, now: nat, viewer: AuthUser)
    ensures var (s, c) := Create(store, user, body, now);
      List(s, viewer) == List(store, viewer) + (if viewer.email == user.email then [c.booking] else [])
  {
    var (s, c) := Create(store, user, body, now);
    FilterAppend((b: ServerBooking) => b.userEmail == viewer.email, store, [c.booking]);
  }

  /** A caller can never cancel someone else's booking: records owned by
      other addresses are identical before and after any cancel request. */
  lemma CancelSparesOthers(store: Store, id: string, user: AuthUser, now: nat, parse: Bookings.DateParser)
    ensures var (s, _) := Cancel(store, id, user, now, parse);
      |s| == |store| && forall j :: 0 <= j < |store| && store[j].userEmail != user.email ==> s[j] == store[j]
  {
  }

  /** Cancelling preserves the payment status: a paid deposit stays recorded as paid. */
  lemma CancelKeepsPaymentStatus(store: Store, id: string, user: AuthUser, now: nat, parse: Bookings.DateParser)
    ensures var (s, _) := Cancel(store, id, user, now, parse);
      |s| == |store| && forall j :: 0 <= j < |store| ==> s[j].paymentStatus == store[j].paymentStatus
  {
  }
}
