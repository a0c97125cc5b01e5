/** The client-side mock booking store (`MockApi` in `src/data/mockApi.ts`):
    an array of bookings that the pages create, list and mutate. Every
    operation here is a pure function from the old array to the new one;
    the artificial delays are dropped. None of the mutations looks at the
    booking's current status. */
module MockApi {
  import opened Common
  import opened Strings
  import opened Bookings

  type Store = seq<Booking>

  const PaymentUrl := "/payment/mock"
  const NotFound := "Booking not found"
  const TooLateMessage := "Cannot cancel - less than 6 hours remaining before scheduled time"
  const RefundMessage := "100% refund will be processed within 5-7 business days"

  /** The id `createBooking` generates: `BKG` followed by the current time. */
  function GeneratedId(now: nat): string {
    "BKG" + NatToString(now)
  }

  /** `b` agrees with the caller's data everywhere except in the five fields `createBooking` sets. */
  predicate CarriesRequest(b: Booking, data: Booking) {
    b == data.(id := b.id, status := b.status, paymentStatus := b.paymentStatus,
               createdAt := b.createdAt, scheduledAt := b.scheduledAt)
  }

  datatype Created = Created(store: Store, bookingId: string, paymentUrl: string)

  /** `createBooking(bookingData)`. The caller's fields are spread over the
      generated id, so an id the caller supplies wins; status, payment status,
      creation time and scheduled time are always overwritten. */
  function CreateBooking(store: Store, data: Booking, suppliedId: Option<string>, now: nat): (r: Created)
    ensures |r.store| == |store| + 1 && r.store[..|store|] == store
    ensures r.store[|store|].status == Locked && r.store[|store|].paymentStatus == Pending
    ensures r.store[|store|].scheduledAt == data.preferredDate + "T" + data.preferredTime
    ensures r.store[|store|].createdAt == now
    ensures r.store[|store|].id == r.bookingId
    ensures r.bookingId == if suppliedId.Some? then suppliedId.value else GeneratedId(now)
    ensures CarriesRequest(r.store[|store|], data)
    ensures r.paymentUrl == PaymentUrl
  {
    var id := suppliedId.GetOr(GeneratedId(now));
    var b := data.(id := id, status := Locked, paymentStatus := Pending, createdAt := now,
                   scheduledAt := data.preferredDate + "T" + data.preferredTime);
    Created(store + [b], id, PaymentUrl)
  }

  /** `getBookingsByEmail(email)`. */
  function BookingsByEmail(store: Store, email: string): (r: seq<Booking>)
    ensures forall i :: 0 <= i < |r| ==> r[i].email == email
    ensures forall b :: b in store && b.email == email ==> b in r
    ensures forall b :: multiset(r)[b] == if b.email == email then multiset(store)[b] else 0
    ensures SubsequenceOf(r, store)
  {
    FilterIsSubsequence((b: Booking) => b.email == email, store);
    Filter((b: Booking) => b.email == email, store)
  }

  /** `getAllBookings()`: a copy of the whole array, in insertion order. */
  function AllBookings(store: Store): (r: seq<Booking>)
    ensures |r| == |store| && forall i :: 0 <= i < |r| ==> r[i] == store[i]
  {
    store
  }

  /** `bookings.find(b => b.id === bookingId)`, as an index. */
  function IndexOf(store: Store, bookingId: string): (r: Option<nat>)
    ensures r.Some? ==> r.value < |store| && store[r.value].id == bookingId
    ensures r.Some? ==> forall j :: 0 <= j < r.value ==> store[j].id != bookingId
    ensures r.None? <==> forall j :: 0 <= j < |store| ==> store[j].id != bookingId
  {
    FindFirst((b: Booking) => b.id == bookingId, store)
  }

  /** Replacing the found booking by one with the same id keeps it the one found. */
  lemma IndexOfAfterUpdate(store: Store, bookingId: string, k: nat, c: Booking)
    requires IndexOf(store, bookingId) == Some(k)
    requires c.id == bookingId
    ensures IndexOf(store[k := c], bookingId) == Some(k)
  {
    var t := store[k := c];
    assert t[k].id == bookingId;
    assert forall j :: 0 <= j < k ==> t[j].id != bookingId;
  }

  predicate Unknown(store: Store, bookingId: string) {
    forall j :: 0 <= j < |store| ==> store[j].id != bookingId
  }

  datatype CancelReply = CancelReply(success: bool, refundStatus: RefundStatus, message: string)

  /** `cancelBooking(bookingId)`: throws on an unknown id; refuses without
      mutation when fewer than six hours remain before `scheduledAt`;
      otherwise cancels and flags the refund, whatever the current status. */
  function CancelBooking(store: Store, bookingId: string, now: nat, parse: DateParser)
    : (r: Result<(Store, CancelReply), string>)
    ensures r.Err? <==> Unknown(store, bookingId)
    ensures r.Err? ==> r.error == NotFound
    ensures r.Ok? ==>
      var k := IndexOf(store, bookingId).value;
      var b := store[k];
      if LessThanSixHours(parse(b.scheduledAt), now) then
        r.value == (store, CancelReply(false, RefundNone, TooLateMessage))
      else
        && r.value.1 == CancelReply(true, RefundProcessing, RefundMessage)
        && r.value.0 == store[k := b.(status := Cancelled, cancelledAt := Some(now),
                                       refundStatus := Some(RefundProcessing), paymentStatus := Refunded)]
  {
    match IndexOf(store, bookingId)
    case None => Err(NotFound)
    case Some(k) =>
      var b := store[k];
      if LessThanSixHours(parse(b.scheduledAt), now) then
        Ok((store, CancelReply(false, RefundNone, TooLateMessage)))
      else
        var cancelled := b.(status := Cancelled, cancelledAt := Some(now),
                            refundStatus := Some(RefundProcessing), paymentStatus := Refunded);
        Ok((store[k := cancelled], CancelReply(true, RefundProcessing, RefundMessage)))
  }

  /** `markBookingComplete(bookingId)`: any existing booking becomes completed. */
  function MarkBookingComplete(store: Store, bookingId: string, now: nat): (r: Result<Store, string>)
    ensures r.Err? <==> Unknown(store, bookingId)
    ensures r.Err? ==> r.error == NotFound
    ensures r.Ok? ==>
      var k := IndexOf(store, bookingId).value;
      r.value == store[k := store[k].(status := Completed, completedAt := Some(now))]
  {
    match IndexOf(store, bookingId)
    case None => Err(NotFound)
    case Some(k) => Ok(store[k := store[k].(status := Completed, completedAt := Some(now))])
  }

  /** `submitFeedback(bookingId, rating, comments)`: overwrites any earlier
      feedback; neither the rating range nor the status is checked. */
  function SubmitFeedback(store: Store, bookingId: string, rating: int, comments: string, now: nat)
    : (r: Result<Store, string>)
    ensures r.Err? <==> Unknown(store, bookingId)
    ensures r.Err? ==> r.error == NotFound
    ensures r.Ok? ==>
      var k := IndexOf(store, bookingId).value;
      r.value == store[k := store[k].(feedback := Some(Feedback(rating, comments, now)))]
  {
    match IndexOf(store, bookingId)
    case None => Err(NotFound)
    case Some(k) => Ok(store[k := store[k].(feedback := Some(Feedback(rating, comments, now)))])
  }

  datatype PaymentReply = PaymentReply(success: bool, paymentId: string)

  /** `processPayment(bookingId)`: marks the deposit paid and the booking confirmed. */
  function ProcessPayment(store: Store, bookingId: string, now: nat): (r: Result<(Store, PaymentReply), string>)
    ensures r.Err? <==> Unknown(store, bookingId)
    ensures r.Err? ==> r.error == NotFound
    ensures r.Ok? ==>
      var k := IndexOf(store, bookingId).value;
      && r.value.0 == store[k := store[k].(paymentStatus := Paid, status := Confirmed)]
      && r.value.1 == PaymentReply(true, "PAY" + NatToString(now))
  {
    match IndexOf(store, bookingId)
    case None => Err(NotFound)
    case Some(k) =>
      Ok((store[k := store[k].(paymentStatus := Paid, status := Confirmed)], PaymentReply(true, "PAY" + NatToString(now))))
  }

  /** Creating a booking adds it to exactly one customer's list, at the end,
      and leaves every list in the order it had. */
  lemma CreateThenList(store: Store, data: Booking, suppliedId: Option<string>, now: nat, email: string)
    ensures var c := CreateBooking(store, data, suppliedId, now);
      BookingsByEmail(c.store, email) ==
        BookingsByEmail(store, email) + (if data.email == email then [c.store[|store|]] else [])
  {
    var c := CreateBooking(store, data, suppliedId, now);
    var p := (b: Booking) => b.email == email;
    assert c.store == store + [c.store[|store|]];
    FilterAppend(p, store, [c.store[|store|]]);
    assert c.store[|store|].email == data.email;
  }

  /** The mock store puts no order on the lifecycle: a completed booking far
      enough in the future is cancelled, and its deposit marked refunded. */
  lemma CancelIgnoresStatus(store: Store, bookingId: string, now: nat, parse: DateParser)
    requires !Unknown(store, bookingId)
    requires store[IndexOf(store, bookingId).value].status == Completed
    requires !LessThanSixHours(parse(store[IndexOf(store, bookingId).value].scheduledAt), now)
    ensures var r := CancelBooking(store, bookingId, now, parse);
      r.Ok? && r.value.1.success && r.value.0[IndexOf(store, bookingId).value].status == Cancelled
  {
  }

  /** No mock operation removes or reorders bookings: the sequence of ids is unchanged by every mutation. */
  lemma MutationsKeepIds(store: Store, bookingId: string, now: nat, parse: DateParser, rating: int, comments: string)
    ensures var r := CancelBooking(store, bookingId, now, parse);
      r.Ok? ==> SameIds(r.value.0, store)
    ensures var r := MarkBookingComplete(store, bookingId, now); r.Ok? ==> SameIds(r.value, store)
    ensures var r := SubmitFeedback(store, bookingId, rating, comments, now); r.Ok? ==> SameIds(r.value, store)
    ensures var r := ProcessPayment(store, bookingId, now); r.Ok? ==> SameIds(r.value.0, store)
  {
    if IndexOf(store, bookingId).Some? {
      var k := IndexOf(store, bookingId).value;
      var b := store[k];
      UpdateKeepsIds(store, k, b.(status := Cancelled, cancelledAt := Some(now),
                                  refundStatus := Some(RefundProcessing), paymentStatus := Refunded));
      UpdateKeepsIds(store, k, b.(status := Completed, completedAt := Some(now)));
      UpdateKeepsIds(store, k, b.(feedback := Some(Feedback(rating, comments, now))));
      UpdateKeepsIds(store, k, b.(paymentStatus := Paid, status := Confirmed));
    }
  }

  /** Replacing one booking by a record with the same id keeps the ids. */
  lemma UpdateKeepsIds(store: Store, k: nat, c: Booking)
    requires k < |store| && c.id == store[k].id
    ensures SameIds(store[k := c], store)
  {
  }

  predicate SameIds(s: Store, t: Store) {
    |s| == |t| && forall i :: 0 <= i < |s| ==> s[i].id == t[i].id
  }
}
