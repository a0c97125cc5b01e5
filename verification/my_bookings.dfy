/** The customer's booking page (`src/pages/MyBookings.tsx`): the gate on
    the cancel button and the conditions under which the amounts, the rating
    action, the feedback badge and the refund note are shown. The page is
    the only place a booking's status is consulted before cancelling; the
    mock store it calls checks none. */
module MyBookings {
  import opened Common
  import opened Bookings
  import MockApi
  import BookingForm

  /** `canCancel(booking)`: at least six hours before `scheduledAt`, and the
      booking neither cancelled nor completed. */
  function CanCancel(b: Booking, now: int, parse: DateParser): (r: bool)
    ensures r <==> (b.status == Locked || b.status == Confirmed)
                   && parse(b.scheduledAt).Some? && parse(b.scheduledAt).value >= now + 6 * 60 * 60 * 1000
    ensures r ==> !LessThanSixHours(parse(b.scheduledAt), now)
    ensures (b.status == Locked || b.status == Confirmed) && parse(b.scheduledAt) == Some(now + SixHoursMs) ==> r
  {
    AtLeastSixHours(parse(b.scheduledAt), now) && b.status != Cancelled && b.status != Completed
  }

  /** Whenever the page offers the cancel button, the mock store accepts the
      cancellation at that instant and refunds the deposit. */
  lemma OfferedCancelSucceeds(store: MockApi.Store, bookingId: string, now: nat, parse: DateParser)
    requires !MockApi.Unknown(store, bookingId)
    requires CanCancel(store[MockApi.IndexOf(store, bookingId).value], now, parse)
    ensures var r := MockApi.CancelBooking(store, bookingId, now, parse);
      && r.Ok? && r.value.1.success
      && r.value.0[MockApi.IndexOf(store, bookingId).value].status == Cancelled
      && r.value.0[MockApi.IndexOf(store, bookingId).value].paymentStatus == Refunded
  {
  }

  /** The gate is strictly stricter than the store: a booking whose date
      cannot be parsed, or that is already cancelled or completed, has no
      cancel button, yet the store would cancel it if asked. */
  lemma GateStricterThanStore(store: MockApi.Store, bookingId: string, now: nat, parse: DateParser)
    requires !MockApi.Unknown(store, bookingId)
    requires var b := store[MockApi.IndexOf(store, bookingId).value];
      parse(b.scheduledAt).None? || (b.status in {Cancelled, Completed} && !LessThanSixHours(parse(b.scheduledAt), now))
    ensures !CanCancel(store[MockApi.IndexOf(store, bookingId).value], now, parse)
    ensures var r := MockApi.CancelBooking(store, bookingId, now, parse);
      r.Ok? && r.value.1.success
  {
  }

  /** Exactly six hours ahead is still cancellable, one millisecond less is
      not, and at that point the store refuses as well. */
  lemma SixHourBoundary(b: Booking, now: int, parse: DateParser)
    requires b.status == Locked || b.status == Confirmed
    ensures parse(b.scheduledAt) == Some(now + SixHoursMs) ==> CanCancel(b, now, parse)
    ensures parse(b.scheduledAt) == Some(now + SixHoursMs - 1) ==>
      !CanCancel(b, now, parse) && LessThanSixHours(parse(b.scheduledAt), now)
  {
  }

  /** The "Remaining" figure of a booking card. For a booking whose deposit
      was computed by the form, it is the balance the form showed, and lies
      between zero and the total. */
  function RemainingAmount(b: Booking): (r: int)
    ensures b.totalAmount >= 0 && b.lockingAmount == BookingForm.LockingAmount(b.totalAmount) ==>
      r == BookingForm.Remaining(b.totalAmount) && 0 <= r <= b.totalAmount
  {
    b.totalAmount - b.lockingAmount
  }

  /** For a booking made through the form, the card shows the same balance
      the form showed before submitting, and it is never negative. */
  lemma RemainingAsOnForm(b: Booking)
    requires b.totalAmount >= 0 && b.lockingAmount == BookingForm.LockingAmount(b.totalAmount)
    ensures RemainingAmount(b) == BookingForm.Remaining(b.totalAmount)
    ensures 0 <= RemainingAmount(b) <= b.totalAmount
  {
    BookingForm.DepositSplit(b.totalAmount);
  }

  /** "Rate Service" is offered on a completed booking without feedback; such
      a card never carries a refund note. */
  function ShowRateAction(b: Booking): (r: bool)
    ensures r ==> b.status == Completed && Note(b) == NoNote
  {
    b.status == Completed && b.feedback.None?
  }

  /** "Feedback Submitted" is shown on a completed booking with feedback: on
      a completed card it takes the place of the rating action. */
  function ShowFeedbackBadge(b: Booking): (r: bool)
    ensures r <==> b.status == Completed && !ShowRateAction(b)
  {
    b.status == Completed && b.feedback.Some?
  }

  /** A card shows at most one of the two, and a completed booking exactly one. */
  lemma RateOrBadge(b: Booking)
    ensures !(ShowRateAction(b) && ShowFeedbackBadge(b))
    ensures b.status == Completed <==> ShowRateAction(b) || ShowFeedbackBadge(b)
  {
  }

  /** Marking a booking complete offers the rating; rating it then replaces
      the action by the badge. */
  lemma CompleteThenRate(store: MockApi.Store, bookingId: string, now: nat, rating: int, comments: string, later: nat)
    requires !MockApi.Unknown(store, bookingId)
    requires store[MockApi.IndexOf(store, bookingId).value].feedback.None?
    ensures var k := MockApi.IndexOf(store, bookingId).value;
      var done := MockApi.MarkBookingComplete(store, bookingId, now);
      && done.Ok? && ShowRateAction(done.value[k])
      && MockApi.IndexOf(done.value, bookingId) == Some(k)
      && var rated := MockApi.SubmitFeedback(done.value, bookingId, rating, comments, later);
         rated.Ok? && ShowFeedbackBadge(rated.value[k]) && !ShowRateAction(rated.value[k])
  {
    var k := MockApi.IndexOf(store, bookingId).value;
    var done := MockApi.MarkBookingComplete(store, bookingId, now).value;
    MockApi.IndexOfAfterUpdate(store, bookingId, k, done[k]);
  }

  /** The note under a cancelled booking. */
  datatype RefundNote = NoNote | RefundInProgress(amount: int) | RefundDone

  function Note(b: Booking): (r: RefundNote)
    ensures r == NoNote <==> b.status != Cancelled
    ensures r.RefundInProgress? <==> b.status == Cancelled && b.refundStatus == Some(RefundProcessing)
    ensures r.RefundInProgress? ==> r.amount == b.lockingAmount
  {
    if b.status != Cancelled then NoNote
    else if b.refundStatus == Some(RefundProcessing) then RefundInProgress(b.lockingAmount)
    else RefundDone
  }

  /** Right after a successful cancellation the card promises the deposit back. */
  lemma CancelShowsRefund(store: MockApi.Store, bookingId: string, now: nat, parse: DateParser)
    requires !MockApi.Unknown(store, bookingId)
    requires !LessThanSixHours(parse(store[MockApi.IndexOf(store, bookingId).value].scheduledAt), now)
    ensures var k := MockApi.IndexOf(store, bookingId).value;
      var r := MockApi.CancelBooking(store, bookingId, now, parse);
      r.Ok? && Note(r.value.0[k]) == RefundInProgress(store[k].lockingAmount)
  {
  }
}
