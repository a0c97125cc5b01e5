/** The administrator's page (`src/pages/Admin.tsx`): the status filter over
    all bookings, the per-status counts, and when the "Complete" action and
    the customer's rating are shown. */
module Admin {
  import opened Common
  import opened Bookings
  import MockApi
  import MyBookings

  /** The values of the status selector: "all" or one booking status. */
  datatype StatusFilter = AllStatuses | OnlyStatus(status: BookingStatus)

  predicate Selected(f: StatusFilter, b: Booking) {
    f.AllStatuses? || b.status == f.status
  }

  /** `filteredBookings`. */
  function FilteredBookings(bookings: seq<Booking>, f: StatusFilter): (r: seq<Booking>)
    ensures f.AllStatuses? ==> r == bookings
    ensures f.OnlyStatus? ==> forall i :: 0 <= i < |r| ==> r[i].status == f.status
    ensures f.OnlyStatus? ==> forall b :: b in bookings && b.status == f.status ==> b in r
    ensures f.OnlyStatus? ==> forall b :: multiset(r)[b] == if b.status == f.status then multiset(bookings)[b] else 0
    ensures SubsequenceOf(r, bookings)
  {
    FilterIsSubsequence((b: Booking) => Selected(f, b), bookings);
    FilterAll((b: Booking) => Selected(AllStatuses, b), bookings);
    Filter((b: Booking) => Selected(f, b), bookings)
  }

  datatype Stats = Stats(total: nat, locked: nat, confirmed: nat, completed: nat, cancelled: nat)

  /** The number of bookings with status `s`. */
  function CountStatus(bookings: seq<Booking>, s: BookingStatus): nat {
    |Filter((b: Booking) => b.status == s, bookings)|
  }

  /** `stats`: every figure is the size of the list the filter would show for it. */
  function ComputeStats(bookings: seq<Booking>): (r: Stats)
    ensures r.total == |FilteredBookings(bookings, AllStatuses)|
    ensures r.locked == |FilteredBookings(bookings, OnlyStatus(Locked))|
    ensures r.confirmed == |FilteredBookings(bookings, OnlyStatus(Confirmed))|
    ensures r.completed == |FilteredBookings(bookings, OnlyStatus(Completed))|
    ensures r.cancelled == |FilteredBookings(bookings, OnlyStatus(Cancelled))|
  {
    SameFilter(bookings, Locked);
    SameFilter(bookings, Confirmed);
    SameFilter(bookings, Completed);
    SameFilter(bookings, Cancelled);
    Stats(|bookings|, CountStatus(bookings, Locked), CountStatus(bookings, Confirmed),
          CountStatus(bookings, Completed), CountStatus(bookings, Cancelled))
  }

  lemma SameFilter(bookings: seq<Booking>, s: BookingStatus)
    ensures CountStatus(bookings, s) == |FilteredBookings(bookings, OnlyStatus(s))|
  {
    FilterCongruent((b: Booking) => b.status == s, (b: Booking) => Selected(OnlyStatus(s), b), bookings);
  }

  /** Every booking has exactly one of the four statuses, so the four counts add up to the total. */
  lemma {:induction false} CountsAddUp(bookings: seq<Booking>)
    ensures var st := ComputeStats(bookings);
      st.locked + st.confirmed + st.completed + st.cancelled == st.total
  {
    StatusCountsAddUp(bookings);
  }

  lemma {:induction false} StatusCountsAddUp(bookings: seq<Booking>)
    ensures CountStatus(bookings, Locked) + CountStatus(bookings, Confirmed)
      + CountStatus(bookings, Completed) + CountStatus(bookings, Cancelled) == |bookings|
    decreases |bookings|
  {
    if bookings != [] {
      StatusCountsAddUp(bookings[1..]);
    }
  }

  /** The "Complete" action is offered on confirmed bookings only: such a row
      shows no rating, and its customer sees neither the rating action nor the badge. */
  function ShowComplete(b: Booking): (r: bool)
    ensures r <==> b.status == Confirmed
    ensures r ==> ShownRating(b).None? && !MyBookings.ShowRateAction(b) && !MyBookings.ShowFeedbackBadge(b)
  {
    b.status == Confirmed
  }

  /** A booking just created through the API is locked and unpaid, so the
      administrator is not yet offered "Complete" on it, while every earlier
      row keeps whatever action it had. */
  lemma NewBookingNotCompletable(store: MockApi.Store, data: Booking, suppliedId: Option<string>, now: nat)
    ensures var r := MockApi.CreateBooking(store, data, suppliedId, now);
      && !ShowComplete(r.store[|store|])
      && forall i :: 0 <= i < |store| ==> ShowComplete(r.store[i]) == ShowComplete(store[i])
  {
    var r := MockApi.CreateBooking(store, data, suppliedId, now);
    assert forall i :: 0 <= i < |store| ==> r.store[i] == r.store[..|store|][i];
  }

  /** The rating shown in a booking row, if any. */
  function ShownRating(b: Booking): (r: Option<int>)
    ensures r.Some? <==> b.status == Completed && b.feedback.Some?
    ensures r.Some? ==> r.value == b.feedback.value.rating
  {
    if b.status == Completed && b.feedback.Some? then Some(b.feedback.value.rating) else None
  }

  /** The administrator sees a rating exactly where the customer sees the feedback badge. */
  lemma RatingMatchesBadge(b: Booking)
    ensures ShownRating(b).Some? <==> MyBookings.ShowFeedbackBadge(b)
  {
  }

  /** Paying the deposit makes a booking completable; completing it removes the action. */
  lemma PayThenComplete(store: MockApi.Store, bookingId: string, now: nat, later: nat)
    requires !MockApi.Unknown(store, bookingId)
    ensures var k := MockApi.IndexOf(store, bookingId).value;
      var paid := MockApi.ProcessPayment(store, bookingId, now);
      && paid.Ok? && ShowComplete(paid.value.0[k])
      && var done := MockApi.MarkBookingComplete(paid.value.0, bookingId, later);
         done.Ok? && !ShowComplete(done.value[k])
  {
    var k := MockApi.IndexOf(store, bookingId).value;
    var paid := MockApi.ProcessPayment(store, bookingId, now).value.0;
    MockApi.IndexOfAfterUpdate(store, bookingId, k, paid[k]);
  }
}
