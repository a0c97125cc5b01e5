/** The booking record shared by the client pages and the mock store
    (`src/types/index.ts`), with its three status enumerations, and the
    six-hour cancellation cut-off both booking stores apply. */
module Bookings {
  import opened Common

  datatype BookingStatus = Locked | Confirmed | Completed | Cancelled
  datatype PaymentStatus = Pending | Paid | Refunded | Failed
  datatype RefundStatus = RefundNone | RefundProcessing | RefundCompleted

  /** Timestamps are integer milliseconds since the epoch. */
  datatype Feedback = Feedback(rating: int, comments: string, createdAt: nat)

  datatype Booking = Booking(
    id: string,
    serviceId: string,
    serviceName: string,
    packageId: string,
    packageName: string,
    name: string,
    email: string,
    phone: string,
    address: Option<string>,
    city: string,
    pincode: string,
    preferredDate: string,
    preferredTime: string,
    estimatedGuests: Option<int>,
    notes: Option<string>,
    totalAmount: int,
    lockingAmount: int,
    status: BookingStatus,
    createdAt: nat,
    scheduledAt: string,
    cancelledAt: Option<nat>,
    completedAt: Option<nat>,
    paymentStatus: PaymentStatus,
    refundStatus: Option<RefundStatus>,
    feedback: Option<Feedback>)

  /** `new Date(s).getTime()`: milliseconds since the epoch, or None where JavaScript yields NaN. */
  type DateParser = string -> Option<int>

  /** Six hours, the cancellation cut-off, in milliseconds. */
  const SixHoursMs: int := 6 * 60 * 60 * 1000

  /** `(scheduled - now) / 3600000 < 6`. Every comparison with NaN is false,
      so an unparsable date is never "too late". */
  predicate LessThanSixHours(scheduled: Option<int>, now: int) {
    scheduled.Some? && scheduled.value - now < SixHoursMs
  }

  /** `(scheduled - now) / 3600000 >= 6`; false on NaN as well. */
  predicate AtLeastSixHours(scheduled: Option<int>, now: int) {
    scheduled.Some? && scheduled.value - now >= SixHoursMs
  }
}
