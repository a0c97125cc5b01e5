/** `POST /payments/verify` (`server/src/routes/payments.ts`): checks the
    gateway's signature, then reports a booking or an order payment to the
    forwarding service and mails a confirmation. The handler is given no
    booking or order store, so a verification changes no stored record. */
module Payments {
  import opened Common
  import ServerBookings

  datatype VerifyRequest = VerifyRequest(
    bookingId: Option<string>,
    orderId: Option<string>,
    paymentId: string,
    gatewayOrderId: string,
    signature: string)

  /** The update handed to the forwarding service. */
  datatype Forward = Forward(paymentId: string, status: string, paymentStatus: string)

  /** A confirmation e-mail: recipient, subject and plain-text part. */
  datatype Mail = Mail(to: string, subject: string, text: string)

  /** The mail service (`server/src/services/sendgrid.ts`): in mock mode it only
      logs; otherwise it needs an API key, and `sends` says whether the
      provider accepts a given mail. */
  datatype MailService = MailService(mock: bool, apiKey: Option<string>, sends: Mail -> bool)

  datatype Outcome =
    | InvalidSignature
    | BookingVerified(bookingId: string, forward: Forward, mailTo: string)
    | OrderVerified(orderId: string, forward: Forward, mailTo: string)
    | MissingIds
    | ServerError(message: string)

  function StatusCode(o: Outcome): int {
    if o.InvalidSignature? || o.MissingIds? then 400 else if o.ServerError? then 500 else 200
  }

  function Message(o: Outcome): string {
    match o
    case InvalidSignature => "Invalid payment signature"
    case BookingVerified(_, _, _) => "Booking payment verified"
    case OrderVerified(_, _, _) => "Order payment verified"
    case MissingIds => "Missing bookingId or orderId"
    case ServerError(m) => m
  }

  const KeyMissing := "SENDGRID_API_KEY not set in .env"
  const SendFailed := "Failed to send email"

  /** `sendEmail`: `None` when the mail is delivered (or, in mock mode,
      logged), otherwise the message of the error it throws. */
  function SendEmail(service: MailService, mail: Mail): (r: Option<string>)
    ensures r.None? <==> service.mock || (Truthy(service.apiKey) && service.sends(mail))
    ensures r == Some(KeyMissing) <==> !service.mock && !Truthy(service.apiKey)
    ensures r == Some(SendFailed) <==> !service.mock && Truthy(service.apiKey) && !service.sends(mail)
  {
    if service.mock then None
    else if !Truthy(service.apiKey) then Some(KeyMissing)
    else if !service.sends(mail) then Some(SendFailed)
    else None
  }

  /** `sendBookingConfirmationEmail` as the handler calls it. */
  function BookingMail(email: string, bookingId: string): (r: Mail)
    ensures r.to == email && r.subject == "Booking Confirmation - " + bookingId
  {
    Mail(email, "Booking Confirmation - " + bookingId, "Booking confirmed for Service on TBD")
  }

  /** `sendOrderConfirmationEmail` as the handler calls it. */
  function OrderMail(email: string, orderId: string): (r: Mail)
    ensures r.to == email && r.subject == "Order Confirmation - " + orderId
    ensures r.text == "Order confirmed - " + orderId
  {
    Mail(email, "Order Confirmation - " + orderId, "Order confirmed - " + orderId)
  }

  /** The body of the catch-all 500 reply: the thrown message, or a default when it is empty. */
  function ErrorText(thrown: string): (r: string)
    ensures r != ""
    ensures thrown != "" ==> r == thrown
  {
    if thrown != "" then thrown else "Payment verification failed"
  }

  /** The message the gateway signs: its order id and payment id joined by `|`. */
  function SignedPayload(gatewayOrderId: string, paymentId: string): string {
    gatewayOrderId + "|" + paymentId
  }

  /** The signature is genuine when it equals the hex HMAC-SHA256 of the signed payload. */
  predicate SignatureValid(hmacHex: string -> string, req: VerifyRequest) {
    hmacHex(SignedPayload(req.gatewayOrderId, req.paymentId)) == req.signature
  }

  /** The handler: signature first, then a booking id takes precedence over
      an order id; the confirmation mail is awaited, and an error it throws
      becomes a 500 reply. Forwarding never throws. */
  function Verify(req: VerifyRequest, user: ServerBookings.AuthUser, hmacHex: string -> string, mail: MailService)
    : (r: Outcome)
    ensures !SignatureValid(hmacHex, req) <==> r == InvalidSignature
    ensures r.BookingVerified? <==>
      SignatureValid(hmacHex, req) && Truthy(req.bookingId)
      && SendEmail(mail, BookingMail(user.email, req.bookingId.value)).None?
    ensures r.OrderVerified? <==>
      SignatureValid(hmacHex, req) && !Truthy(req.bookingId) && Truthy(req.orderId)
      && SendEmail(mail, OrderMail(user.email, req.orderId.value)).None?
    ensures r == MissingIds <==> SignatureValid(hmacHex, req) && !Truthy(req.bookingId) && !Truthy(req.orderId)
    ensures r.ServerError? <==>
      SignatureValid(hmacHex, req)
      && ((Truthy(req.bookingId) && SendEmail(mail, BookingMail(user.email, req.bookingId.value)).Some?)
          || (!Truthy(req.bookingId) && Truthy(req.orderId) && SendEmail(mail, OrderMail(user.email, req.orderId.value)).Some?))
    ensures r.ServerError? ==> r.message == KeyMissing || r.message == SendFailed
    ensures r.ServerError? ==>
      Some(r.message) == SendEmail(mail, if Truthy(req.bookingId) then BookingMail(user.email, req.bookingId.value)
                                         else OrderMail(user.email, req.orderId.value))
    ensures r.BookingVerified? ==>
      r.bookingId == req.bookingId.value && r.forward == Forward(req.paymentId, "locked", "paid") && r.mailTo == user.email
    ensures r.OrderVerified? ==>
      r.orderId == req.orderId.value && r.forward == Forward(req.paymentId, "confirmed", "paid") && r.mailTo == user.email
    ensures StatusCode(r) == 400 <==> r == InvalidSignature || r == MissingIds
    ensures StatusCode(r) == 500 <==> r.ServerError?
  {
    if !SignatureValid(hmacHex, req) then InvalidSignature
    else if Truthy(req.bookingId) then
      match SendEmail(mail, BookingMail(user.email, req.bookingId.value))
      case Some(thrown) => ServerError(ErrorText(thrown))
      case None => BookingVerified(req.bookingId.value, Forward(req.paymentId, "locked", "paid"), user.email)
    else if Truthy(req.orderId) then
      match SendEmail(mail, OrderMail(user.email, req.orderId.value))
      case Some(thrown) => ServerError(ErrorText(thrown))
      case None => OrderVerified(req.orderId.value, Forward(req.paymentId, "confirmed", "paid"), user.email)
    else MissingIds
  }

  /** In mock mode the mail never fails, so a genuine signature with an id is
      always accepted with status 200. */
  lemma MockModeNeverFails(req: VerifyRequest, user: ServerBookings.AuthUser, hmacHex: string -> string, mail: MailService)
    requires mail.mock
    ensures !Verify(req, user, hmacHex, mail).ServerError?
    ensures StatusCode(Verify(req, user, hmacHex, mail)) == 200 <==>
      SignatureValid(hmacHex, req) && (Truthy(req.bookingId) || Truthy(req.orderId))
  {
  }

  /** A request carrying both ids is treated as a booking payment, and the
      order id it also carries plays no part in the outcome. */
  lemma BookingIdTakesPrecedence(req: VerifyRequest, user: ServerBookings.AuthUser, hmacHex: string -> string,
                                  mail: MailService, otherOrder: Option<string>)
    requires SignatureValid(hmacHex, req) && Truthy(req.bookingId)
    ensures Verify(req, user, hmacHex, mail).BookingVerified? || Verify(req, user, hmacHex, mail).ServerError?
    ensures Verify(req.(orderId := otherOrder), user, hmacHex, mail) == Verify(req, user, hmacHex, mail)
  {
  }

  /** The response echoes exactly the id the caller supplied. */
  lemma SuccessEchoesId(req: VerifyRequest, user: ServerBookings.AuthUser, hmacHex: string -> string, mail: MailService)
    ensures var r := Verify(req, user, hmacHex, mail);
      (r.BookingVerified? ==> Some(r.bookingId) == req.bookingId) && (r.OrderVerified? ==> Some(r.orderId) == req.orderId)
  {
  }
}
