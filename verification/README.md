# AnandAyojan booking and shop logic in Dafny

AnandAyojan is a web application for booking event services and buying
ceremony goods. Customers book a service package by paying a 10% "locking"
deposit. They can cancel up to six hours before the scheduled time, and they
rate the service once it is completed. Products go in a cart and are paid
for at checkout. A small Express server stores bookings, orders and users in
memory and checks the payment gateway's signatures.

This project models the decision logic of that application as pure Dafny
functions over immutable records and sequences, and proves what each piece
promises. It covers:

- **Bookings, two implementations.**
  - The browser-side mock store (`MockApi`): create, list, cancel, complete, feedback and pay.
  - The server's booking routes (`ServerBookings`): create, list by owner, and cancel with the six-hour rule.
  - The shared booking record and its status enumerations (`Bookings`).
- **Booking pages.**
  - The customer's booking list (`MyBookings`): the cancel gate, the remaining balance, the rating and feedback indicators, and the refund note.
  - The administrator's table (`Admin`): the status filter, the counts, and the per-row actions.
  - The booking form (`BookingForm`): the field validator, the 10% deposit, the time slots, and the request it sends.
- **Payments and orders.**
  - The signature gate, the booking/order dispatch and the confirmation mail of `POST /payments/verify` (`Payments`).
  - Order creation and listing (`Orders`).
  - The checkout page (`Checkout`).
- **Collections.**
  - The cart (`Cart`) and its drawer (`CartView`).
  - The per-user wishlist in browser storage (`Wishlist`).
  - The server's user registry (`Users`).
- **Catalogue.**
  - The service catalogue and its lookups (`ServiceCatalogue`).
  - The service and product listings with search and category filters (`ServicesPage`, `Products`).
  - The product page's quantity stepper and related products (`ProductDetail`).
- **Authentication.**
  - The server's Google, signup and login routes (`AuthRoutes`).
  - The client's e-mail sign-in form (`EmailAuth`).

`Common` and `Strings` hold the shared vocabulary: filtering, first-match
search, sums, distinct elements, decimal rendering, ASCII lower-casing and
substring search.

Conventions of the model:

- **Time.** Timestamps are integer milliseconds.
- **Dates.** Parsing a date string (`new Date(s).getTime()`) is a parameter of type `string -> Option<int>`. `None` stands for JavaScript's NaN. Every comparison with NaN is false, so an unparsable date is never "fewer than six hours away".
- **Crypto and tokens.** The HMAC-SHA256 of the signed payload, password hashing and comparison, token signing and Google token verification are function parameters.
- **Ids.** Generated ids are `"BKG"`, `"ORD"` or `"PAY"` followed by the decimal clock value. A cart line id for a product is `"product_" + id + "_" + clock`. The signup's random user id is a parameter.
- **Truthiness.** JavaScript's truthiness of an optional string is "present and non-empty". For an optional amount it is "present and non-zero".
- **Deposit.** `Math.round(total * 0.1)` on a whole number of rupees is `(total + 5) / 10` in integer division.
- **Lower-casing.** `toLowerCase` is ASCII-only.
- **Storage.** Browser storage is a map from key to a slot holding either a parsed list or text that does not parse.

Where two implementations disagree, the model keeps both as written and the
lemmas show the difference:

- **Initial status.** The server creates a booking with status `'pending'`, which is outside the client's four-valued status type (`ServerBookings.Create`). The mock store creates it `locked`.
- **The server's six-hour rule.** It is measured against `preferredDate` alone, without the time of day. The server's cancel leaves `paymentStatus` unchanged; the mock's cancel sets it to `refunded` (`ServerBookings.CancelKeepsPaymentStatus`).
- **Payment verification.** It forwards status `'locked'` for a booking and never changes a stored booking record, since the handler has no access to the store.
- **Status checks.** The mock store checks no status at all: a completed booking can be cancelled (`MockApi.CancelIgnoresStatus`). The only status guard is the page's cancel button, which is strictly stronger than the store (`MyBookings.GateStricterThanStore`).
- **What services cost.** The cart drawer charges services their deposit, but the checkout page charges the full price of every line plus shipping (`Checkout.CheckoutChargesFullPrice`).

## Model

| member | source | states |
|---|---|---|
| MockApi.CreateBooking | src/data/mockApi.ts:21-39 | exactly one record is appended and earlier records are kept; it is `locked`/`pending` whatever the request carried; `scheduledAt` is date + "T" + time; a supplied id overrides the generated one; the reply names the stored id |
| MockApi.BookingsByEmail | src/data/mockApi.ts:41-44 | exactly the bookings with that e-mail, each as many times as it is stored, in insertion order |
| MockApi.AllBookings | src/data/mockApi.ts:46-49 | a copy with the same bookings in the same order |
| MockApi.IndexOf | src/data/mockApi.ts:54 | the position of the first booking with the id, and none exactly when no booking has it |
| MockApi.CancelBooking | src/data/mockApi.ts:51-81 | an unknown id is an error with nothing stored; fewer than six hours left gives `success=false`, refund `none`, store unchanged; otherwise only that booking becomes cancelled with refund processing, payment refunded and `cancelledAt` set |
| MockApi.MarkBookingComplete | src/data/mockApi.ts:83-95 | an unknown id is an error; otherwise only that booking becomes completed with `completedAt` set, from any status |
| MockApi.SubmitFeedback | src/data/mockApi.ts:97-112 | an unknown id is an error; otherwise that booking's feedback is replaced by the new one, with no rating or status check |
| MockApi.ProcessPayment | src/data/mockApi.ts:114-129 | an unknown id is an error; otherwise only that booking becomes paid and confirmed, and the payment id is "PAY" + clock |
| MockApi.CreateThenList | src/data/mockApi.ts:21-44 | a new booking appears at the end of its customer's list only, and every other list is unchanged |
| MockApi.CancelIgnoresStatus | src/data/mockApi.ts:71-74 | a completed booking far enough ahead is cancelled successfully |
| MockApi.MutationsKeepIds | src/data/mockApi.ts:51-129 | no mock operation adds, removes or reorders bookings |
| ServerBookings.Create | server/src/routes/bookings.ts:14-84 | one booking is appended with status `'pending'`, payment pending, the owner taken from the signed-in user, and the body's fields recorded; the gateway is asked for the body's `lockingAmount * 100` paise |
| ServerBookings.List | server/src/routes/bookings.ts:87-91 | exactly the bookings whose owner e-mail is the caller's, each as many times as it is stored, in insertion order |
| ServerBookings.Cancel | server/src/routes/bookings.ts:94-137 | 404 exactly when no booking has both the id and the caller as owner; 400 with nothing changed exactly when the first owned match's `preferredDate` is fewer than six hours away; otherwise that first match becomes cancelled with refund processing and `cancelledAt`, whatever its status |
| ServerBookings.CreateThenList | server/src/routes/bookings.ts:14-91 | a created booking is listed at the end for its owner and for no one else |
| ServerBookings.CancelSparesOthers | server/src/routes/bookings.ts:99-119 | a cancel never changes a booking owned by another address, nor the number of bookings |
| ServerBookings.CancelKeepsPaymentStatus | server/src/routes/bookings.ts:116-119 | no booking's payment status changes on cancel |
| MyBookings.CanCancel | src/pages/MyBookings.tsx:55-60 | the button is offered exactly for locked or confirmed bookings whose date parses to at least six hours ahead, so exactly six hours is enough |
| MyBookings.OfferedCancelSucceeds | src/pages/MyBookings.tsx:55-60 | whenever the button is offered, the store's cancel succeeds at that instant |
| MyBookings.GateStricterThanStore | src/pages/MyBookings.tsx:59 | for a cancelled or completed booking far enough ahead, or an unparsable date, the button is hidden, though the store would cancel |
| MyBookings.SixHourBoundary | src/pages/MyBookings.tsx:58-59 | six hours ahead is cancellable and one millisecond less is not |
| MyBookings.RemainingAmount | src/pages/MyBookings.tsx:240 | for a booking whose deposit the form computed, the "Remaining" figure is the balance the form showed and lies between zero and the total |
| MyBookings.RemainingAsOnForm | src/pages/MyBookings.tsx:240 | the displayed balance is the form's `total - deposit` and lies between zero and the total |
| MyBookings.ShowRateAction | src/pages/MyBookings.tsx:261 | "Rate Service" appears only on completed bookings, which never carry a refund note |
| MyBookings.ShowFeedbackBadge | src/pages/MyBookings.tsx:272 | "Feedback Submitted" appears exactly on completed bookings that do not offer "Rate Service" |
| MyBookings.RateOrBadge | src/pages/MyBookings.tsx:261-277 | a completed booking shows exactly one of "Rate Service" and "Feedback Submitted"; other bookings show neither |
| MyBookings.CompleteThenRate | src/pages/MyBookings.tsx:261-272 | completing a booking offers rating; submitting feedback then swaps it for the badge |
| MyBookings.Note | src/pages/MyBookings.tsx:280-289 | a note appears only for cancelled bookings; it is the in-progress refund of the deposit exactly when the refund is processing, otherwise "Refund completed" |
| MyBookings.CancelShowsRefund | src/pages/MyBookings.tsx:280-289 | after a successful mock cancel, the booking's note is the in-progress refund of its deposit |
| BookingForm.PhonePatternMeaning | src/components/BookingForm.tsx:23 | a phone passes exactly when it is ten ASCII digits starting with 6 to 9 |
| BookingForm.PincodePatternMeaning | src/components/BookingForm.tsx:25 | a pincode passes exactly when it is six ASCII digits |
| BookingForm.Errors | src/components/BookingForm.tsx:20-31 | the failing fields are exactly those whose rule rejects the form, listed in schema order |
| BookingForm.ErrorsMeaning | src/components/BookingForm.tsx:20-31 | name and city need two characters, e-mail must pass the e-mail check, phone and pincode their patterns, date and time must be non-empty |
| BookingForm.OptionalFieldsIgnored | src/components/BookingForm.tsx:26-30 | address, guests and notes never affect validation |
| BookingForm.LockingAmount | src/components/BookingForm.tsx:51 | the deposit is the whole number nearest a tenth of the total, halves rounded up |
| BookingForm.DepositSplit | src/components/BookingForm.tsx:50-51 | for a non-negative total the deposit and the displayed remainder are non-negative and add up to the total |
| BookingForm.ExactDeposit | src/components/BookingForm.tsx:51 | a total divisible by ten has a deposit of exactly a tenth |
| BookingForm.TimeSlots | src/components/BookingForm.tsx:137-140 | 24 slots; slot i is i as two digits followed by ":00" |
| BookingForm.SlotsDiffer | src/components/BookingForm.tsx:137-140 | different hours give different slots |
| BookingForm.TimeSlotsDistinct | src/components/BookingForm.tsx:137-140 | the slot list has no repeats |
| BookingForm.BookingPayload | src/components/BookingForm.tsx:47-81 | nothing is sent exactly when the package id is unknown; otherwise the request carries the package's price as total and its deposit, the service's and package's ids and names, and the form |
| BookingForm.DepositCharged | src/components/BookingForm.tsx:73-81 | for a catalogue-style package the gateway amount the server requests is exactly a tenth of the price, in paise |
| Admin.FilteredBookings | src/pages/Admin.tsx:55-57 | `'all'` gives every booking in order; a status gives exactly the bookings with it, each as many times as it is stored, in order |
| Admin.ComputeStats | src/pages/Admin.tsx:59-65 | the total and each count equal the sizes of the corresponding filtered lists |
| Admin.CountsAddUp | src/pages/Admin.tsx:59-65 | the four status counts add up to the total |
| Admin.ShownRating | src/pages/Admin.tsx:220-223 | a rating is shown exactly for completed bookings with feedback, and it is that feedback's rating |
| Admin.ShowComplete | src/pages/Admin.tsx:210 | "Complete" is offered exactly on confirmed bookings; such a row shows no rating, and its customer sees neither "Rate Service" nor "Feedback Submitted" |
| Admin.NewBookingNotCompletable | src/data/mockApi.ts:21-33 | a booking just created, being locked and unpaid, is not offered "Complete", and every earlier row keeps the action it had |
| Admin.RatingMatchesBadge | src/pages/Admin.tsx:220 | the administrator sees a rating exactly when the customer sees "Feedback Submitted" |
| Admin.PayThenComplete | src/pages/Admin.tsx:210 | after payment a booking is confirmed, so "Complete" is offered; after completion it is not |
| Payments.Verify | server/src/routes/payments.ts:9-92 | a bad signature is rejected with 400 before anything else; a booking id wins over an order id; neither gives 400; booking payments forward `locked`/`paid`, order payments `confirmed`/`paid`; success is reported exactly when the caller's confirmation mail goes out, and a mail error becomes a 500 reply carrying exactly the message the mail service threw |
| Payments.SendEmail | server/src/services/sendgrid.ts:20-48 | mock mode always succeeds; otherwise a missing key throws "SENDGRID_API_KEY not set in .env", a rejected send throws "Failed to send email", and an accepted send succeeds |
| Payments.BookingMail | server/src/services/sendgrid.ts:50-76 | the booking confirmation goes to the given address with the booking id in its subject |
| Payments.OrderMail | server/src/services/sendgrid.ts:78-102 | the order confirmation goes to the given address with the order id in its subject and text |
| Payments.ErrorText | server/src/routes/payments.ts:88-90 | the 500 reply's text is never empty: the thrown message, or the default when that message is empty |
| Payments.MockModeNeverFails | server/src/services/sendgrid.ts:21-28 | in mock mode no verification ends in 500, and status 200 comes exactly with a genuine signature and a booking or order id |
| Payments.BookingIdTakesPrecedence | server/src/routes/payments.ts:34 | with a valid signature and a booking id, the outcome is the booking's (verified, or the mail's 500) and the order id does not matter |
| Payments.SuccessEchoesId | server/src/routes/payments.ts:55-84 | a success reply names the same booking or order id the request carried |
| Orders.ShippingOrZero | server/src/routes/orders.ts:27 | absent shipping is recorded as zero |
| Orders.OrderId | server/src/routes/orders.ts:17 | an order id is "ORD" followed by the clock in decimal |
| Orders.Create | server/src/routes/orders.ts:12-63 | one order is appended, pending and unpaid, owned by the caller, holding the body's items, total, shipping and address; the gateway is asked for the body's total times 100 |
| Orders.List | server/src/routes/orders.ts:66-70 | exactly the caller's orders, each as many times as it is stored, in insertion order |
| Orders.CreateThenList | server/src/routes/orders.ts:12-70 | a created order is listed at the end for its owner and for no one else |
| Orders.OrderIdsDistinct | server/src/routes/orders.ts:17 | orders created at different instants have different ids |
| Cart.Merge | src/contexts/CartContext.tsx:67-71 | every line keeps its place; the lines with the added id gain its quantity |
| Cart.AddItem | src/contexts/CartContext.tsx:63-75 | a new id is appended; an existing id adds the quantity to that line, leaving its other fields and all other lines alone |
| Cart.RemoveItem | src/contexts/CartContext.tsx:77-79 | every line with the id is gone and every other line stays, as many times as before and in order |
| Cart.UpdateQuantity | src/contexts/CartContext.tsx:81-89 | a quantity of zero or less is a removal; otherwise only the matching line's quantity changes |
| Cart.ClearCart | src/contexts/CartContext.tsx:91-93 | the cart is empty and its totals are zero |
| Cart.TotalItems | src/contexts/CartContext.tsx:95 | an empty cart counts zero items; with no negative quantity the count is never negative, and when every line holds a unit it is at least the number of lines |
| Cart.Subtotal | src/contexts/CartContext.tsx:97 | an empty cart's subtotal is zero, and it is never negative when no line's amount is |
| Cart.TotalsAccumulate | src/contexts/CartContext.tsx:95-97 | both totals accumulate line by line: the last line adds its quantity to the count and its price times quantity to the subtotal |
| Cart.ServiceLockingTotal | src/contexts/CartContext.tsx:99-101 | filtering the service lines and summing their deposits equals summing, over every line, its deposit if it is a service line and nothing otherwise |
| Cart.ProductTotal | src/contexts/CartContext.tsx:103-105 | filtering the product lines and summing their amounts equals summing, over every line, its amount if it is a product line and nothing otherwise |
| Cart.SubtotalSplits | src/contexts/CartContext.tsx:95-105 | the subtotal is the product total plus the full price of the service lines |
| Cart.AddKeepsIdsUnique | src/contexts/CartContext.tsx:63-75 | adding keeps line ids unique |
| Cart.AddNewTotals | src/contexts/CartContext.tsx:73-97 | a new line raises the item count by its quantity and the subtotal by its price times quantity |
| Cart.AddExistingTotals | src/contexts/CartContext.tsx:65-97 | merging raises the item count by the added quantity and the subtotal by the stored line's price times it |
| Cart.MergeAbsent | src/contexts/CartContext.tsx:67-71 | merging an id the cart lacks changes nothing |
| Cart.RemoveTotals | src/contexts/CartContext.tsx:77-79 | removing the only line with an id lowers the item count by that line's units and the subtotal by its amount |
| Cart.AddThenRemove | src/contexts/CartContext.tsx:63-79 | removing a freshly added line restores the cart |
| Cart.RemoveKeepsIdsUnique | src/contexts/CartContext.tsx:77-79 | removal keeps line ids unique |
| Cart.UpdateKeepsIdsUnique | src/contexts/CartContext.tsx:81-89 | a quantity change keeps line ids unique |
| CartView.ShownLineAmount | src/components/Cart.tsx:122-134 | a service line with a deposit shows deposit times quantity; every other line shows price times quantity |
| CartView.PayNow | src/components/Cart.tsx:162 | "Total to Pay Now" is the sum over the lines of each service line's deposit for its units and each product line's full amount |
| CartView.ServiceBalance | src/components/Cart.tsx:167 | the "service balance" is the sum over service lines of price minus deposit, times quantity |
| CartView.BalanceIsServiceRemainder | src/components/Cart.tsx:167 | subtotal less product total less deposit total is the sum over service lines of price minus deposit, times quantity |
| CartView.PayNowIsSumOfLines | src/components/Cart.tsx:122-162 | when every service line has a deposit, "Total to Pay Now" is the sum of the amounts shown on the lines |
| CartView.PressMinus | src/components/Cart.tsx:103 | minus on a line of one unit (or fewer) removes every line with that id; otherwise the lines with that id take the shown quantity minus one and no other line or field changes |
| CartView.MinusRemovesOneUnit | src/components/Cart.tsx:103 | in a cart with unique ids, minus on a line holding at least one unit lowers the item count by one and the subtotal by that line's price, whether the line stays or goes |
| CartView.PressPlus | src/components/Cart.tsx:112 | plus sets the lines with that id to the shown quantity plus one and changes no other line and no other field |
| CartView.PlusAddsOneUnit | src/components/Cart.tsx:112 | in a cart with unique ids, plus on a line raises the item count by one and the subtotal by that line's price |
| CartView.CheckoutClick | src/components/Cart.tsx:15-22 | signed out, checkout only sends the visitor to sign in, returning to `/checkout` |
| CartView.SummaryOf | src/components/Cart.tsx:146-169 | the deposit and balance rows appear exactly when the deposit total is positive, the products row exactly when the product total is; pay-now is their sum |
| CartView.ProductsOnly | src/components/Cart.tsx:146-162 | a cart of products alone shows no deposit row and asks for its subtotal |
| Checkout.OrderLines | src/pages/Checkout.tsx:43-48 | one order line per cart line, in order, carrying id, name, quantity and price |
| Checkout.OrderLinesWorthSubtotal | src/pages/Checkout.tsx:43-50 | the order lines are worth exactly the cart subtotal |
| Checkout.HandleCheckout | src/pages/Checkout.tsx:38-63 | nothing is sent without a user; otherwise the order total is subtotal plus 100, shipping is 100, and the gateway is asked for that total in paise |
| Checkout.ServerAgreesWithPage | src/pages/Checkout.tsx:50-63 | the server's stored order and gateway amount match the page's total and amount |
| Checkout.GrandTotal | src/pages/Checkout.tsx:190 | the page's total is the order lines' worth plus shipping, which is the drawer's pay-now plus the service balance plus shipping |
| Checkout.CheckoutChargesFullPrice | src/pages/Checkout.tsx:190 | the page's total is the drawer's pay-now plus the service balance plus shipping |
| Checkout.AfterPayment | src/pages/Checkout.tsx:72-86 | the cart is emptied when the verification call answers with success, and kept whole on any other answer |
| Checkout.VerificationRequest | src/pages/Checkout.tsx:74-79 | the verification request carries the created order's id and the gateway's three fields, and no booking id |
| Checkout.CartClearedIffPaymentConfirmed | src/pages/Checkout.tsx:72-86 | for the order just created, the server verifies it as an order payment of that order, and the cart is emptied, exactly when the gateway signature is genuine and the confirmation mail goes out; a genuine signature whose mail fails gets 500 and the cart is kept, as it is on any other answer |
| Checkout.SignInDetourGuardsCheckout | src/pages/Checkout.tsx:26-39 | the drawer sends a visitor to sign in exactly when the checkout page would send no order for them; signed in, the page sends the cart's lines |
| Wishlist.KeyFor | src/lib/wishlist.ts:11 | the key is `aa_wishlist_` followed by the e-mail |
| Wishlist.KeyForInjective | src/lib/wishlist.ts:11 | different users never share a key |
| Wishlist.GetWishlist | src/lib/wishlist.ts:13-21 | empty for no e-mail, a missing key or unparsable text; otherwise the stored list |
| Wishlist.SaveWishlist | src/lib/wishlist.ts:23-26 | no e-mail stores nothing; otherwise only the user's key is written |
| Wishlist.SaveThenGet | src/lib/wishlist.ts:13-26 | reading back a saved list gives that list |
| Wishlist.AddToWishlist | src/lib/wishlist.ts:28-36 | nothing is added, and nothing changes, exactly when there is no e-mail or the type-and-id pair is listed; otherwise the item is prepended |
| Wishlist.RemoveFromWishlist | src/lib/wishlist.ts:38-41 | exactly the entries matching both type and id are dropped; the rest are kept, as many times as before and in order |
| Wishlist.AddKeepsEntriesUnique | src/lib/wishlist.ts:28-36 | adding keeps type-and-id pairs unique |
| Wishlist.AddThenRemove | src/lib/wishlist.ts:28-41 | removing a freshly added item restores the list |
| Wishlist.UsersIsolated | src/lib/wishlist.ts:11-41 | one user's changes never alter another user's list |
| ServiceCatalogue.ServiceById | src/data/services.ts:500-502 | the first service in the list with the id, and none exactly when none has it |
| ServiceCatalogue.ServicesByCategory | src/data/services.ts:504-506 | exactly the services with that category, each as many times as listed, in catalogue order |
| ServiceCatalogue.PackageById | src/components/BookingForm.tsx:47 | the service's first package with the id, and none exactly when none has it |
| ServiceCatalogue.ServiceByIdFindsListed | src/data/services.ts:500-502 | with distinct ids, looking up a listed service's id finds that service |
| ServiceCatalogue.CatalogueIdsDistinct | src/data/services.ts:11-498 | the catalogue has eight services with pairwise distinct ids |
| ServiceCatalogue.CataloguePrices | src/data/services.ts:11-498 | every service has three packages, each priced at a positive multiple of 100 |
| ServicesPage.FilteredServices | src/pages/Services.tsx:14-19 | a service is shown exactly when the query occurs, ignoring case, in its name or description and its category matches (or `'all'`); order and repetitions are kept |
| ServicesPage.EmptyQueryIsCategoryLookup | src/pages/Services.tsx:14-19 | with an empty search the page lists exactly `getServicesByCategory`, and with `'all'` the whole catalogue |
| ServicesPage.OfferedCategoriesNonEmpty | src/pages/Services.tsx:12 | every offered category has at least one service |
| Products.FilteredProducts | src/pages/Products.tsx:21-27 | a product is shown exactly when the query occurs, ignoring case, in its name, description or a tag and its category matches (or `'all'`); order and repetitions are kept |
| Products.EmptyQueryKeepsAll | src/pages/Products.tsx:21-27 | an empty search filters by category only, and with `'all'` keeps every product |
| Common.SelectorEntries | src/pages/Products.tsx:19 | the category selector's entries (the services page builds its own the same way): `'all'`, then each category once, in order of first appearance |
| Products.LineIdsDiffer | src/pages/Products.tsx:31 | adds at different instants make different cart lines |
| Products.ProductLine | src/pages/Products.tsx:30-38 | the cart line is a product line with the product's id, name and price and no deposit |
| Products.QuickAdd | src/pages/Products.tsx:29-38 | quick add appends one unit of the product |
| ProductDetail.Increment | src/pages/ProductDetail.tsx:57-61 | plus adds one only below the stock |
| ProductDetail.Decrement | src/pages/ProductDetail.tsx:63-67 | minus subtracts one only above one |
| ProductDetail.Typed | src/pages/ProductDetail.tsx:150-155 | a typed number is taken only when it is between one and the stock; anything else leaves the quantity |
| ProductDetail.ApplyKeepsRange | src/pages/ProductDetail.tsx:57-155 | each stepper operation keeps the quantity between one and the stock |
| ProductDetail.StepperStaysInRange | src/pages/ProductDetail.tsx:19 | from an in-range start, any sequence of operations stays in range |
| ProductDetail.InitialInRange | src/pages/ProductDetail.tsx:19 | the initial quantity of one is in range exactly when something is in stock |
| ProductDetail.AddDisabled | src/pages/ProductDetail.tsx:181 | for a non-negative stock, "Add to Cart" is disabled exactly when the initial quantity of one is out of range |
| ProductDetail.LineTotal | src/pages/ProductDetail.tsx:170 | the total shown is the cart line total of the chosen quantity |
| ProductDetail.AddToCartAddsTotal | src/pages/ProductDetail.tsx:38-55 | adding raises the cart's subtotal by the total shown and its item count by the quantity |
| ProductDetail.RelatedProducts | src/pages/ProductDetail.tsx:206-208 | the first four other products of the same category, in catalogue order |
| ProductDetail.RelatedIsFull | src/pages/ProductDetail.tsx:206-208 | never the product itself, always from the catalogue, and four whenever four qualify |
| Users.Create | server/src/models/user.ts:18-21 | the user is appended and returned unchanged |
| Users.FindByEmail | server/src/models/user.ts:23-25 | the first user with the e-mail, and none exactly when no user has it |
| Users.FindById | server/src/models/user.ts:27-29 | the first user with the id, and none exactly when no user has it |
| Users.CreateThenFind | server/src/models/user.ts:18-25 | creating never changes an earlier lookup, and a new address finds the new user |
| Users.CreateThenFindById | server/src/models/user.ts:18-29 | creating never changes an earlier lookup by id, and a new id finds the new user |
| Users.CreateAll | server/src/models/user.ts:15-21 | after any run of creations the registry starts with the old one |
| Users.CreateAllKeepsEarlier | server/src/models/user.ts:15-21 | every existing user stays at its position |
| AuthRoutes.Google | server/src/routes/auth.ts:12-46 | a missing token is 400; a token the verifier rejects is 401; otherwise the token signs the verified profile |
| AuthRoutes.GoogleSignsLikeLogin | server/src/routes/auth.ts:12-148 | for the same id, address and name, Google sign-in and login hand out the same token |
| AuthRoutes.Signup | server/src/routes/auth.ts:49-102 | missing fields, then a short password, then a taken address give 400 with nothing stored; otherwise exactly one user is stored with the hashed password and only id, e-mail and name are returned |
| AuthRoutes.SignupCheckOrder | server/src/routes/auth.ts:53-65 | a missing field is reported before a short password, and a short password before a taken address |
| AuthRoutes.Login | server/src/routes/auth.ts:105-148 | a missing field is 400; an unknown address and a wrong password give the identical 401; success returns the found user without its password |
| AuthRoutes.SignupThenLogin | server/src/routes/auth.ts:49-148 | a new account can log in with its password at once and gets the same reply |
| AuthRoutes.NoDuplicateSignup | server/src/routes/auth.ts:62-65 | signing up again with a registered address is refused and stores nothing |
| EmailAuth.CheckSignup | src/components/EmailAuth.tsx:58-82 | the request is sent exactly when the passwords match and have six or more characters; a mismatch is reported before the length |
| EmailAuth.MismatchReportedFirst | src/components/EmailAuth.tsx:61-77 | a short mismatched password reports the mismatch |
| EmailAuth.AfterReply | src/components/EmailAuth.tsx:84-86 | a success stores both the token and the user; a failure stores nothing |
| EmailAuth.HandleSignup | src/components/EmailAuth.tsx:58-103 | the server is asked only when the client checks pass; its success stores exactly the reply's token and user, and a failure, or no request, leaves the session as it was |
| EmailAuth.HandleLogin | src/components/EmailAuth.tsx:30-56 | a successful login stores both the token and the user; a failure stores nothing |
| EmailAuth.LoginAfterSignupRestoresSession | src/components/EmailAuth.tsx:30-86 | after a new address signs up, logging in with the same credentials, from whatever session the browser holds, stores exactly the session the signup stored |
| EmailAuth.ClientChecksImplyServerAccepts | src/components/EmailAuth.tsx:61-86 | a form the client accepts, for a new address, is accepted by the server and signs the user in |

## Left out

- Network, forwarding and the payment gateway's order creation are left out. Forwarding is a no-op that never throws and the gateway call's result decides nothing in the handlers; the requests the code would send are returned as values. E-mail is different: a confirmation mail that throws turns `POST /payments/verify` into a 500 reply, so its outcome is modelled by `Payments.SendEmail`, with the provider's answer as the parameter `sends`.
- HMAC-SHA256, bcrypt, token signing and Google token verification are function parameters, because they are foreign cryptographic calls.
- Date parsing, ISO rendering and the clock are left out. Dates are a parser parameter and the clock an integer argument. The minimum date offered by the booking form's date picker is not modelled.
- Browser storage of the cart and of the signed-in user is left out. Only the wishlist's storage is modelled, as a map from key to slot, because its reads and writes carry the wishlist's logic.
- Rendering, toasts, dialogs, navigation details, the sign-in prompt in front of the product page's add button, and static pages are presentation only.
- Concurrency is left out: every operation is a single sequential step, so the check-then-act races on the in-memory arrays are not modelled.
- Floating-point display arithmetic is left out. All amounts are whole rupees.
- Strings.Lower: lower-cases ASCII letters only, because Unicode case folding needs tables outside this model.
- BookingForm.ErrorsMeaning: takes the e-mail check as a predicate parameter, because the validation library's e-mail rule is not part of this model; lengths count characters, not UTF-16 units.
- BookingForm.LockingAmount: states the rounding for whole-rupee totals only, because `Math.round` on fractional totals is floating-point behaviour.
- AuthRoutes.Signup: does not model the random suffix of the new user id or a failing hash (the 500 reply); the id is a parameter. The six-character rule counts Unicode characters, where JavaScript's `length` counts UTF-16 code units, so a password of three characters outside the Basic Multilingual Plane (length 6 in JavaScript) is accepted by the server and refused by the model.
- EmailAuth.CheckSignup: the six-character rule counts Unicode characters, not UTF-16 code units, for the same reason as AuthRoutes.Signup.
- MockApi.CreateBooking: takes a complete booking, where the mock API accepts a partial one; a request without a date or time would get the scheduled time `"undefinedTundefined"`, which the model cannot produce.
- Wishlist.GetWishlist: a stored value that parses to something other than an array (such as `"null"`) is treated as unparsable and yields the empty list, where the source returns that value and later calls on it throw.
- AuthRoutes.Google: does not model the `picture` field's absence or a thrown exception other than the verifier's refusal.
- Payments.Verify: does not model a missing signing secret (the gateway helper's thrown error, which also becomes a 500 reply); the signature check is the parameter `hmacHex`. The mails' HTML bodies are not modelled, only recipient, subject and text.
- ServerBookings.Create: does not model a failing gateway call (the 500 reply).
- Orders.Create: does not model a failing gateway call (the 500 reply).
- Checkout.HandleCheckout: does not model the gateway's failure callback or a failed order request; only the amounts sent and the effect of a verified payment are modelled.
- The product catalogue's data (`src/data/products.ts`) is not part of this model: the product operations are proved for every list of products.
