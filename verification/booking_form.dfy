/** The booking form (`src/components/BookingForm.tsx`): its validation
    schema, the 10% deposit ("locking amount"), the hourly time slots and
    the request it sends to `POST /bookings`. */
module BookingForm {
  import opened Common
  import opened Strings
  import ServiceCatalogue
  import ServerBookings

  /** The form's values; the three optional inputs may be left out. */
  datatype FormData = FormData(
    name: string,
    email: string,
    phone: string,
    city: string,
    pincode: string,
    address: Option<string>,
    preferredDate: string,
    preferredTime: string,
    estimatedGuests: Option<string>,
    notes: Option<string>)

  /** The fields the schema can reject, in schema order. */
  datatype Field = NameField | EmailField | PhoneField | CityField | PincodeField | DateField | TimeField

  /** `/^[6-9]\d{9}$/`, matched character class by character class. */
  predicate PhonePattern(s: string) {
    |s| == 10 && s[0] in "6789" && AllDigits(s[1..])
  }

  /** `/^\d{6}$/`. */
  predicate PincodePattern(s: string) {
    |s| == 6 && AllDigits(s)
  }

  lemma PhonePatternMeaning(s: string)
    ensures PhonePattern(s) <==> |s| == 10 && AllDigits(s) && '6' <= s[0] <= '9'
  {
    if |s| == 10 && s[0] in "6789" && AllDigits(s[1..]) {
      forall i | 0 <= i < |s| ensures IsDigit(s[i]) {
        if i > 0 { assert s[i] == s[1..][i - 1]; }
      }
    }
    if |s| == 10 && AllDigits(s) && '6' <= s[0] <= '9' {
      assert s[0] in "6789";
      forall i | 0 <= i < |s[1..]| ensures IsDigit(s[1..][i]) {
        assert s[1..][i] == s[i + 1];
      }
    }
  }

  lemma PincodePatternMeaning(s: string)
    ensures PincodePattern(s) <==> |s| == 6 && forall i :: 0 <= i < 6 ==> '0' <= s[i] <= '9'
  {
  }

  /** Whether the schema accepts field `f` of `form`. */
  predicate Passes(f: Field, form: FormData, isEmail: string -> bool) {
    match f
    case NameField => |form.name| >= 2
    case EmailField => isEmail(form.email)
    case PhoneField => PhonePattern(form.phone)
    case CityField => |form.city| >= 2
    case PincodeField => PincodePattern(form.pincode)
    case DateField => |form.preferredDate| >= 1
    case TimeField => |form.preferredTime| >= 1
  }

  const SchemaFields: seq<Field> := [NameField, EmailField, PhoneField, CityField, PincodeField, DateField, TimeField]

  lemma SchemaListsEveryField()
    ensures forall f: Field :: f in SchemaFields
  {
    forall f: Field ensures f in SchemaFields {
      match f
      case NameField => assert SchemaFields[0] == f;
      case EmailField => assert SchemaFields[1] == f;
      case PhoneField => assert SchemaFields[2] == f;
      case CityField => assert SchemaFields[3] == f;
      case PincodeField => assert SchemaFields[4] == f;
      case DateField => assert SchemaFields[5] == f;
      case TimeField => assert SchemaFields[6] == f;
    }
  }

  /** The fields `bookingSchema` rejects, in schema order. E-mail syntax is
      left to the validator passed in as `isEmail`. */
  function Errors(form: FormData, isEmail: string -> bool): (r: seq<Field>)
    ensures forall f :: f in r <==> !Passes(f, form, isEmail)
    ensures SubsequenceOf(r, SchemaFields)
  {
    FilterIsSubsequence(Rejects(form, isEmail), SchemaFields);
    SchemaListsEveryField();
    Filter(Rejects(form, isEmail), SchemaFields)
  }

  /** The schema's verdict on one field, as a test `Filter` can apply. */
  function Rejects(form: FormData, isEmail: string -> bool): Field -> bool {
    f => !Passes(f, form, isEmail)
  }

  /** Each rule of the schema, field by field, with the two patterns spelled
      out as character conditions. */
  lemma ErrorsMeaning(form: FormData, isEmail: string -> bool)
    ensures var r := Errors(form, isEmail);
      && (NameField in r <==> |form.name| < 2)
      && (EmailField in r <==> !isEmail(form.email))
      && (PhoneField in r <==> !(|form.phone| == 10 && AllDigits(form.phone) && '6' <= form.phone[0] <= '9'))
      && (CityField in r <==> |form.city| < 2)
      && (PincodeField in r <==> !(|form.pincode| == 6 && forall i :: 0 <= i < 6 ==> '0' <= form.pincode[i] <= '9'))
      && (DateField in r <==> form.preferredDate == "")
      && (TimeField in r <==> form.preferredTime == "")
  {
    PhonePatternMeaning(form.phone);
    PincodePatternMeaning(form.pincode);
  }

  predicate Valid(form: FormData, isEmail: string -> bool) {
    Errors(form, isEmail) == []
  }

  /** The optional inputs never cause a rejection: any address, guest count
      and notes (or none) are accepted alike. */
  lemma OptionalFieldsIgnored(form: FormData, isEmail: string -> bool,
                              address: Option<string>, guests: Option<string>, notes: Option<string>)
    ensures Errors(form.(address := address, estimatedGuests := guests, notes := notes), isEmail) == Errors(form, isEmail)
  {
    var other := form.(address := address, estimatedGuests := guests, notes := notes);
    assert other.name == form.name && other.email == form.email && other.phone == form.phone && other.city == form.city;
    assert other.pincode == form.pincode && other.preferredDate == form.preferredDate && other.preferredTime == form.preferredTime;
    FilterCongruent(Rejects(other, isEmail), Rejects(form, isEmail), SchemaFields);
  }

  /** `Math.round(total * 0.1)`. */
  function LockingAmount(total: int): (r: int)
    ensures 10 * r - 5 <= total < 10 * r + 5
  {
    (total + 5) / 10
  }

  /** The balance shown as payable after the service. */
  function Remaining(total: int): int {
    total - LockingAmount(total)
  }

  /** For a non-negative total the deposit and the balance split it into two non-negative parts. */
  lemma DepositSplit(total: int)
    requires total >= 0
    ensures 0 <= LockingAmount(total) <= total
    ensures 0 <= Remaining(total) && LockingAmount(total) + Remaining(total) == total
  {
  }

  /** On a price that is a multiple of 10 the deposit is exactly a tenth. */
  lemma ExactDeposit(total: int)
    requires total % 10 == 0
    ensures LockingAmount(total) * 10 == total
  {
  }

  /** The time slot for hour `i`: `i.toString().padStart(2, '0') + ":00"`. */
  function Slot(i: nat): string {
    PadStart(NatToString(i), 2, '0') + ":00"
  }

  /** The 24 hourly slots offered in the time picker. */
  function TimeSlots(): (r: seq<string>)
    ensures |r| == 24
    ensures forall i :: 0 <= i < 24 ==> r[i] == Slot(i)
    ensures forall i :: 0 <= i < 24 ==> r[i] == [DigitChar(i / 10), DigitChar(i % 10), ':', '0', '0']
  {
    SlotsShape();
    seq(24, i requires 0 <= i < 24 => Slot(i))
  }

  /** A one-digit hour is padded with a leading zero. */
  lemma PaddedOneDigit(i: nat)
    requires i < 10
    ensures PadStart(NatToString(i), 2, '0') == [DigitChar(0), DigitChar(i)]
  {
    var d := NatToString(i);
    assert d == [DigitChar(i)];
    var r := PadStart(d, 2, '0');
    assert |r| == 2 && r[1..] == d && r[0] == '0';
  }

  /** A two-digit hour is already wide enough. */
  lemma PaddedTwoDigits(i: nat)
    requires 10 <= i < 100
    ensures PadStart(NatToString(i), 2, '0') == [DigitChar(i / 10), DigitChar(i % 10)]
  {
    assert NatToString(i / 10) == [DigitChar(i / 10)];
    assert NatToString(i) == [DigitChar(i / 10), DigitChar(i % 10)];
  }

  lemma SlotShape(i: nat)
    requires i < 24
    ensures Slot(i) == [DigitChar(i / 10), DigitChar(i % 10), ':', '0', '0']
  {
    if i < 10 {
      PaddedOneDigit(i);
    } else {
      PaddedTwoDigits(i);
    }
  }

  lemma SlotsShape()
    ensures forall i :: 0 <= i < 24 ==> Slot(i) == [DigitChar(i / 10), DigitChar(i % 10), ':', '0', '0']
  {
    forall i | 0 <= i < 24
      ensures Slot(i) == [DigitChar(i / 10), DigitChar(i % 10), ':', '0', '0']
    {
      SlotShape(i);
    }
  }

  /** Two different hours differ in their tens digit or their units digit. */
  lemma DigitsDiffer(i: nat, j: nat)
    requires i != j
    ensures i / 10 != j / 10 || i % 10 != j % 10
  {
  }

  /** Different hours give different slots. */
  lemma SlotsDiffer(i: nat, j: nat)
    requires i < j < 24
    ensures Slot(i) != Slot(j)
  {
    SlotShape(i);
    SlotShape(j);
    DigitsDiffer(i, j);
    if i / 10 != j / 10 {
      assert DigitValue(Slot(i)[0]) != DigitValue(Slot(j)[0]);
    } else {
      assert DigitValue(Slot(i)[1]) != DigitValue(Slot(j)[1]);
    }
  }

  /** No hour is offered twice. */
  lemma TimeSlotsDistinct()
    ensures NoDuplicates(TimeSlots())
  {
    var r := TimeSlots();
    forall i, j | 0 <= i < j < 24
      ensures r[i] != r[j]
    {
      SlotsDiffer(i, j);
    }
  }

  /** Everything `onSubmit` sends: the selected service and package, the
      computed amounts, then the form values spread over them. */
  datatype Payload = Payload(
    serviceId: string,
    serviceName: string,
    packageId: string,
    packageName: string,
    totalAmount: int,
    lockingAmount: int,
    form: FormData)

  /** The component renders nothing (and so sends nothing) for an unknown
      package; otherwise the payload carries the package price and its deposit. */
  function BookingPayload(service: ServiceCatalogue.Service, packageId: string, form: FormData): (r: Option<Payload>)
    ensures r.None? <==> forall i :: 0 <= i < |service.packages| ==> service.packages[i].id != packageId
    ensures r.Some? ==>
      exists p :: p in service.packages && p.id == packageId
        && r.value.totalAmount == p.price && r.value.lockingAmount == LockingAmount(p.price)
        && r.value.packageName == p.name
    ensures r.Some? ==>
      r.value.serviceId == service.id && r.value.serviceName == service.name &&
      r.value.packageId == packageId && r.value.form == form
  {
    match ServiceCatalogue.PackageById(service, packageId)
    case None => None
    case Some(p) => Some(Payload(service.id, service.name, packageId, p.name, p.price, LockingAmount(p.price), form))
  }

  /** The part of the payload `POST /bookings` reads: the contact fields
      (name, e-mail, phone, address, guests) are dropped there, since the
      server takes the customer's identity from the token. */
  function ServerBody(p: Payload): ServerBookings.CreateBody {
    ServerBookings.CreateBody(p.serviceId, p.serviceName, p.packageId, p.packageName,
                              p.form.preferredDate, p.form.preferredTime, p.totalAmount, p.lockingAmount,
                              p.form.city, p.form.pincode, p.form.notes)
  }

  /** A well-priced package's deposit is exactly a tenth of its price. */
  lemma PayloadDepositExact(service: ServiceCatalogue.Service, packageId: string, form: FormData)
    requires ServiceCatalogue.WellPriced(service)
    requires BookingPayload(service, packageId, form).Some?
    ensures var p := BookingPayload(service, packageId, form).value;
      p.lockingAmount * 10 == p.totalAmount
  {
    var q := ServiceCatalogue.PackageById(service, packageId).value;
    ServiceCatalogue.WellPricedPackage(service, q);
    ExactDeposit(q.price);
    assert BookingPayload(service, packageId, form).value.lockingAmount == LockingAmount(q.price);
  }

  /** Booking a package of a well-priced service (every catalogue service is
      one) asks the gateway for exactly a tenth of the price, in paise: ten
      paise per rupee of price. */
  lemma DepositCharged(service: ServiceCatalogue.Service, packageId: string, form: FormData,
                       store: ServerBookings.Store, user: ServerBookings.AuthUser, now: nat)
    requires ServiceCatalogue.WellPriced(service)
    requires BookingPayload(service, packageId, form).Some?
    ensures var p := BookingPayload(service, packageId, form).value;
      var (_, c) := ServerBookings.Create(store, user, ServerBody(p), now);
      c.gatewayOrder.amountPaise * 10 == p.totalAmount * 100
  {
    PayloadDepositExact(service, packageId, form);
  }
}
