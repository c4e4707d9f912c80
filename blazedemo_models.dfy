/**
 * The flight-booking test data: flight search, passenger, payment and the
 * whole booking, each built from raw strings into a normalised record or the
 * list of rejected fields.
 */
module BlazeDemoModels {
  import opened Wrappers
  import opened Text
  import opened FieldValidation

  datatype FlightSearch = FlightSearch(departureCity: string, destinationCity: string)

  /** `FlightSearch(...)`: both cities non-blank, stored stripped. */
  function NewFlightSearch(departure: string, destination: string): (r: Result<FlightSearch, seq<FieldError>>)
    ensures r.Success? <==> !AllSpace(departure) && !AllSpace(destination)
    ensures r.Success? ==> r.value == FlightSearch(Strip(departure), Strip(destination))
    ensures r.Failure? ==>
      FailedFields(r.error) == If(AllSpace(departure), "departure_city") + If(AllSpace(destination), "destination_city")
  {
    var d := StrippedNonBlank(departure);
    var t := StrippedNonBlank(destination);
    if d.Success? && t.Success? then
      Success(FlightSearch(d.value, t.value))
    else
      FailedFieldsOf("departure_city", d);
      FailedFieldsOf("destination_city", t);
      FailedFieldsAppend(ErrorsOf("departure_city", d), ErrorsOf("destination_city", t));
      Failure(ErrorsOf("departure_city", d) + ErrorsOf("destination_city", t))
  }

  /** `validate_different_cities`: the stored (stripped) names differ, case-sensitively. */
  predicate DifferentCities(f: FlightSearch)
  {
    f.departureCity != f.destinationCity
  }

  datatype PassengerInfo = PassengerInfo(name: string, address: string, city: string, state: string, zipCode: string)

  /** The `state` field: `min_length=2`, `max_length=2`, stored upper-cased
      (its validator's own length test can never fail after the constraints). */
  function ValidateState(v: string): (r: Result<string, Reason>)
    ensures r.Success? <==> |v| == 2
    ensures r.Success? ==> r.value == Upper(v)
    ensures r.Failure? ==> r.error == if |v| < 2 then TooShort else TooLong
  {
    if |v| < 2 then Failure(TooShort)
    else if |v| > 2 then Failure(TooLong)
    else Success(Upper(v))
  }

  /** The pattern `^\d{5}(-\d{4})?$`: five digits, optionally a dash and four more. */
  predicate IsZipCode(v: string)
  {
    || (|v| == 5 && IsDigits(v))
    || (|v| == 10 && IsDigits(v[..5]) && v[5] == '-' && IsDigits(v[6..]))
  }

  /** A five-digit ZIP followed by a dash and four digits is a ZIP+4 code, and
      every ZIP+4 code splits that way. */
  lemma ZipPlusFour(zip: string, ext: string)
    requires IsZipCode(zip) && |zip| == 5
    ensures IsZipCode(zip + "-" + ext) <==> |ext| == 4 && IsDigits(ext)
  {
    var z := zip + "-" + ext;
    assert z[..5] == zip;
    if |z| == 10 {
      assert z[6..] == ext;
    }
  }

  function ValidateZip(v: string): (r: Result<string, Reason>)
    ensures r.Success? <==> IsZipCode(v)
    ensures r.Success? ==> r.value == v
    ensures r.Failure? ==> r.error == PatternMismatch
  {
    if IsZipCode(v) then Success(v) else Failure(PatternMismatch)
  }

  /** `PassengerInfo(...)`: name, address and city non-blank and stored stripped,
      a two-character state stored upper-cased, and a ZIP or ZIP+4 code. */
  function NewPassengerInfo(name: string, address: string, city: string, state: string, zipCode: string)
    : (r: Result<PassengerInfo, seq<FieldError>>)
    ensures r.Success? <==>
      !AllSpace(name) && !AllSpace(address) && !AllSpace(city) && |state| == 2 && IsZipCode(zipCode)
    ensures r.Success? ==>
      r.value == PassengerInfo(Strip(name), Strip(address), Strip(city), Upper(state), zipCode)
  {
    var n := MinLengthStrippedNonBlank(name);
    var a := MinLengthStrippedNonBlank(address);
    var c := MinLengthStrippedNonBlank(city);
    var s := ValidateState(state);
    var z := ValidateZip(zipCode);
    if n.Success? && a.Success? && c.Success? && s.Success? && z.Success? then
      Success(PassengerInfo(n.value, a.value, c.value, s.value, z.value))
    else
      Failure(ErrorsOf("name", n) + ErrorsOf("address", a) + ErrorsOf("city", c)
              + ErrorsOf("state", s) + ErrorsOf("zip_code", z))
  }

  /** A rejected passenger reports exactly the fields whose raw value fails. */
  lemma PassengerInfoReportsRejectedFields(name: string, address: string, city: string, state: string,
                                           zipCode: string)
    requires NewPassengerInfo(name, address, city, state, zipCode).Failure?
    ensures FailedFields(NewPassengerInfo(name, address, city, state, zipCode).error)
         == If(AllSpace(name), "name") + If(AllSpace(address), "address") + If(AllSpace(city), "city")
            + If(|state| != 2, "state") + If(!IsZipCode(zipCode), "zip_code")
  {
    var n := MinLengthStrippedNonBlank(name);
    var a := MinLengthStrippedNonBlank(address);
    var c := MinLengthStrippedNonBlank(city);
    var s := ValidateState(state);
    var z := ValidateZip(zipCode);
    var e1, e2, e3, e4, e5 := ErrorsOf("name", n), ErrorsOf("address", a), ErrorsOf("city", c),
                              ErrorsOf("state", s), ErrorsOf("zip_code", z);
    FailedFieldsOf("name", n);
    FailedFieldsOf("address", a);
    FailedFieldsOf("city", c);
    FailedFieldsOf("state", s);
    FailedFieldsOf("zip_code", z);
    FailedFieldsAppend(e1, e2);
    FailedFieldsAppend(e1 + e2, e3);
    FailedFieldsAppend(e1 + e2 + e3, e4);
    FailedFieldsAppend(e1 + e2 + e3 + e4, e5);
  }

  /** A stored passenger passes validation again and comes back unchanged. */
  lemma PassengerInfoRevalidates(name: string, address: string, city: string, state: string, zipCode: string)
    requires NewPassengerInfo(name, address, city, state, zipCode).Success?
    ensures var p := NewPassengerInfo(name, address, city, state, zipCode).value;
            NewPassengerInfo(p.name, p.address, p.city, p.state, p.zipCode) == Success(p)
  {
    StripIdempotent(name);
    StripIdempotent(address);
    StripIdempotent(city);
    UpperIdempotent(state);
  }

  datatype CardType = Visa | AmericanExpress | DinersClub

  function CardTypeName(t: CardType): string
  {
    match t
    case Visa => "Visa"
    case AmericanExpress => "American Express"
    case DinersClub => "Diner's Club"
  }

  /** The `Literal["Visa", "American Express", "Diner's Club"]` field. */
  function ValidateCardType(v: string): (r: Result<CardType, Reason>)
    ensures r.Success? <==> v in {"Visa", "American Express", "Diner's Club"}
    ensures r.Success? ==> CardTypeName(r.value) == v
    ensures r.Failure? ==> r.error == NotAllowed
  {
    if v == "Visa" then Success(Visa)
    else if v == "American Express" then Success(AmericanExpress)
    else if v == "Diner's Club" then Success(DinersClub)
    else Failure(NotAllowed)
  }

  /** The pattern `^\d{13,19}$` (the validator's digit and length tests can then never fail). */
  predicate IsCardNumber(v: string)
  {
    IsDigits(v) && 13 <= |v| <= 19
  }

  /** The pattern `^(0[1-9]|1[0-2])$`. */
  predicate IsExpiryMonth(v: string)
  {
    |v| == 2 && ((v[0] == '0' && '1' <= v[1] <= '9') || (v[0] == '1' && '0' <= v[1] <= '2'))
  }

  /** The month pattern accepts exactly the two-digit spellings of 1 to 12. */
  lemma ExpiryMonthIsOneToTwelve(v: string)
    ensures IsExpiryMonth(v) <==> |v| == 2 && IsDigits(v) && 1 <= DecimalValue(v) <= 12
  {
    if |v| == 2 && IsDigits(v) {
      var first := v[..1];
      assert v[..|v| - 1] == first;
      assert first[..|first| - 1] == [];
      assert DecimalValue(first) == DigitValue(v[0]);
      assert DecimalValue(v) == DigitValue(v[0]) * 10 + DigitValue(v[1]);
    }
  }

  /** The `expiry_year` field: the pattern `^\d{4}$`, then `int(v) >= 2024`. */
  function ValidateExpiryYear(v: string): (r: Result<string, Reason>)
    ensures r.Success? <==> |v| == 4 && IsDigits(v) && DecimalValue(v) >= 2024
    ensures r.Success? ==> r.value == v
    ensures r.Failure? ==> r.error == if |v| == 4 && IsDigits(v) then YearTooEarly else PatternMismatch
  {
    if !(|v| == 4 && IsDigits(v)) then Failure(PatternMismatch)
    else if DecimalValue(v) < 2024 then Failure(YearTooEarly)
    else Success(v)
  }

  function MatchOrReject(ok: bool, v: string): (r: Result<string, Reason>)
    ensures r.Success? <==> ok
    ensures r.Success? ==> r.value == v
  {
    if ok then Success(v) else Failure(PatternMismatch)
  }

  datatype PaymentDetails = PaymentDetails(
    cardType: CardType,
    cardNumber: string,
    expiryMonth: string,
    expiryYear: string,
    nameOnCard: string)

  /** `PaymentDetails(...)`: nothing is normalised; each field is accepted or rejected. */
  function NewPaymentDetails(cardType: string, cardNumber: string, expiryMonth: string, expiryYear: string,
                             nameOnCard: string): (r: Result<PaymentDetails, seq<FieldError>>)
    ensures r.Success? <==>
      && cardType in {"Visa", "American Express", "Diner's Club"}
      && IsDigits(cardNumber) && 13 <= |cardNumber| <= 19
      && |expiryMonth| == 2 && IsDigits(expiryMonth) && 1 <= DecimalValue(expiryMonth) <= 12
      && |expiryYear| == 4 && IsDigits(expiryYear) && DecimalValue(expiryYear) >= 2024
      && |nameOnCard| >= 1
    ensures r.Success? ==>
      && CardTypeName(r.value.cardType) == cardType
      && r.value.cardNumber == cardNumber && r.value.expiryMonth == expiryMonth
      && r.value.expiryYear == expiryYear && r.value.nameOnCard == nameOnCard
  {
    ExpiryMonthIsOneToTwelve(expiryMonth);
    var t := ValidateCardType(cardType);
    var n := MatchOrReject(IsCardNumber(cardNumber), cardNumber);
    var m := MatchOrReject(IsExpiryMonth(expiryMonth), expiryMonth);
    var y := ValidateExpiryYear(expiryYear);
    var o: Result<string, Reason> := if |nameOnCard| < 1 then Failure(TooShort) else Success(nameOnCard);
    if t.Success? && n.Success? && m.Success? && y.Success? && o.Success? then
      Success(PaymentDetails(t.value, n.value, m.value, y.value, o.value))
    else
      Failure(ErrorsOf("card_type", t) + ErrorsOf("card_number", n) + ErrorsOf("expiry_month", m)
              + ErrorsOf("expiry_year", y) + ErrorsOf("name_on_card", o))
  }

  /** A rejected payment reports exactly the fields whose raw value fails. */
  lemma PaymentDetailsReportsRejectedFields(cardType: string, cardNumber: string, expiryMonth: string,
                                            expiryYear: string, nameOnCard: string)
    requires NewPaymentDetails(cardType, cardNumber, expiryMonth, expiryYear, nameOnCard).Failure?
    ensures FailedFields(NewPaymentDetails(cardType, cardNumber, expiryMonth, expiryYear, nameOnCard).error)
         == If(cardType !in {"Visa", "American Express", "Diner's Club"}, "card_type")
            + If(!IsCardNumber(cardNumber), "card_number")
            + If(!IsExpiryMonth(expiryMonth), "expiry_month")
            + If(!ValidateExpiryYear(expiryYear).Success?, "expiry_year")
            + If(|nameOnCard| < 1, "name_on_card")
  {
    var t := ValidateCardType(cardType);
    var n := MatchOrReject(IsCardNumber(cardNumber), cardNumber);
    var m := MatchOrReject(IsExpiryMonth(expiryMonth), expiryMonth);
    var y := ValidateExpiryYear(expiryYear);
    var o: Result<string, Reason> := if |nameOnCard| < 1 then Failure(TooShort) else Success(nameOnCard);
    var e1, e2, e3, e4, e5 := ErrorsOf("card_type", t), ErrorsOf("card_number", n), ErrorsOf("expiry_month", m),
                              ErrorsOf("expiry_year", y), ErrorsOf("name_on_card", o);
    FailedFieldsOf("card_type", t);
    FailedFieldsOf("card_number", n);
    FailedFieldsOf("expiry_month", m);
    FailedFieldsOf("expiry_year", y);
    FailedFieldsOf("name_on_card", o);
    FailedFieldsAppend(e1, e2);
    FailedFieldsAppend(e1 + e2, e3);
    FailedFieldsAppend(e1 + e2 + e3, e4);
    FailedFieldsAppend(e1 + e2 + e3 + e4, e5);
  }

  datatype BookingDetails = BookingDetails(
    flightSearch: FlightSearch,
    passengerInfo: PassengerInfo,
    paymentDetails: PaymentDetails,
    rememberMe: bool)

  const SameCitiesMessage: string := "Departure and destination cities must be different"

  /** `BookingDetails.validate`: raises exactly when the two cities are the same. */
  function Validate(b: BookingDetails): (o: Outcome<string>)
    ensures o.Fail? <==> b.flightSearch.departureCity == b.flightSearch.destinationCity
    ensures o.Fail? ==> o.error == SameCitiesMessage
  {
    if !DifferentCities(b.flightSearch) then Fail(SameCitiesMessage) else Pass
  }

  /** Cities are compared after stripping: a booking built from raw city names
      is rejected exactly when they agree once stripped, so whitespace padding
      cannot make two equal cities differ. */
  lemma ValidateComparesStrippedCities(departure: string, destination: string,
                                       p: PassengerInfo, pay: PaymentDetails, rememberMe: bool)
    requires NewFlightSearch(departure, destination).Success?
    ensures var b := BookingDetails(NewFlightSearch(departure, destination).value, p, pay, rememberMe);
            Validate(b).Fail? <==> Strip(departure) == Strip(destination)
  {
  }

  /** Padding a city name with whitespace does not make it a different city. */
  lemma PaddedCitiesAreTheSame(city: string, p: string, q: string,
                               passenger: PassengerInfo, pay: PaymentDetails, rememberMe: bool)
    requires city != [] && IsStripped(city) && AllSpace(p) && AllSpace(q)
    ensures NewFlightSearch(p + city, city + q).Success?
    ensures Validate(BookingDetails(NewFlightSearch(p + city, city + q).value, passenger, pay, rememberMe)).Fail?
  {
    PaddingStripsAway(city, p, q);
    var departure, destination := p + city, city + q;
    assert !AllSpace(departure) && !AllSpace(destination);
  }

  lemma PaddingStripsAway(city: string, p: string, q: string)
    requires city != [] && IsStripped(city) && AllSpace(p) && AllSpace(q)
    ensures Strip(p + city) == city && Strip(city + q) == city
  {
    TrimStartSkipsPadding(p, city);
    TrimEndKeepsNonSpace(city);
    assert (city + q)[0] == city[0];
    TrimStartKeepsNonSpace(city + q);
    TrimEndSkipsPadding(city, q);
  }
}
