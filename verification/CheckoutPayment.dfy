/** The three-step checkout wizard (features/checkout-payment/checkout-payment.ts):
    contact details, payment, review. Each forward move is guarded by the form of the
    step being left; the validators return the alert the page would show. */
module CheckoutPayment {
  import opened Wrappers
  import opened Seqs
  import opened Text
  import opened Dates

  /** `currentStep: 1 | 2 | 3`. */
  type Step = s: int | 1 <= s <= 3 witness 1

  datatype PaymentMethod = Card | PayPal

  /** The car summary shown on the page. */
  datatype CheckoutCar = CheckoutCar(id: string, make: string, model: string, image: string,
                                     pricePerDay: int, carType: string)

  datatype AddOns = AddOns(insurance: bool, gps: bool, childSeat: bool, additionalDriver: bool)

  /** A missing (empty) date is `None`; a present one is its instant in milliseconds. */
  datatype BookingDetails = BookingDetails(pickupDate: Option<int>, returnDate: Option<int>,
                                           pickupLocation: string, returnLocation: string,
                                           addOns: AddOns)

  datatype ContactForm = ContactForm(fullName: string, email: string, phone: string, licenseNumber: string)

  datatype CardForm = CardForm(cardNumber: string, cardHolderName: string, expiryDate: string, cvv: string)

  /** Daily rates of the add-ons (`addOnPrices`). */
  const InsuranceRate: nat := 20
  const GpsRate: nat := 10
  const ChildSeatRate: nat := 15
  const AdditionalDriverRate: nat := 25

  const ContactMissingAlert := "Please fill in contact details."
  const EmailAlert := "Please enter a valid email address."
  const CardMissingAlert := "Please fill in card details."
  const CardNumberAlert := "Please enter a valid card number."
  const CvvAlert := "Please enter a valid CVV."
  const TermsAlert := "You must agree to the terms and conditions."

  // ---------------------------------------------------------------------------
  // The contact form and the e-mail pattern `^[^\s@]+@[^\s@]+\.[^\s@]+$`.

  /** `[^\s@]`. */
  predicate EmailChar(c: char) {
    !IsWhitespace(c) && c != '@'
  }

  predicate AllEmailChars(s: string) {
    forall k :: 0 <= k < |s| ==> EmailChar(s[k])
  }

  /** The pattern matches `s` with its `@` at `i` and the separating `.` at `j`. */
  predicate SplitsAsEmail(s: string, i: int, j: int) {
    0 < i && i + 1 < j && j + 1 < |s| && s[i] == '@' && s[j] == '.'
    && AllEmailChars(s[..i]) && AllEmailChars(s[i + 1..j]) && AllEmailChars(s[j + 1..])
  }

  /** The regular expression, as a search for its two split points. */
  ghost predicate MatchesEmailPattern(s: string) {
    exists i, j :: SplitsAsEmail(s, i, j)
  }

  /** Position of the first `'@'`, or `|s|` when there is none. */
  function IndexOfAt(s: string): (i: nat)
    ensures i <= |s|
    ensures i < |s| ==> s[i] == '@'
    ensures forall k :: 0 <= k < i ==> s[k] != '@'
  {
    if s == [] then 0
    else if s[0] == '@' then 0
    else 1 + IndexOfAt(s[1..])
  }

  /** A single left-to-right reading of the pattern: the first `@` is not at the start,
      nothing around it is blank or another `@`, and a `.` follows it with at least one
      character on each side. */
  predicate IsValidEmail(s: string) {
    var i := IndexOfAt(s);
    0 < i < |s| && AllEmailChars(s[..i]) && AllEmailChars(s[i + 1..])
    && exists j :: i + 2 <= j < |s| - 1 && s[j] == '.'
  }

  lemma EmailCharsSlice(s: string, lo: int, hi: int)
    requires AllEmailChars(s) && 0 <= lo <= hi <= |s|
    ensures AllEmailChars(s[lo..hi])
  {
    forall k | 0 <= k < hi - lo
      ensures EmailChar(s[lo..hi][k])
    {
      assert s[lo..hi][k] == s[lo + k];
    }
  }

  lemma EmailCharsJoin(a: string, c: char, b: string)
    requires AllEmailChars(a) && EmailChar(c) && AllEmailChars(b)
    ensures AllEmailChars(a + [c] + b)
  {
    var t := a + [c] + b;
    forall k | 0 <= k < |t|
      ensures EmailChar(t[k])
    {
      if k < |a| {
        assert t[k] == a[k];
      } else if k > |a| {
        assert t[k] == b[k - |a| - 1];
      }
    }
  }

  /** Every string the scan accepts matches the regular expression. */
  lemma EmailCheckSound(s: string)
    requires IsValidEmail(s)
    ensures MatchesEmailPattern(s)
  {
    var i := IndexOfAt(s);
    var j :| i + 2 <= j < |s| - 1 && s[j] == '.';
    var rest := s[i + 1..];
    EmailCharsSlice(rest, 0, j - i - 1);
    EmailCharsSlice(rest, j - i, |rest|);
    assert rest[0..j - i - 1] == s[i + 1..j];
    assert rest[j - i..|rest|] == s[j + 1..];
    assert SplitsAsEmail(s, i, j);
  }

  /** Every string the regular expression matches passes the scan. */
  lemma EmailCheckComplete(s: string, i: int, j: int)
    requires SplitsAsEmail(s, i, j)
    ensures IsValidEmail(s)
  {
    forall k | 0 <= k < i
      ensures s[k] != '@'
    {
      assert s[k] == s[..i][k];
    }
    assert IndexOfAt(s) == i;
    EmailCharsJoin(s[i + 1..j], s[j], s[j + 1..]);
    assert s[i + 1..] == s[i + 1..j] + [s[j]] + s[j + 1..];
  }

  /** The scan accepts exactly the strings the regular expression matches. */
  lemma EmailCheckIsPattern(s: string)
    ensures IsValidEmail(s) <==> MatchesEmailPattern(s)
  {
    if IsValidEmail(s) {
      EmailCheckSound(s);
    }
    if MatchesEmailPattern(s) {
      var i, j :| SplitsAsEmail(s, i, j);
      EmailCheckComplete(s, i, j);
    }
  }

  /** `validateContactForm`: all four fields filled, then the e-mail pattern. */
  function ValidateContactForm(form: ContactForm): (o: Outcome)
    ensures o == Pass <==>
      form.fullName != "" && form.email != "" && form.phone != "" && form.licenseNumber != ""
      && MatchesEmailPattern(form.email)
    ensures o.Fail? ==> o.alert == ContactMissingAlert || o.alert == EmailAlert
    ensures o == Fail(EmailAlert) ==>
      form.fullName != "" && form.email != "" && form.phone != "" && form.licenseNumber != ""
  {
    EmailCheckIsPattern(form.email);
    if form.fullName == "" || form.email == "" || form.phone == "" || form.licenseNumber == "" then
      Fail(ContactMissingAlert)
    else if !IsValidEmail(form.email) then
      Fail(EmailAlert)
    else
      Pass
  }

  // ---------------------------------------------------------------------------
  // The payment form.

  /** The card number with every whitespace character removed is 16 characters that
      `Number()` accepts. */
  predicate CardNumberOk(cardNumber: string) {
    var digits := StripWhitespace(cardNumber);
    |digits| == 16 && IsNumeric(digits)
  }

  predicate CvvOk(cvv: string) {
    3 <= |cvv| <= 4 && IsNumeric(cvv)
  }

  predicate CardFieldsFilled(card: CardForm) {
    card.cardNumber != "" && card.cardHolderName != "" && card.expiryDate != "" && card.cvv != ""
  }

  /** `validatePaymentForm`: the card checks apply to card payments only; the terms
      checkbox is required for every method. */
  function ValidatePaymentForm(payment: PaymentMethod, card: CardForm, agreedToTerms: bool): (o: Outcome)
    ensures o == Pass <==>
      (payment == Card ==> CardFieldsFilled(card) && CardNumberOk(card.cardNumber) && CvvOk(card.cvv))
      && agreedToTerms
    ensures payment == PayPal ==> (o == Pass <==> agreedToTerms)
    ensures o == Fail(CardMissingAlert) ==> payment == Card && !CardFieldsFilled(card)
    ensures o == Fail(CardNumberAlert) ==>
      payment == Card && CardFieldsFilled(card) && !CardNumberOk(card.cardNumber)
    ensures o == Fail(CvvAlert) ==>
      payment == Card && CardFieldsFilled(card) && CardNumberOk(card.cardNumber) && !CvvOk(card.cvv)
    ensures o == Fail(TermsAlert) ==>
      (payment == Card ==> CardFieldsFilled(card) && CardNumberOk(card.cardNumber) && CvvOk(card.cvv))
      && !agreedToTerms
    ensures o.Fail? ==> o.alert in {CardMissingAlert, CardNumberAlert, CvvAlert, TermsAlert}
  {
    if payment == Card && !CardFieldsFilled(card) then Fail(CardMissingAlert)
    else if payment == Card && !CardNumberOk(card.cardNumber) then Fail(CardNumberAlert)
    else if payment == Card && !CvvOk(card.cvv) then Fail(CvvAlert)
    else if !agreedToTerms then Fail(TermsAlert)
    else Pass
  }

  /** A 16-digit card number, typed with or without spaces, passes the number check. */
  lemma SixteenDigitsAreACardNumber(cardNumber: string)
    requires |StripWhitespace(cardNumber)| == 16 && AllDigits(StripWhitespace(cardNumber))
    ensures CardNumberOk(cardNumber)
  {
    DigitsAreNumeric(StripWhitespace(cardNumber));
  }

  /** `Number('   ')` is 0, not NaN, so a CVV of three spaces passes the CVV check. */
  lemma BlankCvvPasses()
    ensures CvvOk("   ")
  {
    assert TrimStart("   ") == "";
  }

  /** `validateCurrentStep`: step 1 checks the contact form, step 2 the payment form, and
      step 3 always validates. */
  function ValidateStep(step: Step, contact: ContactForm, payment: PaymentMethod,
                        card: CardForm, agreedToTerms: bool): (o: Outcome)
    ensures step == 3 ==> o == Pass
    ensures step == 1 ==> (o == Pass <==>
      contact.fullName != "" && contact.email != "" && contact.phone != ""
      && contact.licenseNumber != "" && MatchesEmailPattern(contact.email))
    ensures step == 2 ==> (o == Pass <==>
      (payment == Card ==> CardFieldsFilled(card) && CardNumberOk(card.cardNumber) && CvvOk(card.cvv))
      && agreedToTerms)
  {
    if step == 1 then ValidateContactForm(contact)
    else if step == 2 then ValidatePaymentForm(payment, card, agreedToTerms)
    else Pass
  }

  // ---------------------------------------------------------------------------
  // Card-number and expiry formatting.

  /** `s.match(/.{1,4}/g).join(' ')` on a string with no line breaks: groups of four,
      the last one shorter, separated by single spaces. */
  function GroupsOfFour(s: string): (r: string)
    ensures s == [] ==> r == []
    ensures s != [] ==> |r| == |s| + (|s| - 1) / 4
    decreases |s|
  {
    if |s| <= 4 then s else s[..4] + " " + GroupsOfFour(s[4..])
  }

  /** `formatCardNumber`: strip whitespace, then group. An empty result of the grouping
      (no match) falls back to the stripped string, which is then empty as well. */
  function FormatCardNumber(value: string): (r: string)
    ensures StripWhitespace(r) == StripWhitespace(value)
    ensures forall i :: 0 <= i < |r| ==> (r[i] == ' ' <==> i % 5 == 4)
  {
    var cleaned := StripWhitespace(value);
    GroupsSpaces(cleaned);
    GroupsStrip(cleaned);
    GroupsOfFour(cleaned)
  }

  /** Every fifth character is the separating space; the others are the input's, in order. */
  lemma {:induction false} GroupsLayout(s: string)
    ensures forall i :: 0 <= i < |GroupsOfFour(s)| ==>
      (i % 5 == 4 ==> GroupsOfFour(s)[i] == ' ')
      && (i % 5 != 4 ==> 0 <= i - i / 5 < |s| && GroupsOfFour(s)[i] == s[i - i / 5])
    decreases |s|
  {
    var r := GroupsOfFour(s);
    if |s| > 4 {
      var rest := GroupsOfFour(s[4..]);
      GroupsLayout(s[4..]);
      assert r == s[..4] + " " + rest;
      forall i | 0 <= i < |r|
        ensures (i % 5 == 4 ==> r[i] == ' ')
             && (i % 5 != 4 ==> 0 <= i - i / 5 < |s| && r[i] == s[i - i / 5])
      {
        if i >= 5 {
          var i' := i - 5;
          assert r[i] == rest[i'];
          assert i' % 5 == i % 5 && i' / 5 == i / 5 - 1;
          if i % 5 != 4 {
            assert s[4..][i' - i' / 5] == s[i - i / 5];
          }
        }
      }
    } else {
      assert forall i :: 0 <= i < |r| ==> i % 5 != 4 && i / 5 == 0;
    }
  }

  /** In the grouped form of a string without whitespace, the spaces are exactly the
      separators. */
  lemma GroupsSpaces(s: string)
    requires NoWhitespace(s)
    ensures forall i :: 0 <= i < |GroupsOfFour(s)| ==> (GroupsOfFour(s)[i] == ' ' <==> i % 5 == 4)
  {
    GroupsLayout(s);
    var r := GroupsOfFour(s);
    forall i | 0 <= i < |r| && i % 5 != 4
      ensures r[i] != ' '
    {
      assert !IsWhitespace(s[i - i / 5]);
    }
  }

  /** Removing whitespace from the grouped form gives back the grouped string. */
  lemma {:induction false} GroupsStrip(s: string)
    requires NoWhitespace(s)
    ensures StripWhitespace(GroupsOfFour(s)) == s
    decreases |s|
  {
    if |s| <= 4 {
      StripKeeps(s);
    } else {
      var head, tail := s[..4], s[4..];
      GroupsStrip(tail);
      StripKeeps(head);
      StripAppend(head, " ");
      StripAppend(head + " ", GroupsOfFour(tail));
      assert StripWhitespace(" ") == [];
      assert head + tail == s;
    }
  }

  /** Formatting an already formatted number changes nothing. */
  lemma FormatCardNumberIdempotent(value: string)
    ensures FormatCardNumber(FormatCardNumber(value)) == FormatCardNumber(value)
  {
    var cleaned := StripWhitespace(value);
    GroupsStrip(cleaned);
  }

  /** `formatExpiryDate`: keep the digits; from two digits on, `MM/YY` from the first four. */
  function FormatExpiryDate(value: string): (r: string)
    ensures |r| <= 5
    ensures ('/' in r) <==> |DigitsOf(value)| >= 2
    ensures |DigitsOf(value)| >= 2 ==> |r| >= 3 && r[2] == '/' && r[..2] == DigitsOf(value)[..2]
    ensures |DigitsOf(value)| >= 2 ==>
      r[3..] == DigitsOf(value)[2..if |DigitsOf(value)| < 4 then |DigitsOf(value)| else 4]
    ensures forall i :: 0 <= i < |r| && i != 2 ==> IsDigit(r[i])
    ensures |DigitsOf(value)| < 2 ==> r == DigitsOf(value)
  {
    var cleaned := DigitsOf(value);
    if |cleaned| >= 2 then
      var tail := cleaned[2..if |cleaned| < 4 then |cleaned| else 4];
      assert forall i :: 0 <= i < |tail| ==> IsDigit(tail[i]) && tail[i] != '/';
      cleaned[..2] + "/" + tail
    else
      assert forall i :: 0 <= i < |cleaned| ==> cleaned[i] != '/';
      cleaned
  }

  /** Formatting an already formatted expiry date changes nothing. */
  lemma FormatExpiryDateIdempotent(value: string)
    ensures FormatExpiryDate(FormatExpiryDate(value)) == FormatExpiryDate(value)
  {
    var cleaned := DigitsOf(value);
    var r := FormatExpiryDate(value);
    if |cleaned| >= 2 {
      var tail := cleaned[2..if |cleaned| < 4 then |cleaned| else 4];
      var head := cleaned[..2];
      assert r == head + "/" + tail;
      DigitsOfAppend(head + "/", tail);
      DigitsOfAppend(head, "/");
      assert DigitsOf("/") == [];
      DigitsOfDigits(head);
      DigitsOfDigits(tail);
      var c2 := DigitsOf(r);
      assert c2 == head + tail;
      assert |c2| == 2 + |tail| <= 4;
      assert c2[..2] == head;
      assert c2[2..|c2|] == tail;
      assert FormatExpiryDate(r) == c2[..2] + "/" + c2[2..|c2|];
    } else {
      DigitsOfDigits(cleaned);
    }
  }



  // ---------------------------------------------------------------------------
  // Prices.

  /** `calculateTotalDays`: 0 when either date is missing, otherwise the started days
      between them. */
  function TotalDays(details: BookingDetails): (d: nat)
    ensures details.pickupDate.None? || details.returnDate.None? ==> d == 0
    ensures details.pickupDate.Some? && details.returnDate.Some? ==>
      d * MsPerDay >= Abs(details.returnDate.value - details.pickupDate.value)
      && (d == 0 || (d - 1) * MsPerDay < Abs(details.returnDate.value - details.pickupDate.value))
  {
    match (details.pickupDate, details.returnDate)
    case (Some(p), Some(r)) => DaysBetween(p, r)
    case _ => 0
  }

  /** Swapping the two dates does not change the day count. */
  lemma TotalDaysSymmetric(details: BookingDetails)
    ensures TotalDays(details) == TotalDays(details.(pickupDate := details.returnDate,
                                                     returnDate := details.pickupDate))
  {
    if details.pickupDate.Some? && details.returnDate.Some? {
      DaysBetweenSymmetric(details.pickupDate.value, details.returnDate.value);
    }
  }

  /** Sum of the daily rates of the chosen add-ons. */
  function AddOnsDailyRate(a: AddOns): (r: nat)
    ensures r <= InsuranceRate + GpsRate + ChildSeatRate + AdditionalDriverRate
    ensures r == 0 <==> !a.insurance && !a.gps && !a.childSeat && !a.additionalDriver
  {
    (if a.insurance then InsuranceRate else 0) + (if a.gps then GpsRate else 0)
    + (if a.childSeat then ChildSeatRate else 0)
    + (if a.additionalDriver then AdditionalDriverRate else 0)
  }

  /** `calculateCarTotal`: 0 without a car, otherwise rate times days. */
  function CarTotal(car: Option<CheckoutCar>, days: nat): (t: int)
    ensures car.None? || days == 0 ==> t == 0
    ensures car.Some? && car.value.pricePerDay >= 0 ==> t >= 0
  {
    match car
    case None => 0
    case Some(c) => c.pricePerDay * days
  }

  /** `calculateTaxes` with exact arithmetic: 16% of the subtotal. */
  function Taxes(subtotal: int): (t: real)
    ensures t * 100.0 == (subtotal as real) * 16.0
  {
    (subtotal as real) * 0.16
  }

  // ---------------------------------------------------------------------------
  // The component.

  class CheckoutPaymentComponent {
    var currentStep: Step
    var car: Option<CheckoutCar>
    var bookingDetails: BookingDetails
    var contactForm: ContactForm
    var selectedPaymentMethod: PaymentMethod
    var cardForm: CardForm
    var agreedToTerms: bool
    var isProcessing: bool
    var bookingConfirmed: bool
    var confirmationNumber: string

    constructor()
      ensures currentStep == 1 && car == None
      ensures bookingDetails == BookingDetails(None, None, "", "", AddOns(false, false, false, false))
      ensures contactForm == ContactForm("", "", "", "") && cardForm == CardForm("", "", "", "")
      ensures selectedPaymentMethod == Card && !agreedToTerms && !isProcessing && !bookingConfirmed
      ensures confirmationNumber == ""
    {
      currentStep := 1;
      car := None;
      bookingDetails := BookingDetails(None, None, "", "", AddOns(false, false, false, false));
      contactForm := ContactForm("", "", "", "");
      selectedPaymentMethod := Card;
      cardForm := CardForm("", "", "", "");
      agreedToTerms := false;
      isProcessing := false;
      bookingConfirmed := false;
      confirmationNumber := "";
    }

    /** `validateCurrentStep` on the component's own forms. */
    function ValidateCurrentStep(): (o: Outcome)
      reads this
      ensures currentStep == 3 ==> o == Pass
      ensures o == ValidateStep(currentStep, contactForm, selectedPaymentMethod, cardForm, agreedToTerms)
    {
      ValidateStep(currentStep, contactForm, selectedPaymentMethod, cardForm, agreedToTerms)
    }

    /** `goToStep`: moving back (or staying) needs no check; moving forward, even from 1
        straight to 3, needs the current step to validate. The result is the alert the
        failed check shows, if any. */
    method GoToStep(step: Step) returns (alert: Option<string>)
      modifies this
      ensures step <= old(currentStep) ==> currentStep == step && alert == None
      ensures step > old(currentStep) ==>
        var o := old(ValidateCurrentStep());
        (o == Pass ==> currentStep == step && alert == None)
        && (o.Fail? ==> currentStep == old(currentStep) && alert == Some(o.alert))
      ensures car == old(car) && bookingDetails == old(bookingDetails) && contactForm == old(contactForm)
      ensures selectedPaymentMethod == old(selectedPaymentMethod) && cardForm == old(cardForm)
      ensures agreedToTerms == old(agreedToTerms) && isProcessing == old(isProcessing)
      ensures bookingConfirmed == old(bookingConfirmed) && confirmationNumber == old(confirmationNumber)
    {
      alert := None;
      if step <= currentStep {
        currentStep := step;
      } else {
        var o := ValidateCurrentStep();
        if o == Pass {
          currentStep := step;
        } else {
          alert := Some(o.alert);
        }
      }
    }

    /** `nextStep`: validates the current step (step 3 always validates) and, on success,
        advances by one unless already on the last step. */
    method NextStep() returns (alert: Option<string>)
      modifies this
      ensures var o := old(ValidateCurrentStep());
        (o == Pass && old(currentStep) < 3 ==> currentStep == old(currentStep) + 1)
        && (o != Pass || old(currentStep) == 3 ==> currentStep == old(currentStep))
        && alert == (if o.Fail? then Some(o.alert) else None)
      ensures car == old(car) && bookingDetails == old(bookingDetails) && contactForm == old(contactForm)
      ensures selectedPaymentMethod == old(selectedPaymentMethod) && cardForm == old(cardForm)
      ensures agreedToTerms == old(agreedToTerms) && isProcessing == old(isProcessing)
      ensures bookingConfirmed == old(bookingConfirmed) && confirmationNumber == old(confirmationNumber)
    {
      var o := ValidateCurrentStep();
      alert := None;
      if o == Pass {
        if currentStep < 3 {
          currentStep := currentStep + 1;
        }
      } else {
        alert := Some(o.alert);
      }
    }

    /** `previousStep`: goes back by one unless on the first step; nothing is checked. */
    method PreviousStep()
      modifies this
      ensures currentStep == if old(currentStep) > 1 then old(currentStep) - 1 else 1
      ensures car == old(car) && bookingDetails == old(bookingDetails) && contactForm == old(contactForm)
      ensures selectedPaymentMethod == old(selectedPaymentMethod) && cardForm == old(cardForm)
      ensures agreedToTerms == old(agreedToTerms) && isProcessing == old(isProcessing)
      ensures bookingConfirmed == old(bookingConfirmed) && confirmationNumber == old(confirmationNumber)
    {
      if currentStep > 1 {
        currentStep := currentStep - 1;
      }
    }

    /** `loadBookingFromParams`: a missing or empty parameter gives an empty field; an
        add-on is on exactly when its parameter is the text `'true'`. `parseDate` stands
        for `new Date(text).getTime()`. */
    method LoadBookingFromParams(params: map<string, string>, parseDate: string -> int)
      modifies this
      ensures bookingDetails.pickupDate ==
        (if "pickupDate" in params && params["pickupDate"] != "" then Some(parseDate(params["pickupDate"])) else None)
      ensures bookingDetails.returnDate ==
        (if "returnDate" in params && params["returnDate"] != "" then Some(parseDate(params["returnDate"])) else None)
      ensures bookingDetails.pickupLocation == (if "pickupLocation" in params then params["pickupLocation"] else "")
      ensures bookingDetails.returnLocation == (if "returnLocation" in params then params["returnLocation"] else "")
      ensures bookingDetails.addOns.insurance <==> "insurance" in params && params["insurance"] == "true"
      ensures bookingDetails.addOns.gps <==> "gps" in params && params["gps"] == "true"
      ensures bookingDetails.addOns.childSeat <==> "childSeat" in params && params["childSeat"] == "true"
      ensures bookingDetails.addOns.additionalDriver <==>
        "additionalDriver" in params && params["additionalDriver"] == "true"
      ensures currentStep == old(currentStep) && car == old(car) && contactForm == old(contactForm)
      ensures selectedPaymentMethod == old(selectedPaymentMethod) && cardForm == old(cardForm)
      ensures agreedToTerms == old(agreedToTerms) && isProcessing == old(isProcessing)
      ensures bookingConfirmed == old(bookingConfirmed) && confirmationNumber == old(confirmationNumber)
    {
      var pickup := if "pickupDate" in params && params["pickupDate"] != "" then Some(parseDate(params["pickupDate"])) else None;
      var ret := if "returnDate" in params && params["returnDate"] != "" then Some(parseDate(params["returnDate"])) else None;
      var pickupLocation := if "pickupLocation" in params then params["pickupLocation"] else "";
      var returnLocation := if "returnLocation" in params then params["returnLocation"] else "";
      var insurance := "insurance" in params && params["insurance"] == "true";
      var gps := "gps" in params && params["gps"] == "true";
      var childSeat := "childSeat" in params && params["childSeat"] == "true";
      var additionalDriver := "additionalDriver" in params && params["additionalDriver"] == "true";
      bookingDetails := BookingDetails(pickup, ret, pickupLocation, returnLocation,
                                       AddOns(insurance, gps, childSeat, additionalDriver));
    }

    /** `loadCarDetails`: the page always shows the same car, a Toyota Camry at 50 a day,
        whichever car was booked; the rental is then priced at that rate. */
    method LoadCarDetails()
      modifies this
      ensures car == Some(CheckoutCar("1", "Toyota", "Camry", "", 50, "Sedan"))
      ensures CalculateCarTotal() == 50 * CalculateTotalDays()
      ensures currentStep == old(currentStep) && bookingDetails == old(bookingDetails)
      ensures contactForm == old(contactForm) && selectedPaymentMethod == old(selectedPaymentMethod)
      ensures cardForm == old(cardForm) && agreedToTerms == old(agreedToTerms)
      ensures isProcessing == old(isProcessing) && bookingConfirmed == old(bookingConfirmed)
      ensures confirmationNumber == old(confirmationNumber)
    {
      car := Some(CheckoutCar("1", "Toyota", "Camry", "", 50, "Sedan"));
    }

    /** `calculateTotalDays` on the component's booking. */
    function CalculateTotalDays(): (d: nat)
      reads this
      ensures bookingDetails.pickupDate.None? || bookingDetails.returnDate.None? ==> d == 0
      ensures d == TotalDays(bookingDetails)
    {
      TotalDays(bookingDetails)
    }

    /** `calculateCarTotal`. */
    function CalculateCarTotal(): (t: int)
      reads this
      ensures car.None? || CalculateTotalDays() == 0 ==> t == 0
      ensures car.Some? ==> t == car.value.pricePerDay * CalculateTotalDays()
    {
      CarTotal(car, CalculateTotalDays())
    }

    /** `calculateAddOnsTotal`: each chosen add-on adds its rate times the days. */
    method CalculateAddOnsTotal() returns (total: int)
      ensures total == CalculateTotalDays() * AddOnsDailyRate(bookingDetails.addOns)
      ensures CalculateTotalDays() == 0 ==> total == 0
      ensures 0 <= total <= CalculateTotalDays() * (InsuranceRate + GpsRate + ChildSeatRate + AdditionalDriverRate)
    {
      total := 0;
      var days := CalculateTotalDays();
      var a := bookingDetails.addOns;
      if a.insurance {
        total := total + InsuranceRate * days;
      }
      if a.gps {
        total := total + GpsRate * days;
      }
      if a.childSeat {
        total := total + ChildSeatRate * days;
      }
      if a.additionalDriver {
        total := total + AdditionalDriverRate * days;
      }
      assert total == days * AddOnsDailyRate(a);
    }

    /** `calculateGrandTotal` with exact arithmetic: the subtotal plus 16%. */
    method CalculateGrandTotal() returns (grand: real)
      ensures var sub := CalculateCarTotal() + CalculateTotalDays() * AddOnsDailyRate(bookingDetails.addOns);
        grand * 100.0 == (sub as real) * 116.0
    {
      var addOns := CalculateAddOnsTotal();
      var sub := CalculateCarTotal() + addOns;
      grand := (sub as real) + Taxes(sub);
    }

    /** `formatCardNumber`: stores the grouped form of the typed value. */
    method FormatCardNumberInput(value: string)
      modifies this
      ensures cardForm == old(cardForm).(cardNumber := FormatCardNumber(value))
      ensures StripWhitespace(cardForm.cardNumber) == StripWhitespace(value)
      ensures currentStep == old(currentStep) && car == old(car) && bookingDetails == old(bookingDetails)
      ensures contactForm == old(contactForm) && selectedPaymentMethod == old(selectedPaymentMethod)
      ensures agreedToTerms == old(agreedToTerms) && isProcessing == old(isProcessing)
      ensures bookingConfirmed == old(bookingConfirmed) && confirmationNumber == old(confirmationNumber)
    {
      cardForm := cardForm.(cardNumber := FormatCardNumber(value));
    }

    /** `formatExpiryDate`: stores the `MM/YY` form of the typed value. */
    method FormatExpiryDateInput(value: string)
      modifies this
      ensures cardForm == old(cardForm).(expiryDate := FormatExpiryDate(value))
      ensures |cardForm.expiryDate| <= 5
      ensures currentStep == old(currentStep) && car == old(car) && bookingDetails == old(bookingDetails)
      ensures contactForm == old(contactForm) && selectedPaymentMethod == old(selectedPaymentMethod)
      ensures agreedToTerms == old(agreedToTerms) && isProcessing == old(isProcessing)
      ensures bookingConfirmed == old(bookingConfirmed) && confirmationNumber == old(confirmationNumber)
    {
      cardForm := cardForm.(expiryDate := FormatExpiryDate(value));
    }

    /** `confirmBooking` up to its timer: an invalid payment form shows its alert and
        nothing starts; otherwise processing begins. */
    method ConfirmBooking() returns (alert: Option<string>)
      modifies this
      ensures var o := ValidatePaymentForm(selectedPaymentMethod, cardForm, agreedToTerms);
        (o.Fail? ==> alert == Some(o.alert) && isProcessing == old(isProcessing))
        && (o == Pass ==> alert == None && isProcessing)
      ensures currentStep == old(currentStep) && car == old(car) && bookingDetails == old(bookingDetails)
      ensures contactForm == old(contactForm) && selectedPaymentMethod == old(selectedPaymentMethod)
      ensures cardForm == old(cardForm) && agreedToTerms == old(agreedToTerms)
      ensures bookingConfirmed == old(bookingConfirmed) && confirmationNumber == old(confirmationNumber)
    {
      var o := ValidatePaymentForm(selectedPaymentMethod, cardForm, agreedToTerms);
      if o.Fail? {
        alert := Some(o.alert);
      } else {
        alert := None;
        isProcessing := true;
      }
    }

    /** The timer callback of `confirmBooking`. `code` stands for the random upper-case
        suffix. */
    method OnBookingProcessed(code: string)
      modifies this
      ensures !isProcessing && bookingConfirmed && confirmationNumber == "BK" + code
      ensures currentStep == old(currentStep) && car == old(car) && bookingDetails == old(bookingDetails)
      ensures contactForm == old(contactForm) && selectedPaymentMethod == old(selectedPaymentMethod)
      ensures cardForm == old(cardForm) && agreedToTerms == old(agreedToTerms)
    {
      isProcessing := false;
      bookingConfirmed := true;
      confirmationNumber := "BK" + code;
    }
  }
}
