/** The car details page (features/cars/car-details/car-details.ts): the image gallery
    cursor, the review summary, the booking form's day count and prices, the checks
    before "Book now", and the `YYYY-MM-DD` date format of the form's date fields.
    Date strings are turned into instants by a `parseDate` parameter, standing in for
    `new Date(...)`; the calendar fields of "today" come in as parameters. */
module CarDetails {
  import opened Wrappers
  import opened Text
  import opened Dates
  import opened Models

  datatype Tab = Overview | Specs | Reviews

  /** A customer review; `date` is an instant in milliseconds. */
  datatype Review = Review(id: string, userName: string, userAvatar: string, rating: real,
                           comment: string, date: int, verified: bool)

  datatype AddOnSelection = AddOnSelection(insurance: bool, gps: bool, childSeat: bool, additionalDriver: bool)

  datatype BookingForm = BookingForm(pickupDate: string, returnDate: string, pickupLocation: string,
                                     returnLocation: string, addOns: AddOnSelection)

  /** The calendar fields of a local date: `getFullYear()`, `getMonth()` (0-based) and `getDate()`. */
  datatype CalendarDate = CalendarDate(year: int, monthIndex: int, day: int)

  predicate IsCalendarDate(d: CalendarDate) {
    0 <= d.monthIndex < 12 && 1 <= d.day <= 31
  }

  /** `addOnPrices`, per day. */
  const InsurancePrice: nat := 15
  const GpsPrice: nat := 5
  const ChildSeatPrice: nat := 7
  const AdditionalDriverPrice: nat := 10

  const LoadFailedMessage := "Failed to load car details."
  const MissingDatesAlert := "Please select pickup and return dates."
  const MissingPickupAlert := "Please select a pickup location."

  // ---------------------------------------------------------------------------
  // Dates.

  /** A month or day number below 100, zero-padded to two digits, reads back as itself. */
  lemma TwoDigitField(n: nat)
    requires n < 100
    ensures var s := PadStartZero(NatToString(n), 2);
      |s| == 2 && AllDigits(s) && DigitsValue(s) == n
  {
    var t := NatToString(n);
    NatToStringRoundTrip(n);
    if n >= 10 {
      assert NatToString(n / 10) == [DigitChar(n / 10)];
      assert |t| == 2;
    } else {
      var s := PadStartZero(t, 2);
      assert s == ['0'] + t;
      assert s[..1] == ['0'];
      assert DigitsValue(s[..1]) == 0 by {
        assert s[..1][..0] == [];
      }
    }
  }

  /** `formatDate`: the year, then the 1-based month and the day, each zero-padded to two
      digits, separated by `-`. */
  function FormatDate(d: CalendarDate): (r: string)
    requires IsCalendarDate(d)
    ensures |r| == |IntToString(d.year)| + 6
  {
    var year := IntToString(d.year);
    var month := PadStartZero(NatToString(d.monthIndex + 1), 2);
    var day := PadStartZero(NatToString(d.day), 2);
    TwoDigitField(d.monthIndex + 1);
    TwoDigitField(d.day);
    year + "-" + month + "-" + day
  }

  /** Three fields joined by `-`, the last two of width two, split back at fixed places. */
  lemma DashedFields(year: string, month: string, day: string)
    requires |month| == 2 && |day| == 2
    ensures var r := year + "-" + month + "-" + day;
      |r| == |year| + 6 && r[..|r| - 6] == year && r[|r| - 6] == '-' && r[|r| - 3] == '-'
      && r[|r| - 5..|r| - 3] == month && r[|r| - 2..] == day
  {
    var r := year + "-" + month + "-" + day;
    assert r == year + ("-" + month + "-" + day);
  }

  /** The formatted date reads back field by field: the printed year, a `-`, two digits
      for the 1-based month, a `-`, and two digits for the day. */
  lemma FormatDateFields(d: CalendarDate)
    requires IsCalendarDate(d)
    ensures var r := FormatDate(d);
      r[..|r| - 6] == IntToString(d.year) && r[|r| - 6] == '-' && r[|r| - 3] == '-'
      && AllDigits(r[|r| - 5..|r| - 3]) && DigitsValue(r[|r| - 5..|r| - 3]) == d.monthIndex + 1
      && AllDigits(r[|r| - 2..]) && DigitsValue(r[|r| - 2..]) == d.day
  {
    var month := PadStartZero(NatToString(d.monthIndex + 1), 2);
    var day := PadStartZero(NatToString(d.day), 2);
    assert FormatDate(d) == IntToString(d.year) + "-" + month + "-" + day;
    TwoDigitField(d.monthIndex + 1);
    TwoDigitField(d.day);
    DashedFields(IntToString(d.year), month, day);
  }

  /** Joined fields of the same widths are equal only when each field is. */
  lemma DashedFieldsInjective(y1: string, m1: string, d1: string, y2: string, m2: string, d2: string)
    requires |m1| == 2 && |d1| == 2 && |m2| == 2 && |d2| == 2
    requires y1 + "-" + m1 + "-" + d1 == y2 + "-" + m2 + "-" + d2
    ensures y1 == y2 && m1 == m2 && d1 == d2
  {
    DashedFields(y1, m1, d1);
    DashedFields(y2, m2, d2);
  }

  /** Two-digit fields that print alike hold the same number. */
  lemma TwoDigitFieldInjective(n: nat, m: nat)
    requires n < 100 && m < 100
    requires PadStartZero(NatToString(n), 2) == PadStartZero(NatToString(m), 2)
    ensures n == m
  {
    TwoDigitField(n);
    TwoDigitField(m);
  }

  /** Different dates never share a formatted string, so the form's date fields identify
      the day chosen. */
  lemma FormatDateInjective(a: CalendarDate, b: CalendarDate)
    requires IsCalendarDate(a) && IsCalendarDate(b)
    requires FormatDate(a) == FormatDate(b)
    ensures a == b
  {
    var monthA, dayA := PadStartZero(NatToString(a.monthIndex + 1), 2), PadStartZero(NatToString(a.day), 2);
    var monthB, dayB := PadStartZero(NatToString(b.monthIndex + 1), 2), PadStartZero(NatToString(b.day), 2);
    assert FormatDate(a) == IntToString(a.year) + "-" + monthA + "-" + dayA;
    assert FormatDate(b) == IntToString(b.year) + "-" + monthB + "-" + dayB;
    DashedFieldsInjective(IntToString(a.year), monthA, dayA, IntToString(b.year), monthB, dayB);
    IntToStringInjective(a.year, b.year);
    TwoDigitFieldInjective(a.monthIndex + 1, b.monthIndex + 1);
    TwoDigitFieldInjective(a.day, b.day);
  }

  /** `calculateTotalDays` on a form: 0 when either date field is empty, otherwise the
      started days between the two parsed instants. */
  function FormTotalDays(form: BookingForm, parseDate: string -> int): (d: nat)
    ensures form.pickupDate == "" || form.returnDate == "" ==> d == 0
    ensures form.pickupDate != "" && form.returnDate != "" ==>
      var gap := Abs(parseDate(form.returnDate) - parseDate(form.pickupDate));
      d * MsPerDay >= gap && (d == 0 || (d - 1) * MsPerDay < gap)
  {
    if form.pickupDate == "" || form.returnDate == "" then 0
    else DaysBetween(parseDate(form.pickupDate), parseDate(form.returnDate))
  }

  /** Swapping the pickup and return dates does not change the day count. */
  lemma FormTotalDaysSymmetric(form: BookingForm, parseDate: string -> int)
    ensures FormTotalDays(form, parseDate)
         == FormTotalDays(form.(pickupDate := form.returnDate, returnDate := form.pickupDate), parseDate)
  {
    if form.pickupDate != "" && form.returnDate != "" {
      DaysBetweenSymmetric(parseDate(form.pickupDate), parseDate(form.returnDate));
    }
  }

  /** What the chosen add-ons cost per day. */
  function DailyAddOnPrice(a: AddOnSelection): (p: nat)
    ensures p <= InsurancePrice + GpsPrice + ChildSeatPrice + AdditionalDriverPrice
    ensures p == 0 <==> !a.insurance && !a.gps && !a.childSeat && !a.additionalDriver
  {
    (if a.insurance then InsurancePrice else 0) + (if a.gps then GpsPrice else 0)
    + (if a.childSeat then ChildSeatPrice else 0)
    + (if a.additionalDriver then AdditionalDriverPrice else 0)
  }

  /** The add-ons' cost over `days` days, one add-on at a time, is the daily price times
      the days, and at most every add-on's price times the days. */
  lemma ScaledAddOns(a: AddOnSelection, days: nat)
    ensures days * DailyAddOnPrice(a) ==
      (if a.insurance then InsurancePrice * days else 0) + (if a.gps then GpsPrice * days else 0)
      + (if a.childSeat then ChildSeatPrice * days else 0)
      + (if a.additionalDriver then AdditionalDriverPrice * days else 0)
    ensures 0 <= days * DailyAddOnPrice(a) <= days * (InsurancePrice + GpsPrice + ChildSeatPrice + AdditionalDriverPrice)
  {
    var p := DailyAddOnPrice(a);
    var q := InsurancePrice + GpsPrice + ChildSeatPrice + AdditionalDriverPrice;
    assert days * q - days * p == days * (q - p);
  }

  /** The car's days plus the add-ons' days is the combined daily price times the days,
      never negative for a car with a non-negative price. */
  lemma RentalTotal(price: int, perDay: nat, days: nat)
    ensures price * days + days * perDay == (price + perDay) * days
    ensures price >= 0 ==> (price + perDay) * days >= 0
  {
  }

  // ---------------------------------------------------------------------------
  // Reviews.

  /** `reviews.reduce((acc, review) => acc + review.rating, 0)`. */
  function SumRatings(reviews: seq<Review>): real {
    if reviews == [] then 0.0 else reviews[0].rating + SumRatings(reviews[1..])
  }

  /** `parseFloat(x.toFixed(1))` on exact numbers: the nearest multiple of 0.1, the larger
      one on a tie. */
  function RoundToTenth(x: real): (r: real)
    ensures r - 0.05 <= x < r + 0.05
    ensures (r * 10.0).Floor as real == r * 10.0
  {
    ((x * 10.0 + 0.5).Floor as real) / 10.0
  }

  /** Rounding to a tenth keeps order. */
  lemma RoundToTenthMonotone(x: real, y: real)
    requires x <= y
    ensures RoundToTenth(x) <= RoundToTenth(y)
  {
    assert (x * 10.0 + 0.5).Floor <= (y * 10.0 + 0.5).Floor;
  }

  predicate RatingsWithin(reviews: seq<Review>, low: real, high: real) {
    forall k :: 0 <= k < |reviews| ==> low <= reviews[k].rating <= high
  }

  /** The sum of ratings within `[low, high]` lies between `n * low` and `n * high`. */
  lemma {:induction false} SumRatingsBounds(reviews: seq<Review>, low: real, high: real)
    requires RatingsWithin(reviews, low, high)
    ensures (|reviews| as real) * low <= SumRatings(reviews) <= (|reviews| as real) * high
  {
    if reviews != [] {
      assert RatingsWithin(reviews[1..], low, high) by {
        forall k | 0 <= k < |reviews| - 1 ensures low <= reviews[1..][k].rating <= high {
          assert reviews[1..][k] == reviews[k + 1];
        }
      }
      SumRatingsBounds(reviews[1..], low, high);
      var n := (|reviews| - 1) as real;
      assert (|reviews| as real) * low == n * low + low;
      assert (|reviews| as real) * high == n * high + high;
    }
  }

  /** A mean of values within `[low, high]` lies within `[low, high]`. */
  lemma MeanWithin(sum: real, n: real, low: real, high: real)
    requires n > 0.0 && n * low <= sum <= n * high
    ensures low <= sum / n <= high
  {
    assert sum / n * n == sum;
  }

  /** The rounded mean of ratings given in stars, one to five. */
  function AverageRating(reviews: seq<Review>): (r: real)
    requires reviews != []
    ensures RatingsWithin(reviews, 1.0, 5.0) ==> 1.0 <= r <= 5.0
  {
    var mean := SumRatings(reviews) / (|reviews| as real);
    if RatingsWithin(reviews, 1.0, 5.0) then
      SumRatingsBounds(reviews, 1.0, 5.0);
      MeanWithin(SumRatings(reviews), |reviews| as real, 1.0, 5.0);
      RoundToTenthMonotone(1.0, mean);
      RoundToTenthMonotone(mean, 5.0);
      assert RoundToTenth(1.0) == 1.0;
      assert RoundToTenth(5.0) == 5.0;
      RoundToTenth(mean)
    else
      RoundToTenth(mean)
  }

  // ---------------------------------------------------------------------------
  // Booking.

  /** A boolean add-on spread into `queryParams`: the router writes it as `"true"` or
      `"false"`. */
  function FlagText(b: bool): (s: string)
    ensures s == "true" <==> b
  {
    if b then "true" else "false"
  }

  /** The query parameters `onBookNow` navigates with: the four add-on flags and the form's
      dates and locations. */
  function BookingQuery(form: BookingForm): (q: map<string, string>)
    ensures q.Keys == {"insurance", "gps", "childSeat", "additionalDriver",
                       "pickupDate", "returnDate", "pickupLocation", "returnLocation"}
    ensures q["insurance"] == "true" <==> form.addOns.insurance
    ensures q["gps"] == "true" <==> form.addOns.gps
    ensures q["childSeat"] == "true" <==> form.addOns.childSeat
    ensures q["additionalDriver"] == "true" <==> form.addOns.additionalDriver
    ensures q["pickupDate"] == form.pickupDate && q["returnDate"] == form.returnDate
    ensures q["pickupLocation"] == form.pickupLocation && q["returnLocation"] == form.returnLocation
  {
    map["insurance" := FlagText(form.addOns.insurance), "gps" := FlagText(form.addOns.gps),
        "childSeat" := FlagText(form.addOns.childSeat),
        "additionalDriver" := FlagText(form.addOns.additionalDriver),
        "pickupDate" := form.pickupDate, "returnDate" := form.returnDate,
        "pickupLocation" := form.pickupLocation, "returnLocation" := form.returnLocation]
  }

  /** What "Book now" does: nothing without a car, an alert, or a navigation to the
      booking summary with query parameters. */
  datatype BookNow = NoCar | Alert(message: string) | Navigate(query: map<string, string>)

  // ---------------------------------------------------------------------------
  // The component.

  class CarDetailsComponent {
    var car: Option<CarModel>
    var loading: bool
    var errorMessage: string
    var selectedImageIndex: int
    var activeTab: Tab
    var bookingForm: BookingForm
    var reviews: seq<Review>
    var averageRating: real
    var totalReviews: nat

    constructor()
      ensures car == None && loading && errorMessage == "" && selectedImageIndex == 0
      ensures activeTab == Overview && reviews == [] && averageRating == 0.0 && totalReviews == 0
      ensures bookingForm == BookingForm("", "", "", "", AddOnSelection(false, false, false, false))
    {
      car := None;
      loading := true;
      errorMessage := "";
      selectedImageIndex := 0;
      activeTab := Overview;
      bookingForm := BookingForm("", "", "", "", AddOnSelection(false, false, false, false));
      reviews := [];
      averageRating := 0.0;
      totalReviews := 0;
    }

    /** `ngOnInit`'s form defaults: pickup today, return on the date three days later
        (both supplied by the caller's clock and calendar). */
    method OnInit(today: CalendarDate, threeDaysLater: CalendarDate)
      requires IsCalendarDate(today) && IsCalendarDate(threeDaysLater)
      modifies this
      ensures bookingForm == old(bookingForm).(pickupDate := FormatDate(today), returnDate := FormatDate(threeDaysLater))
      ensures bookingForm.pickupDate != "" && bookingForm.returnDate != ""
      ensures car == old(car) && loading == old(loading) && errorMessage == old(errorMessage)
      ensures selectedImageIndex == old(selectedImageIndex) && activeTab == old(activeTab)
      ensures reviews == old(reviews) && averageRating == old(averageRating) && totalReviews == old(totalReviews)
    {
      var pickup := FormatDate(today);
      var back := FormatDate(threeDaysLater);
      bookingForm := bookingForm.(pickupDate := pickup, returnDate := back);
    }

    /** `loadCar` up to the request: the page shows its loading state until an answer comes. */
    method LoadCar()
      modifies this
      ensures loading
      ensures car == old(car) && errorMessage == old(errorMessage)
      ensures selectedImageIndex == old(selectedImageIndex) && activeTab == old(activeTab)
      ensures bookingForm == old(bookingForm) && reviews == old(reviews)
      ensures averageRating == old(averageRating) && totalReviews == old(totalReviews)
    {
      loading := true;
    }

    /** `loadCar`'s success handler: the car is shown only when the response carries one. */
    method OnCarLoaded(response: ApiResponse<CarModel>)
      modifies this
      ensures car == (if response.success && response.data.Some? then response.data else old(car))
      ensures !loading && errorMessage == old(errorMessage)
      ensures selectedImageIndex == old(selectedImageIndex) && activeTab == old(activeTab)
      ensures bookingForm == old(bookingForm) && reviews == old(reviews)
      ensures averageRating == old(averageRating) && totalReviews == old(totalReviews)
    {
      if response.success && response.data.Some? {
        car := response.data;
      }
      loading := false;
    }

    /** `loadCar`'s error handler. */
    method OnCarLoadFailed()
      modifies this
      ensures errorMessage == LoadFailedMessage && !loading && car == old(car)
      ensures selectedImageIndex == old(selectedImageIndex) && activeTab == old(activeTab)
      ensures bookingForm == old(bookingForm) && reviews == old(reviews)
      ensures averageRating == old(averageRating) && totalReviews == old(totalReviews)
    {
      errorMessage := LoadFailedMessage;
      loading := false;
    }

    /** `selectImage`: takes the index as given, without a bound check. */
    method SelectImage(index: int)
      modifies this
      ensures selectedImageIndex == index
      ensures car == old(car) && loading == old(loading) && errorMessage == old(errorMessage)
      ensures activeTab == old(activeTab) && bookingForm == old(bookingForm) && reviews == old(reviews)
      ensures averageRating == old(averageRating) && totalReviews == old(totalReviews)
    {
      selectedImageIndex := index;
    }

    /** `previousImage`: one step back, never below the first image. */
    method PreviousImage()
      modifies this
      ensures selectedImageIndex == if old(selectedImageIndex) > 0 then old(selectedImageIndex) - 1 else old(selectedImageIndex)
      ensures old(selectedImageIndex) >= 0 ==> selectedImageIndex >= 0
      ensures car == old(car) && loading == old(loading) && errorMessage == old(errorMessage)
      ensures activeTab == old(activeTab) && bookingForm == old(bookingForm) && reviews == old(reviews)
      ensures averageRating == old(averageRating) && totalReviews == old(totalReviews)
    {
      if selectedImageIndex > 0 {
        selectedImageIndex := selectedImageIndex - 1;
      }
    }

    /** `nextImage`: one step forward, never past the car's last image; without a car
        nothing moves. */
    method NextImage()
      modifies this
      ensures car.None? ==> selectedImageIndex == old(selectedImageIndex)
      ensures car.Some? && old(selectedImageIndex) < |car.value.images| - 1 ==>
        selectedImageIndex == old(selectedImageIndex) + 1
      ensures car.Some? && old(selectedImageIndex) >= |car.value.images| - 1 ==>
        selectedImageIndex == old(selectedImageIndex)
      ensures car.Some? && old(selectedImageIndex) <= |car.value.images| - 1 ==>
        selectedImageIndex <= |car.value.images| - 1
      ensures car == old(car) && loading == old(loading) && errorMessage == old(errorMessage)
      ensures activeTab == old(activeTab) && bookingForm == old(bookingForm) && reviews == old(reviews)
      ensures averageRating == old(averageRating) && totalReviews == old(totalReviews)
    {
      if car.Some? && selectedImageIndex < |car.value.images| - 1 {
        selectedImageIndex := selectedImageIndex + 1;
      }
    }

    /** `setActiveTab`. */
    method SetActiveTab(tab: Tab)
      modifies this
      ensures activeTab == tab
      ensures car == old(car) && loading == old(loading) && errorMessage == old(errorMessage)
      ensures selectedImageIndex == old(selectedImageIndex) && bookingForm == old(bookingForm)
      ensures reviews == old(reviews) && averageRating == old(averageRating) && totalReviews == old(totalReviews)
    {
      activeTab := tab;
    }

    /** `calculateRating`: zero for no reviews, otherwise the count of reviews and their
        mean rounded to a tenth. */
    method CalculateRating()
      modifies this
      ensures reviews == [] ==> averageRating == 0.0 && totalReviews == 0
      ensures reviews != [] ==> totalReviews == |reviews| && averageRating == AverageRating(reviews)
      ensures RatingsWithin(reviews, 1.0, 5.0) && reviews != [] ==> 1.0 <= averageRating <= 5.0
      ensures reviews == old(reviews) && car == old(car) && loading == old(loading)
      ensures errorMessage == old(errorMessage) && selectedImageIndex == old(selectedImageIndex)
      ensures activeTab == old(activeTab) && bookingForm == old(bookingForm)
    {
      if |reviews| == 0 {
        averageRating := 0.0;
        totalReviews := 0;
        return;
      }
      averageRating := AverageRating(reviews);
      totalReviews := |reviews|;
    }

    /** `calculateTotalDays` on the component's form. */
    function CalculateTotalDays(parseDate: string -> int): (d: nat)
      reads this
      ensures bookingForm.pickupDate == "" || bookingForm.returnDate == "" ==> d == 0
      ensures d == FormTotalDays(bookingForm, parseDate)
      ensures d == FormTotalDays(bookingForm.(pickupDate := bookingForm.returnDate,
                                              returnDate := bookingForm.pickupDate), parseDate)
    {
      FormTotalDaysSymmetric(bookingForm, parseDate);
      FormTotalDays(bookingForm, parseDate)
    }

    /** `calculateAddOnsTotal`: the days times the daily price of each chosen add-on. */
    method CalculateAddOnsTotal(parseDate: string -> int) returns (total: int)
      ensures total == CalculateTotalDays(parseDate) * DailyAddOnPrice(bookingForm.addOns)
      ensures 0 <= total <= CalculateTotalDays(parseDate) * (InsurancePrice + GpsPrice + ChildSeatPrice + AdditionalDriverPrice)
    {
      total := 0;
      var days := CalculateTotalDays(parseDate);
      var a := bookingForm.addOns;
      if a.insurance {
        total := total + InsurancePrice * days;
      }
      if a.gps {
        total := total + GpsPrice * days;
      }
      if a.childSeat {
        total := total + ChildSeatPrice * days;
      }
      if a.additionalDriver {
        total := total + AdditionalDriverPrice * days;
      }
      ScaledAddOns(a, days);
    }

    /** `calculateTotalPrice`: 0 without a car, otherwise the car's days plus the add-ons. */
    method CalculateTotalPrice(parseDate: string -> int) returns (total: int)
      ensures car.None? ==> total == 0
      ensures car.Some? ==> total == (car.value.pricePerDay + DailyAddOnPrice(bookingForm.addOns)) * CalculateTotalDays(parseDate)
      ensures car.Some? && car.value.pricePerDay >= 0 ==> total >= 0
    {
      if car.None? {
        return 0;
      }
      var days := CalculateTotalDays(parseDate);
      var carTotal := car.value.pricePerDay * days;
      var addOnsTotal := CalculateAddOnsTotal(parseDate);
      total := carTotal + addOnsTotal;
      RentalTotal(car.value.pricePerDay, DailyAddOnPrice(bookingForm.addOns), days);
    }

    /** `onBookNow`: navigates with the form only when a car is shown, both dates are set
        and a pickup location is chosen; the checks run in that order. */
    method OnBookNow() returns (outcome: BookNow)
      ensures outcome.Navigate? <==>
        car.Some? && bookingForm.pickupDate != "" && bookingForm.returnDate != "" && bookingForm.pickupLocation != ""
      ensures outcome.Navigate? ==> outcome.query == BookingQuery(bookingForm)
      ensures outcome == NoCar <==> car.None?
      ensures outcome == Alert(MissingDatesAlert) <==>
        car.Some? && (bookingForm.pickupDate == "" || bookingForm.returnDate == "")
      ensures outcome == Alert(MissingPickupAlert) <==>
        car.Some? && bookingForm.pickupDate != "" && bookingForm.returnDate != "" && bookingForm.pickupLocation == ""
    {
      if car.None? {
        return NoCar;
      }
      if bookingForm.pickupDate == "" || bookingForm.returnDate == "" {
        return Alert(MissingDatesAlert);
      }
      if bookingForm.pickupLocation == "" {
        return Alert(MissingPickupAlert);
      }
      outcome := Navigate(BookingQuery(bookingForm));
    }
  }
}
