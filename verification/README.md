# Car Recommender — a Dafny model of the booking front end

Car Recommender is an Angular single-page application for renting cars. This project
models its behaviour:

- **Car listing page** (`CarListing`). Seven optional filters are applied one after the
  other: free-text search, type, transmission, fuel, price range, seats and location. The
  result is sorted by one of four keys and paged nine cars at a time, with a window of at
  most five page buttons.
- **Car details page** (`CarDetails`). It has an image gallery, review statistics and a
  booking form. The form's default dates, its price estimate and "Book now" are modelled.
- **Checkout** (`CheckoutPayment`). Three steps: contact details, payment, confirmation.
  Each step is validated, the prices and 16 % tax are computed, and the card number and
  expiry date are formatted as the user types.
- **Admin dashboard** (`AdminDashboard`). Booking, car and user tables with status
  filtering and search, plus the add, edit, delete and availability operations on cars.
- **Customer dashboard** (`UserDashboard`). Bookings by status, cancellation, profile
  editing, the password dialog and the statistics cards.
- **Session service** (`Auth`). It keeps the session's token, refresh token and user in
  the browser's `localStorage`. It also covers token expiry, roles and the HTTP error
  messages.
- **Route guard** (`AuthGuard`), built on the session service.
- **API client** (`CarBooking`). Its own `token` session, the query strings of the two
  car searches, and the booking price estimate.
- **Catalogue client** (`CarService`), which turns the listing filters into query
  parameters.

Each source file that changes state is a class, and every field it updates in place is
a field of that class. The browser's `localStorage` is a shared `Browser.LocalStorage`
object. Both services receive it and both change it. Pure computations are module-level
functions. Most of them are paired with a reference definition, an inverse or an
invariant, and a lemma connects the two. The per-day add-on rates, the charge sums and
the car total have only their own contracts, with no partner lemma. The `Text`, `Seqs`
and `Dates` modules model the JavaScript primitives the source relies on, each written out explicitly:

- `String.prototype.toLowerCase` and `includes`.
- The `\s` character class.
- `Number.prototype.toString` for integers.
- `padStart`.
- `Array.prototype.slice` with its index clamping.
- `Math.ceil` of a day difference.

Asynchronous answers (an HTTP response, a timer) are modelled as methods that receive
the answer. Examples are `OnCarsLoaded`, `OnCarLoaded`, `OnRefreshFailed` and
`OnBookingProcessed`. The clock, the calendar, date parsing, JSON and token decoding are
parameters.

## Model

| member | source | states |
|---|---|---|
| CarListing.Keep | car-recommender/src/app/features/cars/car-listing/car-listing.ts:96-128 | one filter stage never lengthens the list; a car survives it iff it was in the list and meets that stage's test, and no copies are added |
| CarListing.KeepAppend | car-recommender/src/app/features/cars/car-listing/car-listing.ts:96-128 | a stage judges each car on its own and keeps the order: filtering a concatenation concatenates the filtered parts |
| CarListing.StageAppend | car-recommender/src/app/features/cars/car-listing/car-listing.ts:96-128 | the same holds for a stage that its `if` may switch off |
| CarListing.RunStepsAppend | car-recommender/src/app/features/cars/car-listing/car-listing.ts:93-128 | the whole chain of stages distributes over concatenation |
| CarListing.RunStepsEmpty | car-recommender/src/app/features/cars/car-listing/car-listing.ts:93-128 | the chain of stages turns an empty list into an empty list |
| CarListing.RunStepsOneIf | car-recommender/src/app/features/cars/car-listing/car-listing.ts:93-128 | a single car comes out of the chain iff it passes every stage |
| CarListing.MatchesIsPassingSteps | car-recommender/src/app/features/cars/car-listing/car-listing.ts:96-128 | a car matches the filter settings iff it passes each stage that the settings switch on |
| CarListing.MatchingCars | car-recommender/src/app/features/cars/car-listing/car-listing.ts:93-128 | reference selection in one pass: exactly the loaded cars that match every active filter, with no new copies |
| CarListing.FilterChainIsMatching | car-recommender/src/app/features/cars/car-listing/car-listing.ts:93-128 | the seven successive `filter` calls of `applyFilters` select exactly the one-pass reference selection, in the same order |
| CarListing.FilterChainMembers | car-recommender/src/app/features/cars/car-listing/car-listing.ts:93-128 | a car is in the filtered list iff it is loaded and matches the settings |
| CarListing.Insert | car-recommender/src/app/features/cars/car-listing/car-listing.ts:137-151 | inserting a car into a list ranked by the sort key keeps it ranked and adds exactly that car |
| CarListing.InsertionSort | car-recommender/src/app/features/cars/car-listing/car-listing.ts:137-151 | the sort yields a permutation of its input, ranked by the chosen key |
| CarListing.SortCars | car-recommender/src/app/features/cars/car-listing/car-listing.ts:137-151 | the result is a permutation of the input. It is ordered by price ascending, price descending, rating descending or year descending, as chosen. `recommended` or an unknown option leaves the list as it is |
| CarListing.InitialFiltersShowOnlyFreeCars | car-recommender/src/app/features/cars/car-listing/car-listing.ts:27-37 | with the initial settings (upper price 0) only cars priced 0 can be listed; when every car has a price, the listing is empty |
| CarListing.EightPlusSeatsMatchNothing | car-recommender/src/app/features/cars/car-listing/car-listing.ts:122-124 | the `8+` seats option compares with the printed seat count, so it matches no car |
| CarListing.SeatsTextIsNotEightPlus | car-recommender/src/app/features/cars/car-listing/car-listing.ts:122-124 | no integer prints as `8+` |
| CarListing.ListingIsMatchingCars | car-recommender/src/app/features/cars/car-listing/car-listing.ts:93-151 | the displayed list (filtered, then sorted) is a permutation of the reference selection. It equals that selection when the sort option is not one of the four |
| CarListing.Page | car-recommender/src/app/features/cars/car-listing/car-listing.ts:192-196 | page `p` holds at most nine cars: the consecutive run that starts at `(p - 1) * 9`. Every page up to the page count is non-empty, and every page before the last is full |
| CarListing.PagesUpToPrefix | car-recommender/src/app/features/cars/car-listing/car-listing.ts:192-196 | pages 1 to `n` laid end to end form the list's prefix of length `9 n` (or the whole list) |
| CarListing.PagesCoverList | car-recommender/src/app/features/cars/car-listing/car-listing.ts:192-196 | pages 1 to `totalPages` laid end to end give back the whole filtered list: nothing is lost or repeated |
| CarListing.CarListingComponent.constructor | car-recommender/src/app/features/cars/car-listing/car-listing.ts:18-54 | the page starts empty, in grid view, with the initial filter settings, on page 1 of 0 |
| CarListing.CarListingComponent.ApplyFilters | car-recommender/src/app/features/cars/car-listing/car-listing.ts:93-135 | the displayed list becomes the sorted selection. The page count is the ceiling of its length over nine, and the current page is back to 1 |
| CarListing.CarListingComponent.OnQueryParams | car-recommender/src/app/features/cars/car-listing/car-listing.ts:61-65 | a non-empty `location` or `type` query parameter replaces that filter; the other filters are kept; loading starts |
| CarListing.CarListingComponent.LoadCars | car-recommender/src/app/features/cars/car-listing/car-listing.ts:82-91 | the page enters its loading state and nothing else changes until the answer |
| CarListing.CarListingComponent.OnCarsLoaded | car-recommender/src/app/features/cars/car-listing/car-listing.ts:86-90 | the fetched cars are stored and filtered with the current settings, and loading ends |
| CarListing.CarListingComponent.OnSearch | car-recommender/src/app/features/cars/car-listing/car-listing.ts:71-74 | a (debounced) search text replaces only the search filter and the list is recomputed |
| CarListing.CarListingComponent.ResetFilters | car-recommender/src/app/features/cars/car-listing/car-listing.ts:161-174 | after a reset the list holds exactly the loaded cars priced 0 to 500 |
| CarListing.CarListingComponent.ToggleViewMode | car-recommender/src/app/features/cars/car-listing/car-listing.ts:176-178 | grid and list view swap |
| CarListing.CarListingComponent.ToggleFilters | car-recommender/src/app/features/cars/car-listing/car-listing.ts:180-182 | the filter panel's visibility flips |
| CarListing.CarListingComponent.GoToPage | car-recommender/src/app/features/cars/car-listing/car-listing.ts:198-203 | only a page between 1 and `totalPages` is accepted; any other request changes nothing |
| CarListing.CarListingComponent.PaginatedCars | car-recommender/src/app/features/cars/car-listing/car-listing.ts:192-196 | the current page's cars are the matching window of the filtered list; a valid page of a non-empty list is non-empty |
| CarListing.CarListingComponent.GetPaginationPages | car-recommender/src/app/features/cars/car-listing/car-listing.ts:205-219 | consecutive page numbers, all between 1 and `totalPages`, at most five of them. When the current page is valid it is among them, and there are five of them or all the pages if fewer |
| AdminDashboard.BookingsWithStatus | car-recommender/src/app/features/admin/admin.ts:131-134 | exactly the bookings with the chosen status |
| AdminDashboard.BookingsWithStatusAppend | car-recommender/src/app/features/admin/admin.ts:131-134 | the status filter keeps the bookings' order |
| AdminDashboard.CarsMatching | car-recommender/src/app/features/admin/admin.ts:141-145 | exactly the cars whose lower-cased make or model contains the query, none added |
| AdminDashboard.CarsMatchingAppend | car-recommender/src/app/features/admin/admin.ts:141-145 | the car search keeps the table's order |
| AdminDashboard.UsersMatching | car-recommender/src/app/features/admin/admin.ts:209-213 | exactly the users whose lower-cased name or e-mail contains the query, none added |
| AdminDashboard.UsersMatchingAppend | car-recommender/src/app/features/admin/admin.ts:209-213 | the user search keeps the table's order |
| AdminDashboard.NewCar | car-recommender/src/app/features/admin/admin.ts:169-171 | an added car takes the form's fields, id = table length + 1, is available and unrated |
| AdminDashboard.FindCarIndex | car-recommender/src/app/features/admin/admin.ts:176 | `findIndex`: the first position with the id, or -1 iff the id is absent |
| AdminDashboard.EditCar | car-recommender/src/app/features/admin/admin.ts:175-183 | only the first car with the selected id changes. It takes the form's six fields and keeps its id, availability and rating. An absent id changes nothing |
| AdminDashboard.WithoutId | car-recommender/src/app/features/admin/admin.ts:191 | deleting keeps exactly the cars with another id |
| AdminDashboard.WithoutIdAppend | car-recommender/src/app/features/admin/admin.ts:191 | deletion keeps the table's order |
| AdminDashboard.WithoutAbsentId | car-recommender/src/app/features/admin/admin.ts:191 | deleting an id that is not in the table leaves it unchanged |
| AdminDashboard.ToggleAvailability | car-recommender/src/app/features/admin/admin.ts:205-207 | only the chosen car's availability flips |
| AdminDashboard.ToggleAvailabilityTwice | car-recommender/src/app/features/admin/admin.ts:205-207 | toggling twice restores the table |
| AdminDashboard.AddAfterDeleteRepeatsId | car-recommender/src/app/features/admin/admin.ts:167-194 | ids are not unique: deleting car "1" of "1","2" and then adding a car leaves two cars with id "2" |
| AdminDashboard.TotalCountAppend | car-recommender/src/app/features/admin/admin.ts:234-236 | the bookings-by-type total is additive over the rows |
| AdminDashboard.TotalCountBounds | car-recommender/src/app/features/admin/admin.ts:234-236 | with non-negative counts the total is non-negative and at least every row's count |
| AdminDashboard.AdminDashboardComponent.constructor | car-recommender/src/app/features/admin/admin.ts:76-94 | the tables are loaded, the filters are `all` or empty, no dialog is open, and the car forms are blank |
| AdminDashboard.AdminDashboardComponent.FilteredBookings | car-recommender/src/app/features/admin/admin.ts:131-134 | filter `all` shows every booking; any other filter shows exactly the bookings with that status |
| AdminDashboard.AdminDashboardComponent.FilteredCars | car-recommender/src/app/features/admin/admin.ts:141-145 | an empty search shows all cars; otherwise exactly the cars matching the lower-cased query |
| AdminDashboard.AdminDashboardComponent.FilteredUsers | car-recommender/src/app/features/admin/admin.ts:209-213 | an empty search shows all users; otherwise exactly the users matching the lower-cased query |
| AdminDashboard.AdminDashboardComponent.UpdateBookingStatus | car-recommender/src/app/features/admin/admin.ts:136-139 | only the chosen booking's status changes, and the dialog closes |
| AdminDashboard.AdminDashboardComponent.OpenAddCarModal | car-recommender/src/app/features/admin/admin.ts:147-151 | the add dialog opens with a blank form |
| AdminDashboard.AdminDashboardComponent.OpenEditCarModal | car-recommender/src/app/features/admin/admin.ts:153-165 | the edit dialog opens on a copy of the chosen car with its six editable fields |
| AdminDashboard.AdminDashboardComponent.SaveCar | car-recommender/src/app/features/admin/admin.ts:167-187 | in add mode the new car is appended. Otherwise the selected car is edited in place, or nothing changes without a selection. The matching alert is shown either way and the dialog closes |
| AdminDashboard.AdminDashboardComponent.DeleteCar | car-recommender/src/app/features/admin/admin.ts:189-194 | once confirmed, every car with the id is removed and the alert shows; unconfirmed, nothing changes |
| AdminDashboard.AdminDashboardComponent.ToggleCarAvailability | car-recommender/src/app/features/admin/admin.ts:205-207 | only the chosen car's availability flips |
| AdminDashboard.AdminDashboardComponent.OpenViewBookingModal | car-recommender/src/app/features/admin/admin.ts:215-219 | the booking dialog opens on the chosen booking |
| AdminDashboard.AdminDashboardComponent.CloseModal | car-recommender/src/app/features/admin/admin.ts:221-224 | the dialog closes and its kind is cleared; the selections stay |
| AdminDashboard.AdminDashboardComponent.GetTotalBookingsByType | car-recommender/src/app/features/admin/admin.ts:234-236 | with non-negative counts the total is non-negative and bounds every row |
| CheckoutPayment.IndexOfAt | car-recommender/src/app/features/checkout-payment/checkout-payment.ts:210 | the position of the first `@`, or the length when there is none |
| CheckoutPayment.EmailCheckIsPattern | car-recommender/src/app/features/checkout-payment/checkout-payment.ts:210-211 | the scan-based e-mail check accepts a text iff it matches `^[^\s@]+@[^\s@]+\.[^\s@]+$` |
| CheckoutPayment.ValidateContactForm | car-recommender/src/app/features/checkout-payment/checkout-payment.ts:204-217 | passes iff the four fields are filled and the e-mail matches the pattern. A failure carries the "fill in" alert, or the e-mail alert, which comes only once the fields are filled |
| CheckoutPayment.ValidatePaymentForm | car-recommender/src/app/features/checkout-payment/checkout-payment.ts:219-242 | passes iff the terms are accepted and, for card payment, the card fields are all filled, the number has 16 characters once blanks are removed and is numeric, and the CVV has 3 or 4 characters and is numeric. Each alert names the first check that failed, in the order fields filled, number, CVV, terms |
| CheckoutPayment.SixteenDigitsAreACardNumber | car-recommender/src/app/features/checkout-payment/checkout-payment.ts:226-230 | sixteen digits, with any blanks, pass the card-number check |
| CheckoutPayment.BlankCvvPasses | car-recommender/src/app/features/checkout-payment/checkout-payment.ts:232-235 | `Number("   ")` is 0, so a CVV of three blanks passes the CVV check |
| CheckoutPayment.ValidateStep | car-recommender/src/app/features/checkout-payment/checkout-payment.ts:191-202 | step 1 passes iff the contact form is valid, step 2 iff the payment form is valid, and step 3 always passes |
| CheckoutPayment.GroupsOfFour | car-recommender/src/app/features/checkout-payment/checkout-payment.ts:266 | the grouped text adds one separator per complete group of four, except after the last |
| CheckoutPayment.FormatCardNumber | car-recommender/src/app/features/checkout-payment/checkout-payment.ts:264-268 | formatting keeps the card's characters: it removes the whitespace, then puts a space at every fifth position and only there |
| CheckoutPayment.GroupsLayout | car-recommender/src/app/features/checkout-payment/checkout-payment.ts:266 | character `i` of the grouped text is a space when `i % 5 == 4`, and otherwise the `(i - i/5)`-th input character |
| CheckoutPayment.GroupsSpaces | car-recommender/src/app/features/checkout-payment/checkout-payment.ts:266 | on a text without whitespace, the spaces are exactly at the positions `i % 5 == 4` |
| CheckoutPayment.GroupsStrip | car-recommender/src/app/features/checkout-payment/checkout-payment.ts:265-266 | removing the blanks from the grouped text gives back the input |
| CheckoutPayment.FormatCardNumberIdempotent | car-recommender/src/app/features/checkout-payment/checkout-payment.ts:264-268 | formatting an already formatted card number leaves it unchanged |
| CheckoutPayment.FormatExpiryDate | car-recommender/src/app/features/checkout-payment/checkout-payment.ts:270-277 | at most five characters, all digits except a `/` at position 2. The `/` appears iff the input holds at least two digits, after the first two digits. The two characters after it are the third and fourth digits, as far as they exist. With fewer digits the result is just the digits |
| CheckoutPayment.FormatExpiryDateIdempotent | car-recommender/src/app/features/checkout-payment/checkout-payment.ts:270-277 | formatting an already formatted expiry date leaves it unchanged |
| CheckoutPayment.TotalDays | car-recommender/src/app/features/checkout-payment/checkout-payment.ts:133-141 | 0 when a date is missing; otherwise the least number of whole days covering the distance between the dates |
| CheckoutPayment.TotalDaysSymmetric | car-recommender/src/app/features/checkout-payment/checkout-payment.ts:133-141 | swapping pickup and return dates does not change the day count |
| CheckoutPayment.AddOnsDailyRate | car-recommender/src/app/features/checkout-payment/checkout-payment.ts:61-66 | the daily add-on rate is at most 20+10+15+25, and 0 iff no add-on is chosen |
| CheckoutPayment.CarTotal | car-recommender/src/app/features/checkout-payment/checkout-payment.ts:143-146 | 0 without a car or without days; never negative for a non-negative daily price |
| CheckoutPayment.Taxes | car-recommender/src/app/features/checkout-payment/checkout-payment.ts:159-162 | the tax is 16 % of the subtotal, exactly |
| CheckoutPayment.CheckoutPaymentComponent.constructor | car-recommender/src/app/features/checkout-payment/checkout-payment.ts:45-91 | step 1, no car, empty forms, card payment, terms not accepted, nothing in progress |
| CheckoutPayment.CheckoutPaymentComponent.ValidateCurrentStep | car-recommender/src/app/features/checkout-payment/checkout-payment.ts:191-202 | validates the form that belongs to the current step; step 3 always passes |
| CheckoutPayment.CheckoutPaymentComponent.GoToStep | car-recommender/src/app/features/checkout-payment/checkout-payment.ts:168-173 | going back (or staying) always works. Going forward needs the current step to validate; otherwise the step stays and the failing check's alert is returned |
| CheckoutPayment.CheckoutPaymentComponent.NextStep | car-recommender/src/app/features/checkout-payment/checkout-payment.ts:175-182 | advances by one only when the current step validates and is below 3; a failed check returns its alert |
| CheckoutPayment.CheckoutPaymentComponent.PreviousStep | car-recommender/src/app/features/checkout-payment/checkout-payment.ts:184-189 | goes back one step, never below step 1 |
| CheckoutPayment.CheckoutPaymentComponent.LoadBookingFromParams | car-recommender/src/app/features/checkout-payment/checkout-payment.ts:105-120 | a missing or empty parameter gives an empty field, and an add-on is on iff its parameter is the text `true` |
| CheckoutPayment.CheckoutPaymentComponent.LoadCarDetails | car-recommender/src/app/features/checkout-payment/checkout-payment.ts:122-131 | the page always shows the same car at 50 a day, so the car total is 50 per day whatever was booked |
| CheckoutPayment.CheckoutPaymentComponent.CalculateTotalDays | car-recommender/src/app/features/checkout-payment/checkout-payment.ts:133-141 | the page's day count, 0 while a date is missing |
| CheckoutPayment.CheckoutPaymentComponent.CalculateCarTotal | car-recommender/src/app/features/checkout-payment/checkout-payment.ts:143-146 | the daily price times the days, or 0 without a car |
| CheckoutPayment.CheckoutPaymentComponent.CalculateAddOnsTotal | car-recommender/src/app/features/checkout-payment/checkout-payment.ts:148-157 | the four conditional additions sum to the days times the daily rate of the chosen add-ons: never negative and never above the days times 70 |
| CheckoutPayment.CheckoutPaymentComponent.CalculateGrandTotal | car-recommender/src/app/features/checkout-payment/checkout-payment.ts:164-166 | car total plus add-ons plus tax is exactly 116 % of the subtotal |
| CheckoutPayment.CheckoutPaymentComponent.FormatCardNumberInput | car-recommender/src/app/features/checkout-payment/checkout-payment.ts:264-268 | only the card number field changes, to the formatted input, which keeps the input's characters |
| CheckoutPayment.CheckoutPaymentComponent.FormatExpiryDateInput | car-recommender/src/app/features/checkout-payment/checkout-payment.ts:270-277 | only the expiry field changes, to at most five characters |
| CheckoutPayment.CheckoutPaymentComponent.ConfirmBooking | car-recommender/src/app/features/checkout-payment/checkout-payment.ts:244-248 | processing starts iff the payment form validates; otherwise its alert is returned and nothing else changes |
| CheckoutPayment.CheckoutPaymentComponent.OnBookingProcessed | car-recommender/src/app/features/checkout-payment/checkout-payment.ts:249-253 | after the delay the booking is confirmed under `BK` followed by the code, and processing ends |
| UserDashboard.WithStatus | car-recommender/src/app/features/user/user.ts:120-122 | exactly the bookings with the given status, never more than the list |
| UserDashboard.WithStatusAppend | car-recommender/src/app/features/user/user.ts:120-122 | filtering by status keeps the list's order |
| UserDashboard.FilterBookings | car-recommender/src/app/features/user/user.ts:115-118 | filter `all` shows every booking; a status filter shows exactly the bookings with that status |
| UserDashboard.ActiveCount | car-recommender/src/app/features/user/user.ts:201-203 | never more than the bookings, and 0 iff no booking is active or upcoming |
| UserDashboard.ActiveCountSplits | car-recommender/src/app/features/user/user.ts:201-203 | the active count is the active bookings plus the upcoming ones |
| UserDashboard.TotalSpent | car-recommender/src/app/features/user/user.ts:205-207 | never negative when prices are not |
| UserDashboard.TotalSpentIsCompletedSum | car-recommender/src/app/features/user/user.ts:205-207 | the total spent is the price sum over exactly the completed bookings |
| UserDashboard.SumPricesAppend | car-recommender/src/app/features/user/user.ts:206 | the price sum is additive over concatenation |
| UserDashboard.CancelAdjustsTotalSpent | car-recommender/src/app/features/user/user.ts:129-136 | cancelling a booking takes its price off the total spent if it was completed, and leaves the total unchanged otherwise |
| UserDashboard.UserDashboardComponent.constructor | car-recommender/src/app/features/user/user.ts:46-70 | no user or bookings, filter `all`, empty forms, no dialog open |
| UserDashboard.UserDashboardComponent.LoadUserData | car-recommender/src/app/features/user/user.ts:85-94 | the user is stored and the profile form is filled from it |
| UserDashboard.UserDashboardComponent.LoadBookings | car-recommender/src/app/features/user/user.ts:96-98 | the bookings are replaced by the given list; the selection index is cleared (see the aliasing line under Left out) |
| UserDashboard.UserDashboardComponent.FilteredBookings | car-recommender/src/app/features/user/user.ts:115-118 | filter `all` shows every booking; a status filter shows exactly the bookings with that status |
| UserDashboard.UserDashboardComponent.GetBookingsByStatus | car-recommender/src/app/features/user/user.ts:120-122 | exactly the bookings with the given status |
| UserDashboard.UserDashboardComponent.OpenCancelModal | car-recommender/src/app/features/user/user.ts:124-127 | the cancel dialog opens on the chosen booking |
| UserDashboard.UserDashboardComponent.ConfirmCancelBooking | car-recommender/src/app/features/user/user.ts:129-136 | the selected booking, and only it, becomes cancelled with an alert, and the total spent drops by its completed price. Without a selection nothing changes. The dialog closes and the selection is cleared either way |
| UserDashboard.UserDashboardComponent.ToggleEditProfile | car-recommender/src/app/features/user/user.ts:147-158 | edit mode flips; leaving it discards the form's edits by refilling the form from the user |
| UserDashboard.UserDashboardComponent.SaveProfile | car-recommender/src/app/features/user/user.ts:160-170 | with a user, the form's five fields become the user's and edit mode ends with an alert. Id, avatar and membership date are kept. Without a user nothing happens |
| UserDashboard.UserDashboardComponent.OpenPasswordModal | car-recommender/src/app/features/user/user.ts:172-179 | the password dialog opens with an empty form |
| UserDashboard.UserDashboardComponent.ChangePassword | car-recommender/src/app/features/user/user.ts:181-194 | a mismatch, a password under 6 characters or success, each with its own alert. The dialog closes iff the entries agree and are at least 6 long |
| UserDashboard.UserDashboardComponent.GetTotalBookings | car-recommender/src/app/features/user/user.ts:197-199 | the number of bookings |
| UserDashboard.UserDashboardComponent.GetActiveBookings | car-recommender/src/app/features/user/user.ts:201-203 | the active plus the upcoming bookings, never more than the total |
| UserDashboard.UserDashboardComponent.GetTotalSpent | car-recommender/src/app/features/user/user.ts:205-207 | the price sum of the completed bookings |
| CarDetails.TwoDigitField | car-recommender/src/app/features/cars/car-details/car-details.ts:209-210 | a month or day below 100, zero-padded, is two digits that read back as the number |
| CarDetails.FormatDateFields | car-recommender/src/app/features/cars/car-details/car-details.ts:207-212 | `YYYY-MM-DD`: the printed year, a `-`, the 1-based month as two digits, a `-`, and the day as two digits |
| CarDetails.FormatDateInjective | car-recommender/src/app/features/cars/car-details/car-details.ts:207-212 | different dates never format to the same text |
| CarDetails.FormTotalDays | car-recommender/src/app/features/cars/car-details/car-details.ts:155-162 | 0 when a date field is empty; otherwise the least number of whole days covering the distance between the parsed dates |
| CarDetails.FormTotalDaysSymmetric | car-recommender/src/app/features/cars/car-details/car-details.ts:155-162 | swapping the two dates does not change the day count |
| CarDetails.DailyAddOnPrice | car-recommender/src/app/features/cars/car-details/car-details.ts:62-67 | the daily add-on price is at most 15+5+7+10, and 0 iff nothing is chosen |
| CarDetails.RoundToTenth | car-recommender/src/app/features/cars/car-details/car-details.ts:142 | the result is a multiple of 0.1 within half a tenth of the input: the nearest one, the larger on a tie |
| CarDetails.RoundToTenthMonotone | car-recommender/src/app/features/cars/car-details/car-details.ts:142 | rounding to a tenth preserves order |
| CarDetails.SumRatingsBounds | car-recommender/src/app/features/cars/car-details/car-details.ts:141 | a sum of `n` ratings within `[low, high]` lies within `[n low, n high]` |
| CarDetails.AverageRating | car-recommender/src/app/features/cars/car-details/car-details.ts:141-142 | the rounded mean of ratings from 1 to 5 stays within 1 to 5 |
| CarDetails.FlagText | car-recommender/src/app/features/cars/car-details/car-details.ts:198 | a flag is written as `true` iff it is set |
| CarDetails.BookingQuery | car-recommender/src/app/features/cars/car-details/car-details.ts:196-204 | the navigation carries exactly the four add-on flags and the four form fields, each flag reading `true` iff chosen |
| CarDetails.CarDetailsComponent.constructor | car-recommender/src/app/features/cars/car-details/car-details.ts:41-71 | no car, loading, overview tab, first image, empty form, no reviews |
| CarDetails.CarDetailsComponent.OnInit | car-recommender/src/app/features/cars/car-details/car-details.ts:83-88 | the form's pickup date is today and its return date three days later, both formatted and non-empty |
| CarDetails.CarDetailsComponent.LoadCar | car-recommender/src/app/features/cars/car-details/car-details.ts:96-97 | loading starts; nothing else changes until the answer |
| CarDetails.CarDetailsComponent.OnCarLoaded | car-recommender/src/app/features/cars/car-details/car-details.ts:100-105 | the car is replaced only by a successful answer that carries one; loading ends either way |
| CarDetails.CarDetailsComponent.OnCarLoadFailed | car-recommender/src/app/features/cars/car-details/car-details.ts:106-110 | the error message is set, loading ends, and the car is kept |
| CarDetails.CarDetailsComponent.SelectImage | car-recommender/src/app/features/cars/car-details/car-details.ts:114-116 | the index is taken as given, without a bound check |
| CarDetails.CarDetailsComponent.PreviousImage | car-recommender/src/app/features/cars/car-details/car-details.ts:118-122 | one image back, never below the first |
| CarDetails.CarDetailsComponent.NextImage | car-recommender/src/app/features/cars/car-details/car-details.ts:124-128 | one image forward, never past the car's last image; without a car nothing moves |
| CarDetails.CarDetailsComponent.SetActiveTab | car-recommender/src/app/features/cars/car-details/car-details.ts:130-132 | only the tab changes |
| CarDetails.CarDetailsComponent.CalculateRating | car-recommender/src/app/features/cars/car-details/car-details.ts:134-144 | no reviews give 0 and 0. Otherwise the count is the number of reviews and the average is their rounded mean, within 1 to 5 for star ratings |
| CarDetails.CarDetailsComponent.CalculateTotalDays | car-recommender/src/app/features/cars/car-details/car-details.ts:155-162 | the page's day count from its booking form, 0 while a date field is empty; the value does not depend on which date comes first |
| CarDetails.CarDetailsComponent.CalculateAddOnsTotal | car-recommender/src/app/features/cars/car-details/car-details.ts:164-173 | the four conditional additions sum to the days times the daily add-on price: never negative and never above the days times 37 |
| CarDetails.CarDetailsComponent.CalculateTotalPrice | car-recommender/src/app/features/cars/car-details/car-details.ts:175-181 | 0 without a car; otherwise the car's price plus the daily add-ons, times the days; never negative for a non-negative price |
| CarDetails.CarDetailsComponent.OnBookNow | car-recommender/src/app/features/cars/car-details/car-details.ts:183-205 | navigates (with the booking query) iff a car is shown, both dates are set and a pickup location is chosen. Otherwise it does nothing without a car, or shows the alert for the first missing field |
| Auth.StoredUser | car-recommender/src/app/services/auth.service.ts:155-158 | no stored user when the key is missing or holds the empty text; a non-empty stored text is parsed |
| Auth.AfterAuthSuccess | car-recommender/src/app/services/auth.service.ts:173-182 | the token and the serialized user are stored. The refresh token is stored only when non-empty, and every other key is untouched |
| Auth.Cleared | car-recommender/src/app/services/auth.service.ts:184-188 | the three session keys are gone and every other key is untouched |
| Auth.ClearedIdempotent | car-recommender/src/app/services/auth.service.ts:184-188 | clearing twice is clearing once |
| Auth.ReloadRestoresUser | car-recommender/src/app/services/auth.service.ts:23-30 | with a faithful JSON codec, a service created after a successful login finds the logged-in user |
| Auth.ReloadAfterClearFindsNoUser | car-recommender/src/app/services/auth.service.ts:23-30 | a service created after a logout finds no user |
| Auth.TokenExpired | car-recommender/src/app/services/auth.service.ts:129-140 | a missing, empty or undecodable token counts as expired |
| Auth.TokenExpiresAfterItsSecond | car-recommender/src/app/services/auth.service.ts:133-136 | a decodable token is expired iff the clock has reached the end of its `exp` second, `(exp + 1) * 1000` ms |
| Auth.TokenExpiryMonotone | car-recommender/src/app/services/auth.service.ts:129-140 | once expired, a token stays expired |
| Auth.HandleError | car-recommender/src/app/services/auth.service.ts:190-218 | a client-side error gives `Error: ` plus its message. Statuses 400, 401, 403 and 404 give their fixed messages, and any other status gives the code-and-message text |
| Auth.FirstBreak | car-recommender/src/app/services/auth.service.ts:213 | the position of the first line break of a message |
| Auth.FirstBreakAfter | car-recommender/src/app/services/auth.service.ts:213 | the first line break of the generic message follows the status line |
| Auth.GenericMessageStatus | car-recommender/src/app/services/auth.service.ts:213 | two equal generic messages carry the same status |
| Auth.HandleErrorFirstLetter | car-recommender/src/app/services/auth.service.ts:196-214 | each server-error message starts with a letter particular to its case |
| Auth.HandleErrorIdentifiesStatus | car-recommender/src/app/services/auth.service.ts:190-218 | two server errors with the same message have the same status: the message identifies the status |
| Auth.AuthService.constructor | car-recommender/src/app/services/auth.service.ts:23-30 | the current user is the stored user, and the service is authenticated iff there is one |
| Auth.AuthService.GetToken | car-recommender/src/app/services/auth.service.ts:113-115 | the stored token, absent iff its key is absent |
| Auth.AuthService.HandleAuthSuccess | car-recommender/src/app/services/auth.service.ts:173-182 | storage gets the session entries. The response's user becomes current and the service is authenticated |
| Auth.AuthService.ClearAuthData | car-recommender/src/app/services/auth.service.ts:184-188 | the three session keys are removed and nothing else |
| Auth.AuthService.Logout | car-recommender/src/app/services/auth.service.ts:46-56 | the session keys are removed, no user is current, the service is not authenticated, and the returned route is the sign-in page `auth/login` |
| Auth.AuthService.RefreshToken | car-recommender/src/app/services/auth.service.ts:58-64 | a request is made iff a non-empty refresh token is stored, and it sends that token. Otherwise the error is `No refresh token available` |
| Auth.AuthService.OnRefreshSucceeded | car-recommender/src/app/services/auth.service.ts:66-71 | the new token is stored, and the refresh token too when non-empty; the stored user is untouched |
| Auth.AuthService.OnRefreshFailed | car-recommender/src/app/services/auth.service.ts:72-75 | a failed refresh logs out: the session is cleared and the returned route is `auth/login` |
| Auth.AuthService.OnProfileUpdated | car-recommender/src/app/services/auth.service.ts:105-108 | the updated user is stored and becomes current; authentication is unchanged |
| Auth.AuthService.IsTokenExpired | car-recommender/src/app/services/auth.service.ts:129-140 | the stored token is expired by the clock, or missing |
| Auth.AuthService.HasRole | car-recommender/src/app/services/auth.service.ts:164-166 | true iff there is a current user whose role name is the given one |
| Auth.AuthService.IsAdmin | car-recommender/src/app/services/auth.service.ts:168-170 | true iff the current user is an administrator |
| AuthGuard.RedirectRoute | car-recommender/src/app/core/guards/auth.guard.ts:18-30 | only a refusal navigates: to `unauthorized` for a missing role, to `auth/login` otherwise |
| AuthGuard.CanActivate | car-recommender/src/app/core/guards/auth.guard.ts:14-31 | allows iff authenticated, the token is live and the route's role (if any) is held. It redirects to login, with the URL to return to, iff unauthenticated or expired |
| AuthGuard.AdminRouteAdmitsAdmins | car-recommender/src/app/core/guards/auth.guard.ts:18-25 | an `admin` route admits exactly the authenticated administrators with a live token |
| AuthGuard.NoTokenMeansLogin | car-recommender/src/app/core/guards/auth.guard.ts:18-30 | without a stored token every route redirects to login |
| CarBooking.QueryParams | car-recommender/src/app/services/car-booking.ts:104-111 | every sent key comes from a property whose value is kept |
| CarBooking.QueryParamsSendsKeptValue | car-recommender/src/app/services/car-booking.ts:105-110 | with distinct keys a property is sent iff its value is not `undefined`, `null` or empty, and then as its text (0 is sent) |
| CarBooking.QueryParamsSendsKeptValues | car-recommender/src/app/services/car-booking.ts:105-110 | the same for every property at once |
| CarBooking.ChargesTotal | car-recommender/src/app/services/car-booking.ts:214-216 | no add-ons cost nothing |
| CarBooking.CalculateBookingPrice | car-recommender/src/app/services/car-booking.ts:209-219 | the price is the started days between the instants times the daily price, plus the add-on charges: equal instants cost only the add-ons, and a non-negative price with non-negative add-ons never gives a negative total |
| CarBooking.CalculateBookingPriceSymmetric | car-recommender/src/app/services/car-booking.ts:209-219 | the estimate ignores which date comes first |
| CarBooking.CalculateBookingPriceWholeDays | car-recommender/src/app/services/car-booking.ts:209-219 | exactly `n` days without add-ons cost `n` daily prices |
| CarBooking.AuthLogoutKeepsBookingToken | car-recommender/src/app/services/car-booking.ts:47-50 | the session service's logout leaves this client's `token` entry as it was: the two sessions are independent |
| CarBooking.CarBookingService.constructor | car-recommender/src/app/services/car-booking.ts:16-18 | the client starts with no current user |
| CarBooking.CarBookingService.IsLoggedIn | car-recommender/src/app/services/car-booking.ts:83-85 | true iff a non-empty `token` is stored |
| CarBooking.CarBookingService.CheckAuth | car-recommender/src/app/services/car-booking.ts:52-55 | the current user is requested iff the client is logged in |
| CarBooking.CarBookingService.OnCurrentUserLoaded | car-recommender/src/app/services/car-booking.ts:56-60 | a successful answer with data becomes the current user; any other answer changes nothing |
| CarBooking.CarBookingService.OnCurrentUserFailed | car-recommender/src/app/services/car-booking.ts:61-63 | a failed lookup logs out |
| CarBooking.CarBookingService.OnAuthResponse | car-recommender/src/app/services/car-booking.ts:21-45 | a successful login or registration stores its token and user; any other answer changes nothing |
| CarBooking.CarBookingService.Logout | car-recommender/src/app/services/car-booking.ts:47-50 | only the `token` key is removed, and no user is current |
| CarBooking.CarBookingService.BuildParams | car-recommender/src/app/services/car-booking.ts:102-111 | the loop builds exactly the parameters the reference function assigns to the properties |
| CarBooking.CarBookingService.GetCarsParams | car-recommender/src/app/services/car-booking.ts:92-113 | no filter object sends nothing; otherwise the kept properties are sent |
| CarBooking.CarBookingService.SearchCarsParams | car-recommender/src/app/services/car-booking.ts:119-135 | the kept search properties are sent |
| CarService.GetCarsParams | car-recommender/src/app/services/car.service.ts:18-31 | each key is sent iff its filter is set, as follows. Selects must be non-empty and not `all`, prices non-zero, texts non-empty. Each key carries the filter's value, and no other key is sent |
| CarService.ParseIntOfIntToString | car-recommender/src/app/services/car.service.ts:26-27 | a price printed for the query string reads back as the same integer |
| CarService.AllIfEmpty | car-recommender/src/app/services/car.service.ts:23-28 | a select that is not sent reads back as `all` |
| CarService.GetCarsParamsRoundTrip | car-recommender/src/app/services/car.service.ts:18-31 | the parameters lose nothing but the difference between an empty select and `all`: reading them back gives the filters with empty selects set to `all` |

## Left out

- HTTP requests and RxJS plumbing are outside the model. This covers subjects and
  observables, `takeUntil`, and the `debounceTime` and `distinctUntilChanged` on the
  listing's search box. Only the state that a request's answer leaves behind is
  modelled.
  - The listing's search is modelled by its subscriber, `OnSearch`.
  - `onFilterChange` is `ApplyFilters`.
- `AuthService` endpoints that only forward to HTTP are not modelled: `login` and
  `register` beyond `handleAuthSuccess`, `forgotPassword`, `resetPassword`, `verifyEmail`
  and `changePassword`.
- `CarBookingService` request methods that only forward to HTTP are not modelled:
  `getCurrentUser`, `updateProfile`, `updatePassword`, the car, booking and payment
  endpoints, `getFeaturedCars`, `getCarTypes` and `getLocations`.
- The car details page's related cars are not modelled.
- The mock data generators (`getMock*`) are not modelled. The loaded lists are
  parameters of the loading methods.
- The navigations without state are not modelled: `viewCarDetails`, `bookCar`,
  `viewRelatedCar`, `viewBookingDetails`, `goToDashboard`, the user page's `logout`
  and the admin page's `logout`. The user page's `logout` calls `AuthService.logout`,
  which is modelled with its navigation. The admin page's `logout` only navigates to
  `auth/login` and leaves the session as it is.
- Pure display helpers are not modelled: `getStarArray`, `getRatingDistribution`,
  `getMaxRevenue`, `getBarWidth`, `getDaysUntil`, `formatCurrency` (`Intl` formatting),
  `downloadInvoice` and `downloadConfirmation`.
- Sidebar, menu and tab state that no other operation reads is not modelled. In
  `admin.ts` this is `setActiveMenu`, `toggleSidebar` and `toggleMobileSidebar`. In
  `user.ts` it is `setActiveTab` and `toggleMobileMenu`.
- `JSON.stringify` and `JSON.parse` of the stored user are the `stringify` and `parse`
  of a `UserCodec` parameter. The round trip is assumed only where a lemma says so, as
  the `RoundTrips` requirement.
  - Auth.StoredUser: a stored user text that fails to parse would make the source
    throw. The model leaves the value to `parse`.
- `decodeToken` (`atob` and `JSON.parse` of the middle segment) is a `decode` parameter
  that may fail. `Date.now()` is the `nowMs` parameter.
- `new Date(text).getTime()` is a `parseDate` parameter, so invalid dates (`NaN`) are
  not modelled.
  - In the checkout, an empty date parameter is `None` and any other text is parsed.
  - The car details page gets today's and the in-three-days calendar dates from its
    caller, because calendar arithmetic is not modelled.
- Numbers are integers except ratings and taxes, which are exact reals. Floating-point
  rounding is not modelled.
  - CarDetails.RoundToTenth: rounds half up on the exact value. This matches
    `toFixed(1)` for non-negative inputs, which covers every mean of star ratings.
    For a negative input `toFixed` rounds the magnitude, so `-0.25` gives `-0.3`
    where the model gives `-0.2`. Binary floating point can also miss a tie.
  - Text.IntToString: prices and seat counts print as integers. Exponent notation
    from 1e21 upwards is not modelled.
- Lower-casing is ASCII-only (`Text.LowerChar`). Strings are sequences of UTF-16 code
  units as characters, so Unicode case mapping is not modelled.
- CarListing.SortCars: sorts with a stable insertion sort on a copy. The source sorts
  a freshly filtered array in place with the engine's `Array.prototype.sort`. Which of
  two cars with equal keys comes first is not stated.
- Template-bound objects that the source mutates through aliases are modelled as indices
  into the owning list. These are the booking passed to `updateBookingStatus`, the car
  passed to `toggleCarAvailability`, and `selectedBooking` in the customer dashboard.
  Aliasing between different lists is not modelled.
  - UserDashboard.UserDashboardComponent.LoadBookings: clears the selection, because an
    index into the old list would not designate anything in the new one. The source
    only replaces `bookings`; its one caller runs before anything can be selected.
- `CarBooking.QueryParams` builds a map, so the order of the query-string parameters is
  not modelled.
- `window.scrollTo`, `alert`, `confirm` and `console` are left out. `confirm` in
  `deleteCar` is a `confirmed` parameter. Alerts are returned as values.
- The confirmation code `Math.random().toString(36)` is a parameter of
  `OnBookingProcessed`.
- `CarBookingService`'s constructor calls `checkAuth`. Here `CheckAuth` is a separate
  method that the caller runs after construction.
- `dashboard.ts`, `auth.ts`, `navbar.ts` and the `auth.interceptor.ts` HTTP interceptor
  are not part of this model.
