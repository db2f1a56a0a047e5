/** The customer's dashboard (features/user/user.ts): the booking list with a status
    filter and statistics, cancelling a booking, the profile editor and the password
    dialog. The booking chosen in the cancel dialog is the booking object itself; here
    it is designated by its index in the list. */
module UserDashboard {
  import opened Wrappers
  import opened Seqs

  datatype BookingStatus = Upcoming | Completed | Cancelled | Active

  /** `bookingFilter`: `'all'` or one status. */
  datatype StatusFilter = AllStatuses | Only(status: BookingStatus)

  /** Dates are instants in milliseconds. */
  datatype UserBooking = UserBooking(id: string, carMake: string, carModel: string, carImage: string,
                                     carType: string, startDate: int, endDate: int, totalPrice: int,
                                     status: BookingStatus, pickupLocation: string,
                                     returnLocation: string, bookingDate: int)

  datatype ProfileUser = ProfileUser(id: string, fullName: string, email: string, phone: string,
                                     licenseNumber: string, dateOfBirth: string,
                                     avatar: Option<string>, memberSince: int)

  datatype ProfileForm = ProfileForm(fullName: string, email: string, phone: string,
                                     licenseNumber: string, dateOfBirth: string)

  datatype PasswordForm = PasswordForm(currentPassword: string, newPassword: string, confirmPassword: string)

  const CancelledAlert := "Booking has been cancelled."
  const ProfileUpdatedAlert := "Profile updated successfully."
  const PasswordMismatchAlert := "New password and confirm password do not match."
  const PasswordShortAlert := "New password must be at least 6 characters long."
  const PasswordChangedAlert := "Password changed successfully."

  /** The shortest new password `changePassword` accepts. */
  const MinPasswordLength: nat := 6

  /** The profile form filled from the user's current values. */
  function FormOf(u: ProfileUser): ProfileForm {
    ProfileForm(u.fullName, u.email, u.phone, u.licenseNumber, u.dateOfBirth)
  }

  // ---------------------------------------------------------------------------
  // Filters and statistics.

  /** `b => b.status === status`. */
  function HasStatus(status: BookingStatus): UserBooking -> bool {
    (b: UserBooking) => b.status == status
  }

  /** `bookings.filter(b => b.status === status)` (`getBookingsByStatus`). */
  function WithStatus(bookings: seq<UserBooking>, status: BookingStatus): (r: seq<UserBooking>)
    ensures |r| <= |bookings|
    ensures forall b :: b in r <==> b in bookings && b.status == status
    ensures multiset(r) <= multiset(bookings)
  {
    Filter(bookings, HasStatus(status))
  }

  /** Filtering by status keeps the list's order. */
  lemma WithStatusAppend(a: seq<UserBooking>, b: seq<UserBooking>, status: BookingStatus)
    ensures WithStatus(a + b, status) == WithStatus(a, status) + WithStatus(b, status)
  {
    FilterAppend(a, b, HasStatus(status));
  }

  /** `filteredBookings` for a given filter. */
  function FilterBookings(bookings: seq<UserBooking>, filter: StatusFilter): (r: seq<UserBooking>)
    ensures filter == AllStatuses ==> r == bookings
    ensures filter.Only? ==> forall b :: b in r <==> b in bookings && b.status == filter.status
  {
    match filter
    case AllStatuses => bookings
    case Only(status) => WithStatus(bookings, status)
  }

  predicate IsActiveOrUpcoming(b: UserBooking) {
    b.status == Active || b.status == Upcoming
  }

  /** `getActiveBookings`: how many bookings are active or upcoming. */
  function ActiveCount(bookings: seq<UserBooking>): (n: nat)
    ensures n <= |bookings|
    ensures n == 0 <==> forall k :: 0 <= k < |bookings| ==> !IsActiveOrUpcoming(bookings[k])
  {
    if bookings == [] then 0
    else
      assert forall k :: 1 <= k < |bookings| ==> bookings[k] == bookings[1..][k - 1];
      (if IsActiveOrUpcoming(bookings[0]) then 1 else 0) + ActiveCount(bookings[1..])
  }

  /** The active count is the number of active bookings plus the number of upcoming ones. */
  lemma {:induction false} ActiveCountSplits(bookings: seq<UserBooking>)
    ensures ActiveCount(bookings) == |WithStatus(bookings, Active)| + |WithStatus(bookings, Upcoming)|
  {
    if bookings != [] {
      ActiveCountSplits(bookings[1..]);
    }
  }

  /** `reduce((sum, b) => sum + b.totalPrice, 0)`. */
  function SumPrices(bookings: seq<UserBooking>): int {
    if bookings == [] then 0 else bookings[0].totalPrice + SumPrices(bookings[1..])
  }

  /** What one booking adds to `getTotalSpent`. */
  function SpentOn(b: UserBooking): int {
    if b.status == Completed then b.totalPrice else 0
  }

  /** `getTotalSpent`: the prices of the completed bookings, summed. */
  function TotalSpent(bookings: seq<UserBooking>): (t: int)
    ensures (forall k :: 0 <= k < |bookings| ==> bookings[k].totalPrice >= 0) ==> t >= 0
  {
    if bookings == [] then 0
    else
      assert forall k :: 1 <= k < |bookings| ==> bookings[k] == bookings[1..][k - 1];
      SpentOn(bookings[0]) + TotalSpent(bookings[1..])
  }

  /** The running sum is the source's filter-then-reduce: only completed bookings count. */
  lemma {:induction false} TotalSpentIsCompletedSum(bookings: seq<UserBooking>)
    ensures TotalSpent(bookings) == SumPrices(WithStatus(bookings, Completed))
  {
    if bookings != [] {
      TotalSpentIsCompletedSum(bookings[1..]);
      var head := if bookings[0].status == Completed then [bookings[0]] else [];
      SumPricesAppend(head, WithStatus(bookings[1..], Completed));
    }
  }

  lemma {:induction false} SumPricesAppend(a: seq<UserBooking>, b: seq<UserBooking>)
    ensures SumPrices(a + b) == SumPrices(a) + SumPrices(b)
  {
    if a == [] {
      assert a + b == b;
    } else {
      assert (a + b)[1..] == a[1..] + b;
      SumPricesAppend(a[1..], b);
    }
  }

  /** Cancelling booking `i` takes its price off the total spent when it was completed, and
      changes nothing otherwise. */
  lemma {:induction false} CancelAdjustsTotalSpent(bookings: seq<UserBooking>, i: nat)
    requires i < |bookings|
    ensures TotalSpent(bookings[i := bookings[i].(status := Cancelled)])
         == TotalSpent(bookings) - SpentOn(bookings[i])
  {
    var after := bookings[i := bookings[i].(status := Cancelled)];
    if i == 0 {
      assert after[1..] == bookings[1..];
    } else {
      CancelAdjustsTotalSpent(bookings[1..], i - 1);
      assert after[1..] == bookings[1..][i - 1 := bookings[1..][i - 1].(status := Cancelled)];
    }
  }

  // ---------------------------------------------------------------------------
  // The component.

  class UserDashboardComponent {
    var user: Option<ProfileUser>
    var bookings: seq<UserBooking>
    var bookingFilter: StatusFilter
    var isEditingProfile: bool
    var profileForm: ProfileForm
    var showPasswordModal: bool
    var passwordForm: PasswordForm
    var showCancelModal: bool
    var selectedBooking: Option<nat>

    /** The selected booking, if any, is one of the list's. */
    ghost predicate Valid()
      reads this
    {
      selectedBooking.Some? ==> selectedBooking.value < |bookings|
    }

    constructor()
      ensures user == None && bookings == [] && bookingFilter == AllStatuses
      ensures !isEditingProfile && profileForm == ProfileForm("", "", "", "", "")
      ensures !showPasswordModal && passwordForm == PasswordForm("", "", "")
      ensures !showCancelModal && selectedBooking == None
      ensures Valid()
    {
      user := None;
      bookings := [];
      bookingFilter := AllStatuses;
      isEditingProfile := false;
      profileForm := ProfileForm("", "", "", "", "");
      showPasswordModal := false;
      passwordForm := PasswordForm("", "", "");
      showCancelModal := false;
      selectedBooking := None;
    }

    /** `loadUserData` with the fetched user: the profile form starts from its values. */
    method LoadUserData(u: ProfileUser)
      modifies this
      ensures user == Some(u) && profileForm == FormOf(u)
      ensures bookings == old(bookings) && bookingFilter == old(bookingFilter)
      ensures isEditingProfile == old(isEditingProfile) && showPasswordModal == old(showPasswordModal)
      ensures passwordForm == old(passwordForm) && showCancelModal == old(showCancelModal)
      ensures selectedBooking == old(selectedBooking)
    {
      user := Some(u);
      profileForm := FormOf(u);
    }

    /** `loadBookings` with the fetched list; any selection is dropped, since it designated
        a booking of the old list. */
    method LoadBookings(list: seq<UserBooking>)
      modifies this
      ensures bookings == list && selectedBooking == None && Valid()
      ensures user == old(user) && bookingFilter == old(bookingFilter) && profileForm == old(profileForm)
      ensures isEditingProfile == old(isEditingProfile) && showPasswordModal == old(showPasswordModal)
      ensures passwordForm == old(passwordForm) && showCancelModal == old(showCancelModal)
    {
      bookings := list;
      selectedBooking := None;
    }

    /** The `filteredBookings` getter. */
    function FilteredBookings(): (r: seq<UserBooking>)
      reads this
      ensures bookingFilter == AllStatuses ==> r == bookings
      ensures bookingFilter.Only? ==> forall b :: b in r <==> b in bookings && b.status == bookingFilter.status
    {
      FilterBookings(bookings, bookingFilter)
    }

    /** `getBookingsByStatus`. */
    function GetBookingsByStatus(status: BookingStatus): (r: seq<UserBooking>)
      reads this
      ensures |r| <= |bookings|
      ensures forall b :: b in r <==> b in bookings && b.status == status
    {
      WithStatus(bookings, status)
    }

    /** `openCancelModal` for the booking at `index`. */
    method OpenCancelModal(index: nat)
      requires index < |bookings|
      modifies this
      ensures selectedBooking == Some(index) && showCancelModal && Valid()
      ensures user == old(user) && bookings == old(bookings) && bookingFilter == old(bookingFilter)
      ensures isEditingProfile == old(isEditingProfile) && profileForm == old(profileForm)
      ensures showPasswordModal == old(showPasswordModal) && passwordForm == old(passwordForm)
    {
      selectedBooking := Some(index);
      showCancelModal := true;
    }

    /** `confirmCancelBooking`: the selected booking becomes cancelled and every other one
        stays as it was; the dialog closes and the selection is cleared either way. */
    method ConfirmCancelBooking() returns (alert: Option<string>)
      requires Valid()
      modifies this
      ensures old(selectedBooking).None? ==> bookings == old(bookings) && alert == None
      ensures old(selectedBooking).Some? ==>
        var i := old(selectedBooking).value;
        |bookings| == |old(bookings)|
        && bookings[i] == old(bookings)[i].(status := Cancelled)
        && (forall k :: 0 <= k < |bookings| && k != i ==> bookings[k] == old(bookings)[k])
        && TotalSpent(bookings) == TotalSpent(old(bookings)) - SpentOn(old(bookings)[i])
        && alert == Some(CancelledAlert)
      ensures !showCancelModal && selectedBooking == None && Valid()
      ensures user == old(user) && bookingFilter == old(bookingFilter)
      ensures isEditingProfile == old(isEditingProfile) && profileForm == old(profileForm)
      ensures showPasswordModal == old(showPasswordModal) && passwordForm == old(passwordForm)
    {
      alert := None;
      if selectedBooking.Some? {
        var i := selectedBooking.value;
        CancelAdjustsTotalSpent(bookings, i);
        bookings := bookings[i := bookings[i].(status := Cancelled)];
        alert := Some(CancelledAlert);
      }
      showCancelModal := false;
      selectedBooking := None;
    }

    /** `toggleEditProfile`: leaving edit mode discards the form's edits by refilling it
        from the user. */
    method ToggleEditProfile()
      modifies this
      ensures isEditingProfile == !old(isEditingProfile)
      ensures !isEditingProfile && user.Some? ==> profileForm == FormOf(user.value)
      ensures isEditingProfile || user.None? ==> profileForm == old(profileForm)
      ensures user == old(user) && bookings == old(bookings) && bookingFilter == old(bookingFilter)
      ensures showPasswordModal == old(showPasswordModal) && passwordForm == old(passwordForm)
      ensures showCancelModal == old(showCancelModal) && selectedBooking == old(selectedBooking)
    {
      isEditingProfile := !isEditingProfile;
      if !isEditingProfile && user.Some? {
        profileForm := FormOf(user.value);
      }
    }

    /** `saveProfile`: the form's five fields replace the user's; id, avatar and
        membership date stay. Without a user nothing happens. */
    method SaveProfile() returns (alert: Option<string>)
      modifies this
      ensures old(user).None? ==> user == None && isEditingProfile == old(isEditingProfile) && alert == None
      ensures old(user).Some? ==>
        user.Some? && FormOf(user.value) == old(profileForm)
        && user.value.id == old(user).value.id && user.value.avatar == old(user).value.avatar
        && user.value.memberSince == old(user).value.memberSince
        && !isEditingProfile && alert == Some(ProfileUpdatedAlert)
      ensures profileForm == old(profileForm) && bookings == old(bookings) && bookingFilter == old(bookingFilter)
      ensures showPasswordModal == old(showPasswordModal) && passwordForm == old(passwordForm)
      ensures showCancelModal == old(showCancelModal) && selectedBooking == old(selectedBooking)
    {
      alert := None;
      if user.Some? {
        var f := profileForm;
        user := Some(user.value.(fullName := f.fullName, email := f.email, phone := f.phone,
                                 licenseNumber := f.licenseNumber, dateOfBirth := f.dateOfBirth));
        alert := Some(ProfileUpdatedAlert);
        isEditingProfile := false;
      }
    }

    /** `openPasswordModal`: an empty form in an open dialog. */
    method OpenPasswordModal()
      modifies this
      ensures passwordForm == PasswordForm("", "", "") && showPasswordModal
      ensures user == old(user) && bookings == old(bookings) && bookingFilter == old(bookingFilter)
      ensures isEditingProfile == old(isEditingProfile) && profileForm == old(profileForm)
      ensures showCancelModal == old(showCancelModal) && selectedBooking == old(selectedBooking)
    {
      passwordForm := PasswordForm("", "", "");
      showPasswordModal := true;
    }

    /** `changePassword`: the dialog closes only when the two new entries agree and are at
        least six characters long; the current password is not checked. */
    method ChangePassword() returns (alert: string)
      modifies this
      ensures var f := passwordForm;
        (f.newPassword != f.confirmPassword ==> alert == PasswordMismatchAlert)
        && (f.newPassword == f.confirmPassword && |f.newPassword| < MinPasswordLength ==> alert == PasswordShortAlert)
        && (f.newPassword == f.confirmPassword && |f.newPassword| >= MinPasswordLength ==> alert == PasswordChangedAlert)
      ensures !showPasswordModal <==>
        !old(showPasswordModal)
        || (passwordForm.newPassword == passwordForm.confirmPassword && |passwordForm.newPassword| >= MinPasswordLength)
      ensures passwordForm == old(passwordForm)
      ensures user == old(user) && bookings == old(bookings) && bookingFilter == old(bookingFilter)
      ensures isEditingProfile == old(isEditingProfile) && profileForm == old(profileForm)
      ensures showCancelModal == old(showCancelModal) && selectedBooking == old(selectedBooking)
    {
      if passwordForm.newPassword != passwordForm.confirmPassword {
        alert := PasswordMismatchAlert;
        return;
      }
      if |passwordForm.newPassword| < MinPasswordLength {
        alert := PasswordShortAlert;
        return;
      }
      alert := PasswordChangedAlert;
      showPasswordModal := false;
    }

    /** `getTotalBookings`. */
    function GetTotalBookings(): (n: nat)
      reads this
      ensures n == |bookings|
    {
      |bookings|
    }

    /** `getActiveBookings`: never more than the total. */
    function GetActiveBookings(): (n: nat)
      reads this
      ensures n <= GetTotalBookings()
      ensures n == |WithStatus(bookings, Active)| + |WithStatus(bookings, Upcoming)|
    {
      ActiveCountSplits(bookings);
      ActiveCount(bookings)
    }

    /** `getTotalSpent`. */
    function GetTotalSpent(): (t: int)
      reads this
      ensures t == SumPrices(WithStatus(bookings, Completed))
    {
      TotalSpentIsCompletedSum(bookings);
      TotalSpent(bookings)
    }
  }
}
