/** The administrator's dashboard (features/admin/admin.ts): in-memory tables of
    bookings, cars and users with search and status filters, a car editor working in
    an add or an edit modal, deletion, and an availability switch. Objects the page
    hands to a handler by reference are designated here by their index in the table
    that owns them. */
module AdminDashboard {
  import opened Wrappers
  import opened Seqs
  import opened Text

  datatype AdminBooking = AdminBooking(id: string, userName: string, userAvatar: string, userEmail: string,
                                       carMake: string, carModel: string, carImage: string,
                                       startDate: string, endDate: string, totalPrice: int,
                                       status: string)

  datatype AdminCar = AdminCar(id: string, make: string, model: string, carType: string, year: int,
                               pricePerDay: int, availability: bool, image: string, rating: real)

  datatype AdminUser = AdminUser(id: string, fullName: string, email: string, phone: string,
                                 role: string, avatar: string, joinedDate: string, totalBookings: int)

  /** The fields the add and edit modals bind (`newCar`, `editCarForm`). */
  datatype CarForm = CarForm(make: string, model: string, year: int, carType: string,
                             pricePerDay: int, image: string)

  /** One bar of the bookings-by-type chart. */
  datatype TypeCount = TypeCount(carType: string, count: int, color: string)

  datatype ModalType = NoModal | AddCarModal | EditCarModal | ViewBookingModal

  /** The add form as `openAddCarModal` resets it. */
  function BlankNewCar(): CarForm {
    CarForm("", "", 2024, "sedan", 0, "")
  }

  /** The initial edit form. */
  function BlankEditCar(): CarForm {
    CarForm("", "", 2026, "sedan", 0, "")
  }

  const CarAddedAlert := "New car added successfully."
  const CarUpdatedAlert := "Car details updated successfully."
  const CarDeletedAlert := "Car deleted successfully."

  // ---------------------------------------------------------------------------
  // The getters' filters.

  /** `b => b.status === status`. */
  function StatusIs(status: string): AdminBooking -> bool {
    (b: AdminBooking) => b.status == status
  }

  /** The bookings whose status is `status`, in table order. */
  function BookingsWithStatus(bookings: seq<AdminBooking>, status: string): (r: seq<AdminBooking>)
    ensures |r| <= |bookings|
    ensures forall b :: b in r <==> b in bookings && b.status == status
    ensures multiset(r) <= multiset(bookings)
  {
    Filter(bookings, StatusIs(status))
  }

  /** Filtering by status keeps the two halves of a table apart, so it preserves order. */
  lemma BookingsWithStatusAppend(a: seq<AdminBooking>, b: seq<AdminBooking>, status: string)
    ensures BookingsWithStatus(a + b, status) == BookingsWithStatus(a, status) + BookingsWithStatus(b, status)
  {
    FilterAppend(a, b, StatusIs(status));
  }

  /** The car search: the lower-cased query occurs in the lower-cased make or model. */
  predicate CarMatches(car: AdminCar, query: string) {
    Includes(Lower(car.make), query) || Includes(Lower(car.model), query)
  }

  function CarTest(query: string): AdminCar -> bool {
    (car: AdminCar) => CarMatches(car, query)
  }

  /** `cars.filter(...)` with the car search. */
  function CarsMatching(cars: seq<AdminCar>, query: string): (r: seq<AdminCar>)
    ensures |r| <= |cars|
    ensures forall c :: c in r <==> c in cars && CarMatches(c, query)
    ensures multiset(r) <= multiset(cars)
  {
    Filter(cars, CarTest(query))
  }

  /** The car search keeps the table's order. */
  lemma CarsMatchingAppend(a: seq<AdminCar>, b: seq<AdminCar>, query: string)
    ensures CarsMatching(a + b, query) == CarsMatching(a, query) + CarsMatching(b, query)
  {
    FilterAppend(a, b, CarTest(query));
  }

  /** The user search: the lower-cased query occurs in the lower-cased name or e-mail. */
  predicate UserMatches(user: AdminUser, query: string) {
    Includes(Lower(user.fullName), query) || Includes(Lower(user.email), query)
  }

  function UserTest(query: string): AdminUser -> bool {
    (user: AdminUser) => UserMatches(user, query)
  }

  /** `users.filter(...)` with the user search. */
  function UsersMatching(users: seq<AdminUser>, query: string): (r: seq<AdminUser>)
    ensures |r| <= |users|
    ensures forall u :: u in r <==> u in users && UserMatches(u, query)
    ensures multiset(r) <= multiset(users)
  {
    Filter(users, UserTest(query))
  }

  /** The user search keeps the table's order. */
  lemma UsersMatchingAppend(a: seq<AdminUser>, b: seq<AdminUser>, query: string)
    ensures UsersMatching(a + b, query) == UsersMatching(a, query) + UsersMatching(b, query)
  {
    FilterAppend(a, b, UserTest(query));
  }

  // ---------------------------------------------------------------------------
  // The car table's updates.

  /** The car `saveCar` appends in add mode when the table has `count` cars. */
  function NewCar(form: CarForm, count: nat): (car: AdminCar)
    ensures car.id == NatToString(count + 1) && car.availability && car.rating == 0.0
    ensures car.make == form.make && car.model == form.model && car.year == form.year
    ensures car.carType == form.carType && car.pricePerDay == form.pricePerDay && car.image == form.image
  {
    AdminCar(NatToString(count + 1), form.make, form.model, form.carType, form.year,
             form.pricePerDay, true, form.image, 0.0)
  }

  /** `cars.findIndex(car => car.id === id)`. */
  function FindCarIndex(cars: seq<AdminCar>, id: string): (i: int)
    ensures -1 <= i < |cars|
    ensures i >= 0 ==> cars[i].id == id && forall k :: 0 <= k < i ==> cars[k].id != id
    ensures i == -1 <==> forall k :: 0 <= k < |cars| ==> cars[k].id != id
  {
    if cars == [] then -1
    else if cars[0].id == id then 0
    else
      var j := FindCarIndex(cars[1..], id);
      if j == -1 then -1 else j + 1
  }

  /** `{ ...car, ...form }`: the form's six fields over the car's own. */
  function ApplyForm(car: AdminCar, form: CarForm): AdminCar {
    car.(make := form.make, model := form.model, year := form.year, carType := form.carType,
         pricePerDay := form.pricePerDay, image := form.image)
  }

  /** The edit branch of `saveCar`: the first car with the id takes the form's fields and
      keeps its id, availability and rating; every other car is untouched. */
  function EditCar(cars: seq<AdminCar>, id: string, form: CarForm): (r: seq<AdminCar>)
    ensures |r| == |cars|
    ensures FindCarIndex(cars, id) == -1 ==> r == cars
    ensures var i := FindCarIndex(cars, id);
      i >= 0 ==>
        r[i].id == cars[i].id && r[i].availability == cars[i].availability && r[i].rating == cars[i].rating
        && r[i].make == form.make && r[i].model == form.model && r[i].year == form.year
        && r[i].carType == form.carType && r[i].pricePerDay == form.pricePerDay && r[i].image == form.image
    ensures forall k :: 0 <= k < |cars| && k != FindCarIndex(cars, id) ==> r[k] == cars[k]
  {
    var i := FindCarIndex(cars, id);
    if i == -1 then cars else cars[i := ApplyForm(cars[i], form)]
  }

  function OtherId(id: string): AdminCar -> bool {
    (car: AdminCar) => car.id != id
  }

  /** `cars.filter(car => car.id !== id)`. */
  function WithoutId(cars: seq<AdminCar>, id: string): (r: seq<AdminCar>)
    ensures |r| <= |cars|
    ensures forall c :: c in r <==> c in cars && c.id != id
    ensures multiset(r) <= multiset(cars)
  {
    Filter(cars, OtherId(id))
  }

  /** Deleting keeps the survivors in their order. */
  lemma WithoutIdAppend(a: seq<AdminCar>, b: seq<AdminCar>, id: string)
    ensures WithoutId(a + b, id) == WithoutId(a, id) + WithoutId(b, id)
  {
    FilterAppend(a, b, OtherId(id));
  }

  /** Deleting an id no car has changes nothing. */
  lemma WithoutAbsentId(cars: seq<AdminCar>, id: string)
    requires forall k :: 0 <= k < |cars| ==> cars[k].id != id
    ensures WithoutId(cars, id) == cars
  {
    FilterAll(cars, OtherId(id));
  }

  /** `car.availability = !car.availability` on the car at `i`. */
  function ToggleAvailability(cars: seq<AdminCar>, i: nat): (r: seq<AdminCar>)
    requires i < |cars|
    ensures |r| == |cars|
    ensures r[i].availability == !cars[i].availability
    ensures r[i] == cars[i].(availability := r[i].availability)
    ensures forall k :: 0 <= k < |cars| && k != i ==> r[k] == cars[k]
  {
    cars[i := cars[i].(availability := !cars[i].availability)]
  }

  /** Switching twice restores the table. */
  lemma ToggleAvailabilityTwice(cars: seq<AdminCar>, i: nat)
    requires i < |cars|
    ensures ToggleAvailability(ToggleAvailability(cars, i), i) == cars
  {
    var twice := ToggleAvailability(ToggleAvailability(cars, i), i);
    assert twice[i] == cars[i];
  }

  /** The add-mode id is the table's length plus one, so after a deletion it can repeat
      an id still in the table: deleting car "1" of ["1", "2"] and adding a car gives
      two cars with id "2". */
  lemma AddAfterDeleteRepeatsId(c1: AdminCar, c2: AdminCar, form: CarForm)
    requires c1.id == "1" && c2.id == "2"
    ensures var after := WithoutId([c1, c2], "1") + [NewCar(form, |WithoutId([c1, c2], "1")|)];
      |after| == 2 && after[0].id == after[1].id == "2"
  {
    var kept := WithoutId([c1, c2], "1");
    assert [c1, c2][1..] == [c2];
    assert [c2][1..] == [];
    assert kept == [c2];
    assert NatToString(2) == "2";
  }

  /** `reduce((sum, item) => sum + item.count, 0)`. */
  function TotalCount(items: seq<TypeCount>): int {
    if items == [] then 0 else items[0].count + TotalCount(items[1..])
  }

  /** The total adds up chart bars independently, and is at least any single count when
      counts are non-negative. */
  lemma {:induction false} TotalCountAppend(a: seq<TypeCount>, b: seq<TypeCount>)
    ensures TotalCount(a + b) == TotalCount(a) + TotalCount(b)
  {
    if a == [] {
      assert a + b == b;
    } else {
      assert (a + b)[1..] == a[1..] + b;
      TotalCountAppend(a[1..], b);
    }
  }

  lemma {:induction false} TotalCountBounds(items: seq<TypeCount>)
    ensures (forall k :: 0 <= k < |items| ==> items[k].count >= 0) ==>
      TotalCount(items) >= 0 && forall k :: 0 <= k < |items| ==> items[k].count <= TotalCount(items)
  {
    if items != [] && forall k :: 0 <= k < |items| ==> items[k].count >= 0 {
      assert forall k :: 0 <= k < |items| - 1 ==> items[1..][k] == items[k + 1];
      TotalCountBounds(items[1..]);
      assert forall k :: 1 <= k < |items| ==> items[k] == items[1..][k - 1];
    }
  }

  // ---------------------------------------------------------------------------
  // The component.

  class AdminDashboardComponent {
    var recentBookings: seq<AdminBooking>
    var cars: seq<AdminCar>
    var users: seq<AdminUser>
    var bookingsByType: seq<TypeCount>
    var bookingFilter: string
    var carSearch: string
    var userSearch: string
    var showModal: bool
    var modalType: ModalType
    var selectedCar: Option<AdminCar>
    /** `selectedBooking` is the booking object itself; here, its index. */
    var selectedBooking: Option<nat>
    var newCar: CarForm
    var editCarForm: CarForm

    constructor(bookings: seq<AdminBooking>, carTable: seq<AdminCar>, userTable: seq<AdminUser>,
                byType: seq<TypeCount>)
      ensures recentBookings == bookings && cars == carTable && users == userTable && bookingsByType == byType
      ensures bookingFilter == "all" && carSearch == "" && userSearch == ""
      ensures !showModal && modalType == NoModal && selectedCar == None && selectedBooking == None
      ensures newCar == BlankNewCar() && editCarForm == BlankEditCar()
    {
      recentBookings := bookings;
      cars := carTable;
      users := userTable;
      bookingsByType := byType;
      bookingFilter := "all";
      carSearch := "";
      userSearch := "";
      showModal := false;
      modalType := NoModal;
      selectedCar := None;
      selectedBooking := None;
      newCar := BlankNewCar();
      editCarForm := BlankEditCar();
    }

    /** The `filteredBookings` getter. */
    function FilteredBookings(): (r: seq<AdminBooking>)
      reads this
      ensures bookingFilter == "all" ==> r == recentBookings
      ensures bookingFilter != "all" ==> r == BookingsWithStatus(recentBookings, bookingFilter)
      ensures forall b :: b in r ==> b in recentBookings
    {
      if bookingFilter == "all" then recentBookings else BookingsWithStatus(recentBookings, bookingFilter)
    }

    /** The `filteredCars` getter. */
    function FilteredCars(): (r: seq<AdminCar>)
      reads this
      ensures carSearch == "" ==> r == cars
      ensures carSearch != "" ==> forall c :: c in r <==> c in cars && CarMatches(c, Lower(carSearch))
    {
      if carSearch == "" then cars else CarsMatching(cars, Lower(carSearch))
    }

    /** The `filteredUsers` getter. */
    function FilteredUsers(): (r: seq<AdminUser>)
      reads this
      ensures userSearch == "" ==> r == users
      ensures userSearch != "" ==> forall u :: u in r <==> u in users && UserMatches(u, Lower(userSearch))
    {
      if userSearch == "" then users else UsersMatching(users, Lower(userSearch))
    }

    /** `updateBookingStatus`: the booking at `index` takes the status and the modal closes. */
    method UpdateBookingStatus(index: nat, status: string)
      requires index < |recentBookings|
      modifies this
      ensures |recentBookings| == |old(recentBookings)|
      ensures recentBookings[index] == old(recentBookings)[index].(status := status)
      ensures forall k :: 0 <= k < |recentBookings| && k != index ==> recentBookings[k] == old(recentBookings)[k]
      ensures !showModal && modalType == old(modalType) && selectedBooking == old(selectedBooking)
      ensures cars == old(cars) && users == old(users) && bookingsByType == old(bookingsByType)
      ensures selectedCar == old(selectedCar) && newCar == old(newCar) && editCarForm == old(editCarForm)
      ensures bookingFilter == old(bookingFilter) && carSearch == old(carSearch) && userSearch == old(userSearch)
    {
      recentBookings := recentBookings[index := recentBookings[index].(status := status)];
      showModal := false;
    }

    /** `openAddCarModal`. */
    method OpenAddCarModal()
      modifies this
      ensures modalType == AddCarModal && newCar == BlankNewCar() && showModal
      ensures recentBookings == old(recentBookings) && cars == old(cars) && users == old(users)
      ensures bookingsByType == old(bookingsByType) && selectedCar == old(selectedCar)
      ensures selectedBooking == old(selectedBooking) && editCarForm == old(editCarForm)
      ensures bookingFilter == old(bookingFilter) && carSearch == old(carSearch) && userSearch == old(userSearch)
    {
      modalType := AddCarModal;
      newCar := BlankNewCar();
      showModal := true;
    }

    /** `openEditCarModal`: copies the car at `index` and fills the edit form from it. */
    method OpenEditCarModal(index: nat)
      requires index < |cars|
      modifies this
      ensures var car := old(cars)[index];
        selectedCar == Some(car)
        && editCarForm == CarForm(car.make, car.model, car.year, car.carType, car.pricePerDay, car.image)
      ensures modalType == EditCarModal && showModal
      ensures recentBookings == old(recentBookings) && cars == old(cars) && users == old(users)
      ensures bookingsByType == old(bookingsByType) && selectedBooking == old(selectedBooking)
      ensures newCar == old(newCar)
      ensures bookingFilter == old(bookingFilter) && carSearch == old(carSearch) && userSearch == old(userSearch)
    {
      var car := cars[index];
      selectedCar := Some(car);
      editCarForm := CarForm(car.make, car.model, car.year, car.carType, car.pricePerDay, car.image);
      modalType := EditCarModal;
      showModal := true;
    }

    /** `saveCar`: in the add modal, appends a new car; in any other modal, applies the edit
        form to the car with the selected car's id. The modal closes either way. */
    method SaveCar() returns (alert: string)
      modifies this
      ensures old(modalType) == AddCarModal ==>
        cars == old(cars) + [NewCar(old(newCar), |old(cars)|)] && alert == CarAddedAlert
      ensures old(modalType) != AddCarModal ==> alert == CarUpdatedAlert
      ensures old(modalType) != AddCarModal && old(selectedCar).None? ==> cars == old(cars)
      ensures old(modalType) != AddCarModal && old(selectedCar).Some? ==>
        cars == EditCar(old(cars), old(selectedCar).value.id, old(editCarForm))
      ensures !showModal && modalType == old(modalType)
      ensures recentBookings == old(recentBookings) && users == old(users) && bookingsByType == old(bookingsByType)
      ensures selectedCar == old(selectedCar) && selectedBooking == old(selectedBooking)
      ensures newCar == old(newCar) && editCarForm == old(editCarForm)
      ensures bookingFilter == old(bookingFilter) && carSearch == old(carSearch) && userSearch == old(userSearch)
    {
      if modalType == AddCarModal {
        cars := cars + [NewCar(newCar, |cars|)];
        alert := CarAddedAlert;
      } else {
        if selectedCar.Some? {
          var index := FindCarIndex(cars, selectedCar.value.id);
          if index != -1 {
            cars := cars[index := ApplyForm(cars[index], editCarForm)];
          }
        }
        alert := CarUpdatedAlert;
      }
      showModal := false;
    }

    /** `deleteCar`: on confirmation, drops every car with the id. */
    method DeleteCar(carId: string, confirmed: bool) returns (alert: Option<string>)
      modifies this
      ensures confirmed ==> cars == WithoutId(old(cars), carId) && alert == Some(CarDeletedAlert)
      ensures !confirmed ==> cars == old(cars) && alert == None
      ensures recentBookings == old(recentBookings) && users == old(users) && bookingsByType == old(bookingsByType)
      ensures showModal == old(showModal) && modalType == old(modalType)
      ensures selectedCar == old(selectedCar) && selectedBooking == old(selectedBooking)
      ensures newCar == old(newCar) && editCarForm == old(editCarForm)
      ensures bookingFilter == old(bookingFilter) && carSearch == old(carSearch) && userSearch == old(userSearch)
    {
      if confirmed {
        cars := WithoutId(cars, carId);
        alert := Some(CarDeletedAlert);
      } else {
        alert := None;
      }
    }

    /** `toggleCarAvailability` on the car at `index`. */
    method ToggleCarAvailability(index: nat)
      requires index < |cars|
      modifies this
      ensures cars == ToggleAvailability(old(cars), index)
      ensures recentBookings == old(recentBookings) && users == old(users) && bookingsByType == old(bookingsByType)
      ensures showModal == old(showModal) && modalType == old(modalType)
      ensures selectedCar == old(selectedCar) && selectedBooking == old(selectedBooking)
      ensures newCar == old(newCar) && editCarForm == old(editCarForm)
      ensures bookingFilter == old(bookingFilter) && carSearch == old(carSearch) && userSearch == old(userSearch)
    {
      cars := cars[index := cars[index].(availability := !cars[index].availability)];
    }

    /** `openViewBookingModal` for the booking at `index`. */
    method OpenViewBookingModal(index: nat)
      requires index < |recentBookings|
      modifies this
      ensures selectedBooking == Some(index) && modalType == ViewBookingModal && showModal
      ensures recentBookings == old(recentBookings) && cars == old(cars) && users == old(users)
      ensures bookingsByType == old(bookingsByType) && selectedCar == old(selectedCar)
      ensures newCar == old(newCar) && editCarForm == old(editCarForm)
      ensures bookingFilter == old(bookingFilter) && carSearch == old(carSearch) && userSearch == old(userSearch)
    {
      selectedBooking := Some(index);
      modalType := ViewBookingModal;
      showModal := true;
    }

    /** `closeModal`. */
    method CloseModal()
      modifies this
      ensures !showModal && modalType == NoModal
      ensures recentBookings == old(recentBookings) && cars == old(cars) && users == old(users)
      ensures bookingsByType == old(bookingsByType) && selectedCar == old(selectedCar)
      ensures selectedBooking == old(selectedBooking) && newCar == old(newCar) && editCarForm == old(editCarForm)
      ensures bookingFilter == old(bookingFilter) && carSearch == old(carSearch) && userSearch == old(userSearch)
    {
      showModal := false;
      modalType := NoModal;
    }

    /** `getTotalBookingsByType`. */
    function GetTotalBookingsByType(): (n: int)
      reads this
      ensures (forall k :: 0 <= k < |bookingsByType| ==> bookingsByType[k].count >= 0) ==>
        n >= 0 && forall k :: 0 <= k < |bookingsByType| ==> bookingsByType[k].count <= n
    {
      TotalCountBounds(bookingsByType);
      TotalCount(bookingsByType)
    }
  }
}
