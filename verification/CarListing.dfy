/** The car catalogue page (features/cars/car-listing/car-listing.ts): a chain of
    filters over the loaded cars, an optional sort, and page bookkeeping. */
module CarListing {
  import opened Seqs
  import opened Text
  import opened Models

  datatype ViewMode = Grid | List

  /** Cars shown per page (the component's `itemsPerPage`). */
  const ItemsPerPage: nat := 9

  /** The widest window of page buttons `getPaginationPages` offers. */
  const MaxPages: nat := 5

  /** The filters the component starts with. The price window is [0, 0]. */
  function InitialFilters(): FilterCriteria {
    FilterCriteria("", "all", "all", "all", 0, 0, "all", "", "recommended")
  }

  /** The filters `resetFilters` installs; here the price window is [0, 500]. */
  function ResetFilterValues(): FilterCriteria {
    FilterCriteria("", "all", "all", "all", 0, 500, "all", "", "recommended")
  }

  /** Under the reset values only the price window [0, 500] rules cars out. */
  lemma ResetKeepsPriceWindow(cars: seq<CarModel>)
    ensures forall c :: c in MatchingCars(cars, ResetFilterValues()) <==> c in cars && 0 <= c.pricePerDay <= 500
  {
    forall c
      ensures Matches(c, ResetFilterValues()) <==> 0 <= c.pricePerDay <= 500
    {
    }
  }

  // ---------------------------------------------------------------------------
  // The stages of applyFilters. Each stage keeps a car when the filter is off or
  // the car passes it.

  /** A select filter is on when it is non-empty and not `'all'`. */
  predicate Selects(option: string) {
    option != "" && option != "all"
  }

  /** The free-text search: the lower-cased query occurs in the make, model or type. */
  predicate MatchesSearch(car: CarModel, query: string) {
    Includes(Lower(car.make), query) || Includes(Lower(car.model), query)
    || Includes(Lower(CarTypeName(car.carType)), query)
  }

  predicate KeepSearch(car: CarModel, f: FilterCriteria) {
    f.searchQuery == "" || MatchesSearch(car, Lower(f.searchQuery))
  }

  predicate KeepType(car: CarModel, f: FilterCriteria) {
    !Selects(f.carType) || CarTypeName(car.carType) == f.carType
  }

  predicate KeepTransmission(car: CarModel, f: FilterCriteria) {
    !Selects(f.transmission) || TransmissionName(car.transmission) == f.transmission
  }

  predicate KeepFuel(car: CarModel, f: FilterCriteria) {
    !Selects(f.fuelType) || FuelTypeName(car.fuelType) == f.fuelType
  }

  /** The price window is always applied, whatever its bounds. */
  predicate KeepPrice(car: CarModel, f: FilterCriteria) {
    f.minPrice <= car.pricePerDay <= f.maxPrice
  }

  /** Seats compare as text: `car.seats.toString() === filters.seats`. */
  predicate KeepSeats(car: CarModel, f: FilterCriteria) {
    !Selects(f.seats) || IntToString(car.seats) == f.seats
  }

  predicate KeepLocation(car: CarModel, f: FilterCriteria) {
    f.location == "" || car.location == f.location
  }

  /** A car passes every filter of `f`. */
  predicate Matches(car: CarModel, f: FilterCriteria) {
    KeepSearch(car, f) && KeepType(car, f) && KeepTransmission(car, f) && KeepFuel(car, f)
    && KeepPrice(car, f) && KeepSeats(car, f) && KeepLocation(car, f)
  }

  /** One filter of the chain, with the value it compares against. */
  datatype Criterion =
    | SearchText(query: string)
    | TypeIs(typeName: string)
    | TransmissionIs(transmissionName: string)
    | FuelIs(fuelName: string)
    | PriceWithin(low: int, high: int)
    | SeatsAre(seatsText: string)
    | LocationIs(location: string)

  /** The arrow function each `filtered.filter(...)` call passes. */
  predicate Holds(k: Criterion, car: CarModel) {
    match k
    case SearchText(q) => MatchesSearch(car, q)
    case TypeIs(t) => CarTypeName(car.carType) == t
    case TransmissionIs(t) => TransmissionName(car.transmission) == t
    case FuelIs(t) => FuelTypeName(car.fuelType) == t
    case PriceWithin(lo, hi) => lo <= car.pricePerDay <= hi
    case SeatsAre(t) => IntToString(car.seats) == t
    case LocationIs(l) => car.location == l
  }

  /** The arrow function passed to `filter` for the criterion `k`. */
  function Test(k: Criterion): CarModel -> bool {
    car => Holds(k, car)
  }

  /** `cars.filter(car => Holds(k, car))`: keeps exactly the cars that satisfy the
      criterion, each at most as often as it occurs. */
  function Keep(cars: seq<CarModel>, k: Criterion): (r: seq<CarModel>)
    ensures |r| <= |cars|
    ensures forall c :: c in r <==> c in cars && Holds(k, c)
    ensures multiset(r) <= multiset(cars)
  {
    Filter(cars, Test(k))
  }

  /** One `if (...) filtered = filtered.filter(...)` step of applyFilters: the filter is
      applied when `on`, and the list passes through unchanged otherwise. */
  datatype Step = Step(on: bool, criterion: Criterion)

  predicate Passes(car: CarModel, st: Step) {
    !st.on || Holds(st.criterion, car)
  }

  function Stage(cars: seq<CarModel>, st: Step): seq<CarModel> {
    if st.on then Keep(cars, st.criterion) else cars
  }

  /** The seven steps of applyFilters, in the source's order. The price step is always on. */
  function Steps(f: FilterCriteria): seq<Step> {
    [ Step(f.searchQuery != "", SearchText(Lower(f.searchQuery))),
      Step(Selects(f.carType), TypeIs(f.carType)),
      Step(Selects(f.transmission), TransmissionIs(f.transmission)),
      Step(Selects(f.fuelType), FuelIs(f.fuelType)),
      Step(true, PriceWithin(f.minPrice, f.maxPrice)),
      Step(Selects(f.seats), SeatsAre(f.seats)),
      Step(f.location != "", LocationIs(f.location)) ]
  }

  /** Runs the steps one after another, each on the previous step's output. */
  function RunSteps(cars: seq<CarModel>, steps: seq<Step>): seq<CarModel>
    decreases |steps|
  {
    if steps == [] then cars else RunSteps(Stage(cars, steps[0]), steps[1..])
  }

  /** The filter part of applyFilters. */
  function FilterChain(cars: seq<CarModel>, f: FilterCriteria): seq<CarModel> {
    RunSteps(cars, Steps(f))
  }

  lemma KeepAppend(a: seq<CarModel>, b: seq<CarModel>, k: Criterion)
    ensures Keep(a + b, k) == Keep(a, k) + Keep(b, k)
  {
    FilterAppend(a, b, Test(k));
  }

  lemma StageAppend(a: seq<CarModel>, b: seq<CarModel>, st: Step)
    ensures Stage(a + b, st) == Stage(a, st) + Stage(b, st)
  {
    if st.on {
      KeepAppend(a, b, st.criterion);
    }
  }

  /** Every step filters the two halves of a concatenation independently. */
  lemma {:induction false} RunStepsAppend(a: seq<CarModel>, b: seq<CarModel>, steps: seq<Step>)
    ensures RunSteps(a + b, steps) == RunSteps(a, steps) + RunSteps(b, steps)
    decreases |steps|
  {
    if steps != [] {
      StageAppend(a, b, steps[0]);
      RunStepsAppend(Stage(a, steps[0]), Stage(b, steps[0]), steps[1..]);
    }
  }

  lemma {:induction false} RunStepsEmpty(steps: seq<Step>)
    ensures RunSteps([], steps) == []
    decreases |steps|
  {
    if steps != [] {
      RunStepsEmpty(steps[1..]);
    }
  }

  /** `[c]` when `b` holds, `[]` otherwise. */
  function OneIf(c: CarModel, b: bool): seq<CarModel> {
    if b then [c] else []
  }

  /** A single car survives the steps exactly when it passes each of them. */
  lemma {:induction false} RunStepsOneIf(c: CarModel, b: bool, steps: seq<Step>)
    ensures RunSteps(OneIf(c, b), steps)
         == OneIf(c, b && forall i :: 0 <= i < |steps| ==> Passes(c, steps[i]))
    decreases |steps|
  {
    if steps != [] {
      assert [c][1..] == [];
      assert Stage(OneIf(c, b), steps[0]) == OneIf(c, b && Passes(c, steps[0]));
      RunStepsOneIf(c, b && Passes(c, steps[0]), steps[1..]);
      assert (forall i :: 0 <= i < |steps| ==> Passes(c, steps[i]))
         == (Passes(c, steps[0]) && forall i :: 0 <= i < |steps[1..]| ==> Passes(c, steps[1..][i]));
    }
  }

  /** Passing all seven steps is passing every filter of `f`. */
  lemma MatchesIsPassingSteps(c: CarModel, f: FilterCriteria)
    ensures Matches(c, f) <==> forall i :: 0 <= i < |Steps(f)| ==> Passes(c, Steps(f)[i])
  {
    var st := Steps(f);
    assert Passes(c, st[0]) == KeepSearch(c, f);
    assert Passes(c, st[1]) == KeepType(c, f);
    assert Passes(c, st[2]) == KeepTransmission(c, f);
    assert Passes(c, st[3]) == KeepFuel(c, f);
    assert Passes(c, st[4]) == KeepPrice(c, f);
    assert Passes(c, st[5]) == KeepSeats(c, f);
    assert Passes(c, st[6]) == KeepLocation(c, f);
  }

  /** Reference definition: the cars that pass every filter at once, in catalogue order. */
  function MatchingCars(cars: seq<CarModel>, f: FilterCriteria): (r: seq<CarModel>)
    ensures forall c :: c in r <==> c in cars && Matches(c, f)
    ensures multiset(r) <= multiset(cars)
  {
    if cars == [] then []
    else
      assert cars == [cars[0]] + cars[1..];
      (if Matches(cars[0], f) then [cars[0]] else []) + MatchingCars(cars[1..], f)
  }

  /** Running the steps one after another keeps exactly the cars that pass them all. */
  lemma {:induction false} FilterChainIsMatching(cars: seq<CarModel>, f: FilterCriteria)
    ensures FilterChain(cars, f) == MatchingCars(cars, f)
  {
    if cars == [] {
      RunStepsEmpty(Steps(f));
    } else {
      var c, rest := cars[0], cars[1..];
      assert cars == [c] + rest;
      RunStepsAppend([c], rest, Steps(f));
      assert [c] == OneIf(c, true);
      RunStepsOneIf(c, true, Steps(f));
      MatchesIsPassingSteps(c, f);
      FilterChainIsMatching(rest, f);
      calc {
        FilterChain(cars, f);
        RunSteps([c], Steps(f)) + RunSteps(rest, Steps(f));
        OneIf(c, Matches(c, f)) + MatchingCars(rest, f);
        MatchingCars(cars, f);
      }
    }
  }

  // ---------------------------------------------------------------------------
  // sortCars: `Array.prototype.sort` with a numeric comparator, modelled as a
  // stable insertion sort on the sort key.

  /** The sort options that reorder the list. */
  predicate IsSortOption(sortBy: string) {
    sortBy == "priceLowToHigh" || sortBy == "priceHighToLow" || sortBy == "ratingHighToLow" || sortBy == "newest"
  }

  /** The key the comparator orders by, negated for the descending orders, so that every
      sort is ascending in `Rank`. */
  function Rank(c: CarModel, sortBy: string): real {
    if sortBy == "priceLowToHigh" then c.pricePerDay as real
    else if sortBy == "priceHighToLow" then -(c.pricePerDay as real)
    else if sortBy == "ratingHighToLow" then -c.rating
    else -(c.year as real)
  }

  ghost predicate SortedByRank(s: seq<CarModel>, sortBy: string) {
    forall i, j :: 0 <= i < j < |s| ==> Rank(s[i], sortBy) <= Rank(s[j], sortBy)
  }

  /** A car ranked no later than the head of a sorted list can go in front of it. */
  lemma SortedCons(y: CarModel, t: seq<CarModel>, sortBy: string)
    requires SortedByRank(t, sortBy)
    requires t == [] || Rank(y, sortBy) <= Rank(t[0], sortBy)
    ensures SortedByRank([y] + t, sortBy)
  {
    var r := [y] + t;
    forall i, j | 0 <= i < j < |r|
      ensures Rank(r[i], sortBy) <= Rank(r[j], sortBy)
    {
      if i == 0 && j > 1 {
        assert r[1] == t[0] && r[j] == t[j - 1];
      }
    }
  }

  /** Inserts `x` in front of the first element whose rank is not smaller. */
  function Insert(x: CarModel, s: seq<CarModel>, sortBy: string): (r: seq<CarModel>)
    requires SortedByRank(s, sortBy)
    ensures SortedByRank(r, sortBy)
    ensures multiset(r) == multiset(s) + multiset{x}
    ensures |r| == |s| + 1
    ensures r[0] == x || (s != [] && r[0] == s[0])
  {
    if s == [] then [x]
    else if Rank(x, sortBy) <= Rank(s[0], sortBy) then
      SortedCons(x, s, sortBy);
      [x] + s
    else
      assert s == [s[0]] + s[1..];
      var rest := Insert(x, s[1..], sortBy);
      SortedCons(s[0], rest, sortBy);
      [s[0]] + rest
  }

  function InsertionSort(s: seq<CarModel>, sortBy: string): (r: seq<CarModel>)
    ensures SortedByRank(r, sortBy)
    ensures multiset(r) == multiset(s)
  {
    if s == [] then []
    else
      assert s == [s[0]] + s[1..];
      Insert(s[0], InsertionSort(s[1..], sortBy), sortBy)
  }

  /** `sortCars(cars, sortBy)`. */
  function SortCars(cars: seq<CarModel>, sortBy: string): (r: seq<CarModel>)
    ensures multiset(r) == multiset(cars)
    ensures sortBy == "priceLowToHigh" ==>
      forall i, j :: 0 <= i < j < |r| ==> r[i].pricePerDay <= r[j].pricePerDay
    ensures sortBy == "priceHighToLow" ==>
      forall i, j :: 0 <= i < j < |r| ==> r[i].pricePerDay >= r[j].pricePerDay
    ensures sortBy == "ratingHighToLow" ==>
      forall i, j :: 0 <= i < j < |r| ==> r[i].rating >= r[j].rating
    ensures sortBy == "newest" ==>
      forall i, j :: 0 <= i < j < |r| ==> r[i].year >= r[j].year
    ensures !IsSortOption(sortBy) ==> r == cars
  {
    if IsSortOption(sortBy) then InsertionSort(cars, sortBy) else cars
  }

  // ---------------------------------------------------------------------------
  // What the filter settings let through.

  /** A car is listed exactly when it is loaded and passes every active filter; the
      listing keeps catalogue order until it is sorted. */
  lemma FilterChainMembers(cars: seq<CarModel>, f: FilterCriteria, c: CarModel)
    ensures c in FilterChain(cars, f) <==> c in cars && Matches(c, f)
  {
    FilterChainIsMatching(cars, f);
  }

  /** The price window of the initial filters is [0, 0]: until the user moves it, only cars
      priced at 0 per day are listed. */
  lemma InitialFiltersShowOnlyFreeCars(cars: seq<CarModel>)
    ensures forall c :: c in FilterChain(cars, InitialFilters()) <==> c in cars && Matches(c, InitialFilters())
    ensures forall c :: c in FilterChain(cars, InitialFilters()) ==> c.pricePerDay == 0
    ensures (forall c :: c in cars ==> c.pricePerDay > 0) ==> FilterChain(cars, InitialFilters()) == []
  {
    FilterChainIsMatching(cars, InitialFilters());
    var r := FilterChain(cars, InitialFilters());
    if forall c :: c in cars ==> c.pricePerDay > 0 {
      if r != [] {
        assert r[0] in r;
      }
    }
  }

  /** `car.seats.toString()` never contains a `'+'`, so the `'8+'` seats option lists nothing. */
  lemma EightPlusSeatsMatchNothing(cars: seq<CarModel>, f: FilterCriteria)
    requires f.seats == "8+"
    ensures FilterChain(cars, f) == []
  {
    FilterChainIsMatching(cars, f);
    var r := FilterChain(cars, f);
    if r != [] {
      var c := r[0];
      assert c in r;
      SeatsTextIsNotEightPlus(c.seats);
    }
  }

  lemma SeatsTextIsNotEightPlus(n: int)
    ensures IntToString(n) != "8+"
  {
    var t := IntToString(n);
    if |t| == 2 {
      assert IsDigit(t[1]);
    }
  }

  /** What applyFilters lists: the filter chain, then the sort. */
  function Listing(cars: seq<CarModel>, f: FilterCriteria): seq<CarModel> {
    SortCars(FilterChain(cars, f), f.sortBy)
  }

  /** The listing holds exactly the cars that pass every filter, each as often as in the
      catalogue, and keeps catalogue order under `'recommended'` or an unknown sort. */
  lemma ListingIsMatchingCars(cars: seq<CarModel>, f: FilterCriteria)
    ensures multiset(Listing(cars, f)) == multiset(MatchingCars(cars, f))
    ensures !IsSortOption(f.sortBy) ==> Listing(cars, f) == MatchingCars(cars, f)
    ensures forall c :: c in Listing(cars, f) <==> c in cars && Matches(c, f)
  {
    FilterChainIsMatching(cars, f);
    var r := Listing(cars, f);
    forall c
      ensures c in r <==> c in cars && Matches(c, f)
    {
      assert c in r <==> c in multiset(r);
    }
  }

  // ---------------------------------------------------------------------------
  // Pagination.

  /** Number of pages for `n` listed cars: `Math.ceil(n / itemsPerPage)`. */
  function PageCount(n: nat): nat {
    CeilDiv(n, ItemsPerPage)
  }

  /** The cars on page `p`: `list.slice((p - 1) * 9, (p - 1) * 9 + 9)`. */
  function Page(list: seq<CarModel>, p: int): (r: seq<CarModel>)
    ensures |r| <= ItemsPerPage
    ensures p >= 1 ==> forall i :: 0 <= i < |r| ==>
      (p - 1) * ItemsPerPage + i < |list| && r[i] == list[(p - 1) * ItemsPerPage + i]
    ensures 1 <= p <= PageCount(|list|) ==> r != []
    ensures p >= 1 && p * ItemsPerPage <= |list| ==> |r| == ItemsPerPage
  {
    var start := (p - 1) * ItemsPerPage;
    Slice(list, start, start + ItemsPerPage)
  }

  /** Pages 1 to `n`, read one after another. */
  function PagesUpTo(list: seq<CarModel>, n: nat): seq<CarModel> {
    if n == 0 then [] else PagesUpTo(list, n - 1) + Page(list, n)
  }

  lemma {:induction false} PagesUpToPrefix(list: seq<CarModel>, n: nat)
    requires n == 0 || (n - 1) * ItemsPerPage <= |list|
    ensures PagesUpTo(list, n) == list[..if n * ItemsPerPage <= |list| then n * ItemsPerPage else |list|]
  {
    if n > 0 {
      PagesUpToPrefix(list, n - 1);
      var start := (n - 1) * ItemsPerPage;
      var end := if n * ItemsPerPage <= |list| then n * ItemsPerPage else |list|;
      assert Page(list, n) == list[start..end];
      assert list[..start] + list[start..end] == list[..end];
    }
  }

  /** Reading pages 1 to `totalPages` in order shows every listed car once, in list order. */
  lemma PagesCoverList(list: seq<CarModel>)
    ensures PagesUpTo(list, PageCount(|list|)) == list
  {
    var n := PageCount(|list|);
    PagesUpToPrefix(list, n);
    assert list[..|list|] == list;
  }

  // ---------------------------------------------------------------------------
  // The component.

  class CarListingComponent {
    var cars: seq<CarModel>
    var filteredCars: seq<CarModel>
    var loading: bool
    var viewMode: ViewMode
    var showFilters: bool
    var filters: FilterCriteria
    var currentPage: int
    var totalPages: int

    /** The page count matches the listed cars, and the current page is 1 or one of them. */
    ghost predicate Valid()
      reads this
    {
      totalPages == PageCount(|filteredCars|)
      && 1 <= currentPage
      && (currentPage == 1 || currentPage <= totalPages)
    }

    constructor()
      ensures cars == [] && filteredCars == [] && !loading && viewMode == Grid && !showFilters
      ensures filters == InitialFilters() && currentPage == 1 && totalPages == 0
      ensures Valid()
    {
      cars := [];
      filteredCars := [];
      loading := false;
      viewMode := Grid;
      showFilters := false;
      filters := InitialFilters();
      currentPage := 1;
      totalPages := 0;
    }

    /** `applyFilters` (and `onFilterChange`, which only calls it): filter, sort, recount
        the pages and go back to page 1. */
    method ApplyFilters()
      modifies this
      ensures filteredCars == Listing(cars, filters)
      ensures totalPages == PageCount(|filteredCars|) && currentPage == 1
      ensures Valid()
      ensures cars == old(cars) && filters == old(filters) && loading == old(loading)
      ensures viewMode == old(viewMode) && showFilters == old(showFilters)
    {
      var filtered := FilterChain(cars, filters);
      filtered := SortCars(filtered, filters.sortBy);
      filteredCars := filtered;
      totalPages := PageCount(|filtered|);
      currentPage := 1;
    }

    /** The route's query parameters: a non-empty `location` or `type` replaces that filter,
        then loading starts. */
    method OnQueryParams(location: string, carType: string)
      modifies this
      ensures filters.location == (if location != "" then location else old(filters.location))
      ensures filters.carType == (if carType != "" then carType else old(filters.carType))
      ensures filters.(location := old(filters.location), carType := old(filters.carType)) == old(filters)
      ensures loading
      ensures cars == old(cars) && filteredCars == old(filteredCars) && viewMode == old(viewMode)
      ensures showFilters == old(showFilters) && currentPage == old(currentPage) && totalPages == old(totalPages)
    {
      if location != "" {
        filters := filters.(location := location);
      }
      if carType != "" {
        filters := filters.(carType := carType);
      }
      LoadCars();
    }

    /** `loadCars` up to its timer: the page shows the loading state. */
    method LoadCars()
      modifies this
      ensures loading
      ensures cars == old(cars) && filteredCars == old(filteredCars) && filters == old(filters)
      ensures viewMode == old(viewMode) && showFilters == old(showFilters)
      ensures currentPage == old(currentPage) && totalPages == old(totalPages)
    {
      loading := true;
    }

    /** The timer callback of `loadCars`: the fetched catalogue replaces the cars, the
        filters run again and loading ends. */
    method OnCarsLoaded(fetched: seq<CarModel>)
      modifies this
      ensures cars == fetched && !loading
      ensures filteredCars == Listing(fetched, filters)
      ensures currentPage == 1 && Valid()
      ensures filters == old(filters) && viewMode == old(viewMode) && showFilters == old(showFilters)
    {
      cars := fetched;
      ApplyFilters();
      loading := false;
    }

    /** The debounced search subscription: the query becomes the search filter and the
        filters run again. */
    method OnSearch(query: string)
      modifies this
      ensures filters == old(filters).(searchQuery := query)
      ensures filteredCars == Listing(cars, filters)
      ensures currentPage == 1 && Valid()
      ensures cars == old(cars) && loading == old(loading)
      ensures viewMode == old(viewMode) && showFilters == old(showFilters)
    {
      filters := filters.(searchQuery := query);
      ApplyFilters();
    }

    /** `resetFilters`: installs the reset values (price window [0, 500]) and filters again. */
    method ResetFilters()
      modifies this
      ensures filters == ResetFilterValues()
      ensures filteredCars == Listing(cars, ResetFilterValues())
      ensures filteredCars == MatchingCars(cars, ResetFilterValues())
      ensures forall c :: c in filteredCars <==> c in cars && 0 <= c.pricePerDay <= 500
      ensures currentPage == 1 && Valid()
      ensures cars == old(cars) && loading == old(loading)
      ensures viewMode == old(viewMode) && showFilters == old(showFilters)
    {
      filters := ResetFilterValues();
      ApplyFilters();
      ListingIsMatchingCars(cars, filters);
      ResetKeepsPriceWindow(cars);
    }

    method ToggleViewMode()
      modifies this
      ensures viewMode != old(viewMode)
      ensures cars == old(cars) && filteredCars == old(filteredCars) && filters == old(filters)
      ensures loading == old(loading) && showFilters == old(showFilters)
      ensures currentPage == old(currentPage) && totalPages == old(totalPages)
    {
      viewMode := if viewMode == Grid then List else Grid;
    }

    method ToggleFilters()
      modifies this
      ensures showFilters == !old(showFilters)
      ensures cars == old(cars) && filteredCars == old(filteredCars) && filters == old(filters)
      ensures loading == old(loading) && viewMode == old(viewMode)
      ensures currentPage == old(currentPage) && totalPages == old(totalPages)
    {
      showFilters := !showFilters;
    }

    /** `goToPage`: moves only to an existing page; any other request is ignored. */
    method GoToPage(page: int)
      requires Valid()
      modifies this
      ensures Valid()
      ensures currentPage == (if 1 <= page <= totalPages then page else old(currentPage))
      ensures cars == old(cars) && filteredCars == old(filteredCars) && filters == old(filters)
      ensures loading == old(loading) && viewMode == old(viewMode) && showFilters == old(showFilters)
      ensures totalPages == old(totalPages)
    {
      if 1 <= page <= totalPages {
        currentPage := page;
      }
    }

    /** The `paginatedCars` getter: the cars of the current page. */
    function PaginatedCars(): (r: seq<CarModel>)
      reads this
      ensures |r| <= ItemsPerPage
      ensures currentPage >= 1 ==> forall i :: 0 <= i < |r| ==>
        (currentPage - 1) * ItemsPerPage + i < |filteredCars|
        && r[i] == filteredCars[(currentPage - 1) * ItemsPerPage + i]
      ensures Valid() && filteredCars != [] ==> r != []
    {
      Page(filteredCars, currentPage)
    }

    /** `getPaginationPages`: a window of at most five consecutive page numbers around the
        current page, shifted left when it would run past the last page. */
    method GetPaginationPages() returns (pages: seq<int>)
      ensures |pages| <= MaxPages
      ensures forall i :: 0 <= i < |pages| ==> 1 <= pages[i] <= totalPages
      ensures forall i :: 0 < i < |pages| ==> pages[i] == pages[i - 1] + 1
      ensures totalPages <= 0 ==> pages == []
      ensures 1 <= currentPage <= totalPages ==>
        currentPage in pages && |pages| == (if totalPages < MaxPages then totalPages else MaxPages)
    {
      pages := [];
      var startPage := if currentPage - MaxPages / 2 > 1 then currentPage - MaxPages / 2 else 1;
      var endPage := if totalPages < startPage + MaxPages - 1 then totalPages else startPage + MaxPages - 1;
      if endPage - startPage < MaxPages - 1 {
        startPage := if endPage - MaxPages + 1 > 1 then endPage - MaxPages + 1 else 1;
      }
      var i := startPage;
      while i <= endPage
        invariant startPage <= i <= (if endPage + 1 > startPage then endPage + 1 else startPage)
        invariant |pages| == i - startPage
        invariant forall k :: 0 <= k < |pages| ==> pages[k] == startPage + k
      {
        pages := pages + [i];
        i := i + 1;
      }
      if 1 <= currentPage <= totalPages {
        assert pages[currentPage - startPage] == currentPage;
      }
    }
  }
}
