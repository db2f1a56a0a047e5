/** The catalogue client (services/car.service.ts): `getCars` turns the listing filters
    into query parameters, leaving out every filter that is empty, zero or `'all'`. The
    request itself is outside the model. */
module CarService {
  import opened Wrappers
  import opened Text
  import opened Models

  /** A select filter is sent when it is set and not `'all'`. */
  predicate Chosen(s: string) {
    s != "" && s != "all"
  }

  const ParamKeys: set<string> :=
    {"search", "type", "transmission", "fuelType", "minPrice", "maxPrice", "seats", "location", "sortBy"}

  /** The `params.set` line of `getCars` for one key: the value sent under `key`, if any. */
  function Param(f: FilterCriteria, key: string): Option<string> {
    if key == "search" then (if f.searchQuery != "" then Some(f.searchQuery) else None)
    else if key == "type" then (if Chosen(f.carType) then Some(f.carType) else None)
    else if key == "transmission" then (if Chosen(f.transmission) then Some(f.transmission) else None)
    else if key == "fuelType" then (if Chosen(f.fuelType) then Some(f.fuelType) else None)
    else if key == "minPrice" then (if f.minPrice != 0 then Some(IntToString(f.minPrice)) else None)
    else if key == "maxPrice" then (if f.maxPrice != 0 then Some(IntToString(f.maxPrice)) else None)
    else if key == "seats" then (if Chosen(f.seats) then Some(f.seats) else None)
    else if key == "location" then (if f.location != "" then Some(f.location) else None)
    else if key == "sortBy" then (if f.sortBy != "" then Some(f.sortBy) else None)
    else None
  }

  /** Every key's `set` line applied, in any order since the keys differ. */
  function ParamMap(f: FilterCriteria): map<string, string> {
    map key | key in ParamKeys && Param(f, key).Some? :: Param(f, key).value
  }

  /** The free-text keys are sent when their filter is non-empty, as the filter's text. */
  lemma ParamMapTexts(f: FilterCriteria)
    ensures var params := ParamMap(f);
      ("search" in params <==> f.searchQuery != "") && ("search" in params ==> params["search"] == f.searchQuery)
      && ("location" in params <==> f.location != "") && ("location" in params ==> params["location"] == f.location)
      && ("sortBy" in params <==> f.sortBy != "") && ("sortBy" in params ==> params["sortBy"] == f.sortBy)
  {
    assert Param(f, "search") == (if f.searchQuery != "" then Some(f.searchQuery) else None);
    assert Param(f, "location") == (if f.location != "" then Some(f.location) else None);
    assert Param(f, "sortBy") == (if f.sortBy != "" then Some(f.sortBy) else None);
  }

  /** The select keys are sent when their filter is chosen, as the filter's value. */
  lemma ParamMapSelects(f: FilterCriteria)
    ensures var params := ParamMap(f);
      ("type" in params <==> Chosen(f.carType)) && ("type" in params ==> params["type"] == f.carType)
      && ("transmission" in params <==> Chosen(f.transmission))
      && ("transmission" in params ==> params["transmission"] == f.transmission)
      && ("fuelType" in params <==> Chosen(f.fuelType)) && ("fuelType" in params ==> params["fuelType"] == f.fuelType)
      && ("seats" in params <==> Chosen(f.seats)) && ("seats" in params ==> params["seats"] == f.seats)
  {
    assert Param(f, "type") == (if Chosen(f.carType) then Some(f.carType) else None);
    assert Param(f, "transmission") == (if Chosen(f.transmission) then Some(f.transmission) else None);
    assert Param(f, "fuelType") == (if Chosen(f.fuelType) then Some(f.fuelType) else None);
    assert Param(f, "seats") == (if Chosen(f.seats) then Some(f.seats) else None);
  }

  /** The price keys are sent when non-zero, printed. */
  lemma ParamMapPrices(f: FilterCriteria)
    ensures var params := ParamMap(f);
      ("minPrice" in params <==> f.minPrice != 0) && ("minPrice" in params ==> params["minPrice"] == IntToString(f.minPrice))
      && ("maxPrice" in params <==> f.maxPrice != 0) && ("maxPrice" in params ==> params["maxPrice"] == IntToString(f.maxPrice))
  {
    assert Param(f, "minPrice") == (if f.minPrice != 0 then Some(IntToString(f.minPrice)) else None);
    assert Param(f, "maxPrice") == (if f.maxPrice != 0 then Some(IntToString(f.maxPrice)) else None);
  }

  /** The query parameters `getCars` sends for `filters` (none without a filter object). */
  function GetCarsParams(filters: Option<FilterCriteria>): (params: map<string, string>)
    ensures filters.None? ==> params == map[]
    ensures filters.Some? ==>
      var f := filters.value;
      ("search" in params <==> f.searchQuery != "") && ("search" in params ==> params["search"] == f.searchQuery)
      && ("type" in params <==> Chosen(f.carType)) && ("type" in params ==> params["type"] == f.carType)
      && ("transmission" in params <==> Chosen(f.transmission))
      && ("transmission" in params ==> params["transmission"] == f.transmission)
      && ("fuelType" in params <==> Chosen(f.fuelType)) && ("fuelType" in params ==> params["fuelType"] == f.fuelType)
      && ("minPrice" in params <==> f.minPrice != 0) && ("minPrice" in params ==> params["minPrice"] == IntToString(f.minPrice))
      && ("maxPrice" in params <==> f.maxPrice != 0) && ("maxPrice" in params ==> params["maxPrice"] == IntToString(f.maxPrice))
      && ("seats" in params <==> Chosen(f.seats)) && ("seats" in params ==> params["seats"] == f.seats)
      && ("location" in params <==> f.location != "") && ("location" in params ==> params["location"] == f.location)
      && ("sortBy" in params <==> f.sortBy != "") && ("sortBy" in params ==> params["sortBy"] == f.sortBy)
    ensures params.Keys <= ParamKeys
  {
    match filters
    case None => map[]
    case Some(f) =>
      ParamMapTexts(f);
      ParamMapSelects(f);
      ParamMapPrices(f);
      ParamMap(f)
  }

  // ---------------------------------------------------------------------------
  // Reading the parameters back.

  /** The integer a `String(n)` text denotes (0 for anything else). */
  function ParseInt(s: string): int {
    if |s| >= 2 && s[0] == '-' && AllDigits(s[1..]) then -(DigitsValue(s[1..]) as int)
    else if |s| >= 1 && AllDigits(s) then DigitsValue(s)
    else 0
  }

  lemma ParseIntOfIntToString(n: int)
    ensures ParseInt(IntToString(n)) == n
  {
    var s := IntToString(n);
    NatToStringRoundTrip(if n < 0 then -n else n);
    if n < 0 {
      assert s[1..] == NatToString(-n);
    }
  }

  /** What a reader of the query string rebuilds: absent selects are `'all'`, absent
      prices 0, absent texts empty. */
  function ReadFilters(params: map<string, string>): FilterCriteria {
    FilterCriteria(
      if "search" in params then params["search"] else "",
      if "type" in params then params["type"] else "all",
      if "transmission" in params then params["transmission"] else "all",
      if "fuelType" in params then params["fuelType"] else "all",
      if "minPrice" in params then ParseInt(params["minPrice"]) else 0,
      if "maxPrice" in params then ParseInt(params["maxPrice"]) else 0,
      if "seats" in params then params["seats"] else "all",
      if "location" in params then params["location"] else "",
      if "sortBy" in params then params["sortBy"] else "")
  }

  /** An empty select means the same as `'all'`. */
  function AllIfEmpty(s: string): (r: string)
    ensures Chosen(s) ==> r == s
    ensures !Chosen(s) ==> r == "all"
  {
    if s == "" then "all" else s
  }

  /** The parameters lose nothing but the difference between an empty select and
      `'all'`: reading them back gives the filters with empty selects set to `'all'`. */
  lemma GetCarsParamsRoundTrip(f: FilterCriteria)
    ensures ReadFilters(GetCarsParams(Some(f))) ==
      f.(carType := AllIfEmpty(f.carType), transmission := AllIfEmpty(f.transmission),
         fuelType := AllIfEmpty(f.fuelType), seats := AllIfEmpty(f.seats))
  {
    ParseIntOfIntToString(f.minPrice);
    ParseIntOfIntToString(f.maxPrice);
  }
}
