/** The API client (services/car-booking.ts): its own session bookkeeping under the
    storage key `token`, the query parameters of the car searches, and the booking price
    estimate. The HTTP requests are outside the model; the handlers that run on their
    answers are methods that receive the answer. */
module CarBooking {
  import opened Wrappers
  import opened Text
  import opened Dates
  import opened Models
  import opened Browser
  import Auth

  const SessionTokenKey := "token"

  /** The `data` of a successful `login` or `register`. */
  datatype SessionData = SessionData(token: string, user: UserModel)

  // ---------------------------------------------------------------------------
  // Query parameters.

  /** A property value of a filter object: `undefined`, `null`, a string or a number. */
  datatype ParamValue = Undefined | Null | Str(text: string) | Num(n: int)

  /** `value !== undefined && value !== null && value !== ''`: note that 0 is kept. */
  predicate Kept(v: ParamValue) {
    match v
    case Str(s) => s != ""
    case Num(_) => true
    case _ => false
  }

  /** `value.toString()`. */
  function ParamText(v: ParamValue): string
    requires Kept(v)
  {
    match v
    case Str(s) => s
    case Num(n) => IntToString(n)
  }

  /** The properties of a filter object in `Object.keys` order. */
  type Entries = seq<(string, ParamValue)>

  predicate DistinctKeys(entries: Entries) {
    forall i, j :: 0 <= i < j < |entries| ==> entries[i].0 != entries[j].0
  }

  /** The parameters after `params.set(key, value.toString())` for every kept property, in
      order; a later property with the same key wins. */
  function QueryParams(entries: Entries): (r: map<string, string>)
    ensures forall k :: k in r ==> exists i :: 0 <= i < |entries| && entries[i].0 == k && Kept(entries[i].1)
  {
    if entries == [] then map[]
    else
      var prefix := entries[..|entries| - 1];
      var m := QueryParams(prefix);
      assert forall i :: 0 <= i < |prefix| ==> prefix[i] == entries[i];
      var (key, value) := entries[|entries| - 1];
      if Kept(value) then m[key := ParamText(value)] else m
  }

  /** For an object (whose keys are distinct) the property at `i` is sent exactly when it
      is kept, and then as its text. */
  lemma {:induction false} QueryParamsSendsKeptValue(entries: Entries, i: nat)
    requires DistinctKeys(entries) && i < |entries|
    ensures entries[i].0 in QueryParams(entries) <==> Kept(entries[i].1)
    ensures Kept(entries[i].1) ==> QueryParams(entries)[entries[i].0] == ParamText(entries[i].1)
  {
    var n := |entries| - 1;
    if i < n {
      var prefix := entries[..n];
      assert prefix[i] == entries[i];
      assert entries[i].0 != entries[n].0;
      assert DistinctKeys(prefix) by {
        forall a, b | 0 <= a < b < |prefix| ensures prefix[a].0 != prefix[b].0 {
          assert prefix[a] == entries[a] && prefix[b] == entries[b];
        }
      }
      QueryParamsSendsKeptValue(prefix, i);
    }
  }

  /** The same for every property at once. */
  lemma QueryParamsSendsKeptValues(entries: Entries)
    requires DistinctKeys(entries)
    ensures forall i :: 0 <= i < |entries| ==>
      (entries[i].0 in QueryParams(entries) <==> Kept(entries[i].1))
      && (Kept(entries[i].1) ==> QueryParams(entries)[entries[i].0] == ParamText(entries[i].1))
  {
    forall i | 0 <= i < |entries|
      ensures (entries[i].0 in QueryParams(entries) <==> Kept(entries[i].1))
           && (Kept(entries[i].1) ==> QueryParams(entries)[entries[i].0] == ParamText(entries[i].1))
    {
      QueryParamsSendsKeptValue(entries, i);
    }
  }

  // ---------------------------------------------------------------------------
  // Prices.

  /** The optional flat add-on charges of a booking (`Booking.addOns`). */
  datatype AddOnCharges = AddOnCharges(insurance: Option<int>, gps: Option<int>,
                                       childSeat: Option<int>, extraDriver: Option<int>)

  /** `Object.values(addOns).reduce((sum, charge) => sum + (charge || 0), 0)`. */
  function ChargesTotal(addOns: Option<AddOnCharges>): (t: int)
    ensures addOns.None? ==> t == 0
  {
    match addOns
    case None => 0
    case Some(a) => a.insurance.GetOr(0) + a.gps.GetOr(0) + a.childSeat.GetOr(0) + a.extraDriver.GetOr(0)
  }

  /** `calculateBookingPrice`: the started days between the two instants times the daily
      price, plus the flat add-on charges. */
  function CalculateBookingPrice(pricePerDay: int, startMs: int, endMs: int, addOns: Option<AddOnCharges>): (total: int)
    ensures startMs == endMs ==> total == ChargesTotal(addOns)
    ensures pricePerDay >= 0 && ChargesTotal(addOns) >= 0 ==> total >= 0
    ensures total == DaysBetween(startMs, endMs) * pricePerDay + ChargesTotal(addOns)
  {
    DaysBetween(startMs, endMs) * pricePerDay + ChargesTotal(addOns)
  }

  /** The estimate ignores which instant comes first. */
  lemma CalculateBookingPriceSymmetric(pricePerDay: int, startMs: int, endMs: int, addOns: Option<AddOnCharges>)
    ensures CalculateBookingPrice(pricePerDay, startMs, endMs, addOns)
         == CalculateBookingPrice(pricePerDay, endMs, startMs, addOns)
  {
    DaysBetweenSymmetric(startMs, endMs);
  }

  /** A rental of exactly `n` days without add-ons costs `n` daily prices. */
  lemma CalculateBookingPriceWholeDays(pricePerDay: int, startMs: int, n: nat)
    ensures CalculateBookingPrice(pricePerDay, startMs, startMs + n * MsPerDay, None) == n * pricePerDay
  {
    DaysBetweenWholeDays(startMs, n);
  }

  /** The session service's logout leaves this client's `token` entry alone: the two
      services keep separate sessions. */
  lemma AuthLogoutKeepsBookingToken(items: map<string, string>)
    ensures SessionTokenKey in Auth.Cleared(items) <==> SessionTokenKey in items
    ensures SessionTokenKey in items ==> Auth.Cleared(items)[SessionTokenKey] == items[SessionTokenKey]
  {
    assert SessionTokenKey !in Auth.AuthKeys;
  }

  // ---------------------------------------------------------------------------
  // The service.

  class CarBookingService {
    const storage: LocalStorage
    var currentUser: Option<UserModel>

    /** A new client knows no user yet; `CheckAuth` runs next. */
    constructor(storage: LocalStorage)
      ensures this.storage == storage && currentUser == None
    {
      this.storage := storage;
      currentUser := None;
    }

    /** `isLoggedIn`: a non-empty `token` entry. */
    function IsLoggedIn(): (r: bool)
      reads storage
      ensures r <==> storage.GetItem(SessionTokenKey).Some? && storage.GetItem(SessionTokenKey).value != ""
    {
      SessionTokenKey in storage.items && storage.items[SessionTokenKey] != ""
    }

    /** `checkAuth`: whether the current user is requested, which happens exactly when a
        non-empty token is stored. */
    method CheckAuth() returns (fetchUser: bool)
      ensures fetchUser <==> IsLoggedIn()
    {
      var token := storage.GetItem(SessionTokenKey);
      fetchUser := token.Some? && token.value != "";
    }

    /** `checkAuth`'s success handler. */
    method OnCurrentUserLoaded(response: ApiResponse<UserModel>)
      modifies this
      ensures currentUser == if response.success && response.data.Some? then response.data else old(currentUser)
    {
      if response.success && response.data.Some? {
        currentUser := response.data;
      }
    }

    /** `checkAuth`'s error handler. */
    method OnCurrentUserFailed()
      modifies this, storage
      ensures storage.items == old(storage.items) - {SessionTokenKey}
      ensures currentUser == None && !IsLoggedIn()
    {
      Logout();
    }

    /** The `tap` of `login` and `register`: a successful answer stores its token and
        becomes the current user; any other answer changes nothing. */
    method OnAuthResponse(response: ApiResponse<SessionData>)
      modifies this, storage
      ensures response.success && response.data.Some? ==>
        storage.items == old(storage.items)[SessionTokenKey := response.data.value.token]
        && currentUser == Some(response.data.value.user)
        && (IsLoggedIn() <==> response.data.value.token != "")
      ensures !(response.success && response.data.Some?) ==>
        storage.items == old(storage.items) && currentUser == old(currentUser)
    {
      if response.success && response.data.Some? {
        storage.SetItem(SessionTokenKey, response.data.value.token);
        currentUser := Some(response.data.value.user);
      }
    }

    /** `logout`. */
    method Logout()
      modifies this, storage
      ensures storage.items == old(storage.items) - {SessionTokenKey}
      ensures currentUser == None && !IsLoggedIn()
    {
      storage.RemoveItem(SessionTokenKey);
      currentUser := None;
    }

    /** The loop shared by `getCars` and `searchCars`: every kept property is set on the
        parameters in turn. */
    method BuildParams(entries: Entries) returns (params: map<string, string>)
      ensures params == QueryParams(entries)
    {
      params := map[];
      var i := 0;
      while i < |entries|
        invariant 0 <= i <= |entries|
        invariant params == QueryParams(entries[..i])
      {
        assert entries[..i + 1][..i] == entries[..i];
        var (key, value) := entries[i];
        if Kept(value) {
          params := params[key := ParamText(value)];
        }
        i := i + 1;
      }
      assert entries[..|entries|] == entries;
    }

    /** `getCars`' parameters: none without a filter object. */
    method GetCarsParams(filters: Option<Entries>) returns (params: map<string, string>)
      ensures filters.None? ==> params == map[]
      ensures filters.Some? ==> params == QueryParams(filters.value)
    {
      if filters.None? {
        return map[];
      }
      params := BuildParams(filters.value);
    }

    /** `searchCars`' parameters. */
    method SearchCarsParams(searchParams: Entries) returns (params: map<string, string>)
      ensures params == QueryParams(searchParams)
    {
      params := BuildParams(searchParams);
    }
  }
}
