/** The session service (services/auth.service.ts): it keeps the access token, the
    refresh token and the signed-in user in `localStorage` under three keys, mirrors the
    user and an "authenticated" flag in memory, decides whether the token has expired,
    answers role questions and turns HTTP failures into messages. The HTTP calls
    themselves are outside the model: each `tap`/`catchError` handler is a method that
    receives the response. */
module Auth {
  import opened Wrappers
  import opened Text
  import opened Models
  import opened Browser

  const TokenKey := "auth_token"
  const RefreshTokenKey := "refresh_token"
  const UserKey := "current_user"

  /** The sign-in page, where `logout` sends the user. */
  const LoginRoute := "auth/login"

  /** The three keys the service owns. */
  const AuthKeys: set<string> := {TokenKey, RefreshTokenKey, UserKey}

  const NoRefreshTokenMessage := "No refresh token available"
  const UnknownErrorMessage := "An unknown error occurred!"
  const BadRequestMessage := "Bad Request. Please check your input."
  const UnauthorizedMessage := "Unauthorized. Please log in again."
  const ForbiddenMessage := "Forbidden. " + "You do not have permission to access this resource."
  const NotFoundMessage := "Not Found. " + "The requested resource could not be found."

  /** `JSON.stringify` and `JSON.parse` for a stored user; `parse` answers `None` for text
      that does not denote a user. */
  datatype UserCodec = UserCodec(stringify: UserModel -> string, parse: string -> Option<UserModel>)

  /** What JSON guarantees: a written user reads back as itself, and its text is never empty. */
  ghost predicate RoundTrips(codec: UserCodec) {
    forall u :: codec.parse(codec.stringify(u)) == Some(u) && codec.stringify(u) != ""
  }

  // ---------------------------------------------------------------------------
  // The store as values.

  /** `getStoredUser`: an empty or missing entry means no user. */
  function StoredUser(items: map<string, string>, codec: UserCodec): (u: Option<UserModel>)
    ensures UserKey !in items ==> u == None
    ensures UserKey in items && items[UserKey] == "" ==> u == None
    ensures UserKey in items && items[UserKey] != "" ==> u == codec.parse(items[UserKey])
  {
    if UserKey in items && items[UserKey] != "" then codec.parse(items[UserKey]) else None
  }

  /** The store after `handleAuthSuccess`. */
  function AfterAuthSuccess(items: map<string, string>, response: AuthResponse, codec: UserCodec): (r: map<string, string>)
    ensures TokenKey in r && r[TokenKey] == response.token
    ensures UserKey in r && r[UserKey] == codec.stringify(response.user)
    ensures response.refreshToken != "" ==> RefreshTokenKey in r && r[RefreshTokenKey] == response.refreshToken
    ensures response.refreshToken == "" ==>
      (RefreshTokenKey in r <==> RefreshTokenKey in items)
      && (RefreshTokenKey in items ==> r[RefreshTokenKey] == items[RefreshTokenKey])
    ensures forall k :: k !in AuthKeys ==> (k in r <==> k in items) && (k in r ==> r[k] == items[k])
  {
    var withToken := items[TokenKey := response.token];
    var withRefresh := if response.refreshToken != "" then withToken[RefreshTokenKey := response.refreshToken] else withToken;
    withRefresh[UserKey := codec.stringify(response.user)]
  }

  /** The store after `clearAuthData`: the three keys are gone and nothing else moves. */
  function Cleared(items: map<string, string>): (r: map<string, string>)
    ensures forall k :: k in AuthKeys ==> k !in r
    ensures forall k :: k !in AuthKeys ==> (k in r <==> k in items) && (k in r ==> r[k] == items[k])
  {
    items - AuthKeys
  }

  /** Clearing twice is clearing once, so logging out twice is logging out once. */
  lemma ClearedIdempotent(items: map<string, string>)
    ensures Cleared(Cleared(items)) == Cleared(items)
  {
    var once := Cleared(items);
    assert Cleared(once).Keys == once.Keys;
  }

  /** A page reload after a successful sign-in finds the same user in the store. */
  lemma ReloadRestoresUser(items: map<string, string>, response: AuthResponse, codec: UserCodec)
    requires RoundTrips(codec)
    ensures StoredUser(AfterAuthSuccess(items, response, codec), codec) == Some(response.user)
  {
    var stored := codec.stringify(response.user);
    assert codec.parse(stored) == Some(response.user) && stored != "";
  }

  /** A page reload after signing out finds no user. */
  lemma ReloadAfterClearFindsNoUser(items: map<string, string>, codec: UserCodec)
    ensures StoredUser(Cleared(items), codec) == None
  {
    assert UserKey in AuthKeys;
  }

  // ---------------------------------------------------------------------------
  // Token expiry.

  /** `isTokenExpired` for a stored token (or none) at the instant `nowMs`: no token, an
      empty token or one that does not decode counts as expired; otherwise the token
      expires once `exp` is before the current whole second. */
  function TokenExpired(token: Option<string>, decode: string -> Option<TokenPayload>, nowMs: int): (r: bool)
    ensures token.None? || token.value == "" ==> r
    ensures token.Some? && token.value != "" && decode(token.value).None? ==> r
  {
    if token.None? || token.value == "" then true
    else match decode(token.value)
      case None => true
      case Some(payload) => payload.exp < nowMs / 1000
  }

  /** A decoded token expires exactly when the clock reaches the millisecond after its
      `exp` second ends, so a token is still good throughout the second it names. */
  lemma TokenExpiresAfterItsSecond(token: string, decode: string -> Option<TokenPayload>, nowMs: int)
    requires token != "" && decode(token).Some?
    ensures TokenExpired(Some(token), decode, nowMs) <==> nowMs >= (decode(token).value.exp + 1) * 1000
  {
    var exp := decode(token).value.exp;
    var q := nowMs / 1000;
    assert q * 1000 <= nowMs < (q + 1) * 1000;
    if exp < q {
      assert (exp + 1) * 1000 <= q * 1000;
    } else {
      assert nowMs < (exp + 1) * 1000;
    }
  }

  /** Once expired, a token stays expired as time goes on. */
  lemma TokenExpiryMonotone(token: Option<string>, decode: string -> Option<TokenPayload>, earlier: int, later: int)
    requires earlier <= later
    requires TokenExpired(token, decode, earlier)
    ensures TokenExpired(token, decode, later)
  {
    if token.Some? && token.value != "" && decode(token.value).Some? {
      assert earlier / 1000 <= later / 1000;
    }
  }

  // ---------------------------------------------------------------------------
  // Error messages.

  /** The part of `HttpErrorResponse` `handleError` looks at; `clientError` holds the
      message when `error.error` is an `ErrorEvent`. */
  datatype HttpErrorResponse = HttpErrorResponse(clientError: Option<string>, status: int, message: string)

  /** `handleError`'s message: a client-side error keeps its own text, 400, 401, 403 and
      404 get fixed sentences, and any other status (500 included) is reported by code. */
  function HandleError(e: HttpErrorResponse): (msg: string)
    ensures e.clientError.Some? ==> msg == "Error: " + e.clientError.value
    ensures e.clientError.None? && e.status == 400 ==> msg == BadRequestMessage
    ensures e.clientError.None? && e.status == 401 ==> msg == UnauthorizedMessage
    ensures e.clientError.None? && e.status == 403 ==> msg == ForbiddenMessage
    ensures e.clientError.None? && e.status == 404 ==> msg == NotFoundMessage
    ensures e.clientError.None? && e.status !in {400, 401, 403, 404} ==>
      msg == "Error Code: " + IntToString(e.status) + "\nMessage: " + e.message
  {
    match e.clientError
    case Some(text) => "Error: " + text
    case None =>
      if e.status == 400 then BadRequestMessage
      else if e.status == 401 then UnauthorizedMessage
      else if e.status == 403 then ForbiddenMessage
      else if e.status == 404 then NotFoundMessage
      else "Error Code: " + IntToString(e.status) + "\nMessage: " + e.message
  }

  /** Where the first line break of `s` is (`|s|` when there is none). */
  function FirstBreak(s: string): (i: nat)
    ensures i <= |s|
    ensures forall k :: 0 <= k < i ==> s[k] != '\n'
  {
    if s == [] || s[0] == '\n' then 0 else 1 + FirstBreak(s[1..])
  }

  lemma {:induction false} FirstBreakAfter(s: string, t: string)
    requires forall k :: 0 <= k < |s| ==> s[k] != '\n'
    requires t != [] && t[0] == '\n'
    ensures FirstBreak(s + t) == |s|
  {
    if s != [] {
      assert (s + t)[1..] == s[1..] + t;
      FirstBreakAfter(s[1..], t);
    }
  }

  /** Two texts that start alike and continue with line-free fields up to a line break
      have the same field. */
  lemma FieldBeforeBreak(p: string, sa: string, ta: string, sb: string, tb: string)
    requires forall k :: 0 <= k < |sa| ==> sa[k] != '\n'
    requires forall k :: 0 <= k < |sb| ==> sb[k] != '\n'
    requires ta != [] && ta[0] == '\n' && tb != [] && tb[0] == '\n'
    requires p + (sa + ta) == p + (sb + tb)
    ensures sa == sb
  {
    var ra, rb := sa + ta, sb + tb;
    assert ra == (p + ra)[|p|..] == (p + rb)[|p|..] == rb;
    FirstBreakAfter(sa, ta);
    FirstBreakAfter(sb, tb);
    assert sa == ra[..|sa|] && sb == rb[..|sb|];
  }

  /** The code in a generic message ends at its line break, so it can be read back. */
  lemma GenericMessageStatus(a: int, b: int, ma: string, mb: string)
    requires "Error Code: " + IntToString(a) + "\nMessage: " + ma == "Error Code: " + IntToString(b) + "\nMessage: " + mb
    ensures a == b
  {
    var sa, sb := IntToString(a), IntToString(b);
    var ta, tb := "\nMessage: " + ma, "\nMessage: " + mb;
    assert "Error Code: " + sa + "\nMessage: " + ma == "Error Code: " + (sa + ta);
    assert "Error Code: " + sb + "\nMessage: " + mb == "Error Code: " + (sb + tb);
    FieldBeforeBreak("Error Code: ", sa, ta, sb, tb);
    IntToStringInjective(a, b);
  }

  /** The first letter of a server error's message tells the four fixed sentences and
      the generic message apart. */
  lemma HandleErrorFirstLetter(e: HttpErrorResponse)
    requires e.clientError.None?
    ensures |HandleError(e)| > 0
    ensures HandleError(e)[0] ==
      if e.status == 400 then 'B' else if e.status == 401 then 'U'
      else if e.status == 403 then 'F' else if e.status == 404 then 'N' else 'E'
  {
  }

  /** Two server errors with the same message had the same status: no fixed sentence
      looks like a generic message, and a generic message names its code. */
  lemma HandleErrorIdentifiesStatus(a: HttpErrorResponse, b: HttpErrorResponse)
    requires a.clientError.None? && b.clientError.None?
    requires HandleError(a) == HandleError(b)
    ensures a.status == b.status
  {
    HandleErrorFirstLetter(a);
    HandleErrorFirstLetter(b);
    if a.status !in {400, 401, 403, 404} && b.status !in {400, 401, 403, 404} {
      GenericMessageStatus(a.status, b.status, a.message, b.message);
    }
  }

  // ---------------------------------------------------------------------------
  // The service.

  class AuthService {
    const storage: LocalStorage
    const codec: UserCodec
    var currentUser: Option<UserModel>
    var isAuthenticated: bool

    /** The in-memory user starts as the stored one, and the service counts as signed in
        exactly when there is one. */
    constructor(storage: LocalStorage, codec: UserCodec)
      ensures this.storage == storage && this.codec == codec
      ensures currentUser == StoredUser(storage.items, codec)
      ensures isAuthenticated <==> currentUser.Some?
    {
      this.storage := storage;
      this.codec := codec;
      var stored := StoredUser(storage.items, codec);
      currentUser := stored;
      isAuthenticated := stored.Some?;
    }

    /** `getToken`. */
    function GetToken(): (t: Option<string>)
      reads storage
      ensures t.Some? <==> TokenKey in storage.items
      ensures t.Some? ==> t.value == storage.items[TokenKey]
    {
      storage.GetItem(TokenKey)
    }

    /** `handleAuthSuccess`, run on the answer to `login` or `register`: the token and the
        user are stored, the refresh token only when the answer carries one. */
    method HandleAuthSuccess(response: AuthResponse)
      modifies this, storage
      ensures storage.items == AfterAuthSuccess(old(storage.items), response, codec)
      ensures currentUser == Some(response.user) && isAuthenticated
    {
      storage.SetItem(TokenKey, response.token);
      if response.refreshToken != "" {
        storage.SetItem(RefreshTokenKey, response.refreshToken);
      }
      storage.SetItem(UserKey, codec.stringify(response.user));
      currentUser := Some(response.user);
      isAuthenticated := true;
    }

    /** `clearAuthData`. */
    method ClearAuthData()
      modifies storage
      ensures storage.items == Cleared(old(storage.items))
    {
      storage.RemoveItem(TokenKey);
      storage.RemoveItem(RefreshTokenKey);
      storage.RemoveItem(UserKey);
    }

    /** `logout`: no auth keys, no user, not authenticated, then the route it navigates to. */
    method Logout() returns (route: string)
      modifies this, storage
      ensures storage.items == Cleared(old(storage.items))
      ensures currentUser == None && !isAuthenticated
      ensures route == LoginRoute
    {
      ClearAuthData();
      currentUser := None;
      isAuthenticated := false;
      route := LoginRoute;
    }

    /** `refreshToken` before its request: the stored refresh token to send, or the
        failure raised when there is none. */
    function RefreshToken(): (r: Result<string, string>)
      reads storage
      ensures r.Success? <==> RefreshTokenKey in storage.items && storage.items[RefreshTokenKey] != ""
      ensures r.Success? ==> r.value == storage.items[RefreshTokenKey]
      ensures r.Failure? ==> r.error == NoRefreshTokenMessage
    {
      match storage.GetItem(RefreshTokenKey)
      case Some(t) => if t != "" then Success(t) else Failure(NoRefreshTokenMessage)
      case None => Failure(NoRefreshTokenMessage)
    }

    /** `refreshToken`'s success handler: new tokens, the same user. */
    method OnRefreshSucceeded(response: AuthResponse)
      modifies storage
      ensures storage.items ==
        if response.refreshToken != "" then old(storage.items)[TokenKey := response.token][RefreshTokenKey := response.refreshToken]
        else old(storage.items)[TokenKey := response.token]
      ensures UserKey in storage.items <==> UserKey in old(storage.items)
      ensures UserKey in storage.items ==> storage.items[UserKey] == old(storage.items)[UserKey]
    {
      storage.SetItem(TokenKey, response.token);
      if response.refreshToken != "" {
        storage.SetItem(RefreshTokenKey, response.refreshToken);
      }
    }

    /** `refreshToken`'s error handler: a failed refresh signs the user out and sends them
        to the sign-in page. */
    method OnRefreshFailed() returns (route: string)
      modifies this, storage
      ensures storage.items == Cleared(old(storage.items))
      ensures currentUser == None && !isAuthenticated
      ensures route == LoginRoute
    {
      route := Logout();
    }

    /** `updateProfile`'s success handler: the stored and in-memory user become the
        answer; the authenticated flag is left as it was. */
    method OnProfileUpdated(user: UserModel)
      modifies this, storage
      ensures storage.items == old(storage.items)[UserKey := codec.stringify(user)]
      ensures currentUser == Some(user) && isAuthenticated == old(isAuthenticated)
    {
      storage.SetItem(UserKey, codec.stringify(user));
      currentUser := Some(user);
    }

    /** `isTokenExpired` with the decoder and the clock as parameters. */
    function IsTokenExpired(decode: string -> Option<TokenPayload>, nowMs: int): (r: bool)
      reads storage
      ensures TokenKey !in storage.items ==> r
      ensures r == TokenExpired(GetToken(), decode, nowMs)
    {
      TokenExpired(GetToken(), decode, nowMs)
    }

    /** `hasRole`: a signed-in user whose role is spelled `role`. */
    function HasRole(role: string): (r: bool)
      reads this
      ensures r <==> currentUser.Some? && RoleName(currentUser.value.role) == role
    {
      match currentUser
      case None => false
      case Some(u) => RoleName(u.role) == role
    }

    /** `isAdmin`: exactly the administrators. */
    function IsAdmin(): (r: bool)
      reads this
      ensures r == HasRole("admin")
      ensures r <==> currentUser.Some? && currentUser.value.role == AdminRole
    {
      assert RoleName(UserRole) != "admin";
      HasRole("admin")
    }
  }
}
