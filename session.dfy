/** The session store of the React client (`AuthProvider`): the persisted
    token and email in `localStorage`, the in-memory `token`, `user` and
    `isLoading` cells, and the page location. The pure functions over `State`
    say what each transition does; the class `SessionStore` performs the same
    transitions step by step on mutable fields. */
module Session {
  import opened Wrappers
  import opened BrowserStorage
  import opened Jwt

  /** The query parameter that carries a token back from the OAuth provider. */
  const TokenParam: string := "token"
  /** The path the address bar shows after a redirect token is adopted. */
  const DashboardPath: string := "/dashboard"

  /** `window.location`: its path and its decoded query pairs, in order. */
  datatype Location = Location(path: string, query: seq<(string, string)>)

  /** The in-memory user record. Its `email` is `None` only when a redirect
      token carries none of the identity claims and `undefined` is passed on. */
  datatype AuthUser = AuthUser(email: Option<string>)

  /** Everything the session store reads or writes. */
  datatype State = State(
    storage: Store,
    token: Option<string>,
    user: Option<AuthUser>,
    isLoading: bool,
    location: Location)

  /** The location after `history.replaceState({}, '', '/dashboard')`. */
  const DashboardLocation: Location := Location(DashboardPath, [])

  /** `new URLSearchParams(search).get(key)`: the value of the first pair
      named `key`, or `null`. */
  function QueryGet(query: seq<(string, string)>, key: string): (v: Option<string>)
    ensures v.None? <==> forall i :: 0 <= i < |query| ==> query[i].0 != key
    ensures v.Some? ==> exists i :: 0 <= i < |query| && query[i] == (key, v.value) &&
                                    forall j :: 0 <= j < i ==> query[j].0 != key
  {
    if query == [] then None
    else if query[0].0 == key then Some(query[0].1)
    else
      var v := QueryGet(query[1..], key);
      assert forall i :: 1 <= i < |query| ==> query[i] == query[1..][i - 1];
      v
  }

  /** `String(v)`, which is what `setItem` stores: `undefined` becomes the
      text "undefined". */
  function StoredText(v: Option<string>): (s: string)
    ensures v.Some? ==> s == v.value
    ensures v.None? ==> s == "undefined"
  {
    if v.Some? then v.value else "undefined"
  }

  /** The derived `isAuthenticated` of a state: `!!token && !!user`. */
  predicate Authenticated(s: State)
    ensures Authenticated(s) ==> s.token.Some? && s.user.Some?
    ensures s.token == Some("") ==> !Authenticated(s)
  {
    Truthy(s.token) && s.user.Some?
  }

  /** The state right after mounting: the `useState` initial values. */
  function InitialState(storage: Store, location: Location): (s: State)
    ensures !Authenticated(s) && s.isLoading
  {
    State(storage, None, None, true, location)
  }

  /** `login(t, e)`: persist both values, then set the token and user cells. */
  function LoginState(s: State, t: string, e: Option<string>): (r: State)
    ensures GetItem(r.storage, TokenKey) == Some(t)
    ensures GetItem(r.storage, EmailKey) == Some(StoredText(e))
    ensures forall k :: k != TokenKey && k != EmailKey ==> GetItem(r.storage, k) == GetItem(s.storage, k)
    ensures r.token == Some(t) && r.user == Some(AuthUser(e))
    ensures Authenticated(r) <==> t != ""
    ensures r.isLoading == s.isLoading && r.location == s.location
  {
    s.(storage := s.storage[TokenKey := t][EmailKey := StoredText(e)],
       token := Some(t),
       user := Some(AuthUser(e)))
  }

  /** `logout()`: drop both persisted values and clear the token and user cells. */
  function LogoutState(s: State): (r: State)
    ensures GetItem(r.storage, TokenKey) == None && GetItem(r.storage, EmailKey) == None
    ensures forall k :: k != TokenKey && k != EmailKey ==> GetItem(r.storage, k) == GetItem(s.storage, k)
    ensures r.token == None && r.user == None
    ensures !Authenticated(r)
    ensures r.isLoading == s.isLoading && r.location == s.location
  {
    s.(storage := RemoveSession(s.storage), token := None, user := None)
  }

  /** The stored pair qualifies for adoption at startup. */
  predicate CanRestore(storage: Store, decode: Decoder, now: int)
    ensures CanRestore(storage, decode, now) ==>
      TokenKey in storage && EmailKey in storage &&
      storage[TokenKey] != "" && storage[EmailKey] != "" && '.' in storage[TokenKey]
  {
    Truthy(GetItem(storage, TokenKey)) && Truthy(GetItem(storage, EmailKey)) &&
    !IsTokenExpired(decode, storage[TokenKey], now)
  }

  /** The storage-restore effect. */
  function RestoreState(s: State, decode: Decoder, now: int): (r: State)
    ensures !r.isLoading && r.location == s.location
  {
    var settled :=
      if CanRestore(s.storage, decode, now)
      then s.(token := Some(s.storage[TokenKey]), user := Some(AuthUser(Some(s.storage[EmailKey]))))
      else LogoutState(s);
    settled.(isLoading := false)
  }

  /** The email handed to `login` by the redirect effect:
      `payload.email || payload.preferred_username || payload.sub`. */
  function IdentityEmail(p: Payload): (e: Option<string>)
    ensures Truthy(e) <==> Truthy(p.email) || Truthy(p.preferredUsername) || Truthy(p.sub)
    ensures Truthy(p.email) ==> e == p.email
    ensures !Truthy(p.email) && Truthy(p.preferredUsername) ==> e == p.preferredUsername
    ensures !Truthy(p.email) && !Truthy(p.preferredUsername) ==> e == p.sub
  {
    if Truthy(p.email) then p.email
    else if Truthy(p.preferredUsername) then p.preferredUsername
    else p.sub
  }

  /** The OAuth redirect effect. */
  function RedirectState(s: State, decode: Decoder, now: int): (r: State)
    ensures r.isLoading == s.isLoading
    ensures r.location == s.location || r.location == DashboardLocation
    ensures r == s || r == LogoutState(s) || (Authenticated(r) && r.location == DashboardLocation)
  {
    var urlToken := QueryGet(s.location.query, TokenParam);
    if !Truthy(urlToken) then s
    else
      var payload := ParseJwt(decode, urlToken.value);
      if payload.None? || IsTokenExpired(decode, urlToken.value, now) then LogoutState(s)
      else LoginState(s, urlToken.value, IdentityEmail(payload.value)).(location := DashboardLocation)
  }

  /** Both effects, restoration first, as they run once after mounting. Each
      effect reads the clock for itself: `restoredAt` and `redirectAt`. */
  function MountState(s: State, decode: Decoder, restoredAt: int, redirectAt: int): (r: State)
    ensures !r.isLoading
  {
    RedirectState(RestoreState(s, decode, restoredAt), decode, redirectAt)
  }

  // ------------------------------------------------------------------
  // Properties of the transitions
  // ------------------------------------------------------------------

  /** `logout(); logout()` is `logout()`. */
  lemma LogoutIdempotent(s: State)
    ensures LogoutState(LogoutState(s)) == LogoutState(s)
  {
  }

  /** Logging out erases every trace of a login. */
  lemma LogoutUndoesLogin(s: State, t: string, e: Option<string>)
    ensures LogoutState(LoginState(s, t, e)) == LogoutState(s)
  {
  }

  /** A second login replaces the first completely. */
  lemma LoginOverridesLogin(s: State, t1: string, e1: Option<string>, t2: string, e2: Option<string>)
    ensures LoginState(LoginState(s, t1, e1), t2, e2) == LoginState(s, t2, e2)
  {
  }

  /** Restoration adopts the stored pair exactly when both values are truthy
      and the token is live; otherwise it ends as `logout()` would. Either way
      loading is over and storage is not rewritten with new values. */
  lemma RestoreCases(s: State, decode: Decoder, now: int)
    ensures var r := RestoreState(s, decode, now);
      !r.isLoading &&
      (CanRestore(s.storage, decode, now) ==>
         r == s.(token := GetItem(s.storage, TokenKey),
                 user := Some(AuthUser(GetItem(s.storage, EmailKey))),
                 isLoading := false) &&
         Authenticated(r)) &&
      (!CanRestore(s.storage, decode, now) ==> r == LogoutState(s).(isLoading := false))
  {
  }

  /** A stored token that has expired is purged at startup. */
  lemma RestoreExpiredClears(s: State, decode: Decoder, now: int)
    requires TokenKey in s.storage
    requires IsTokenExpired(decode, s.storage[TokenKey], now)
    ensures var r := RestoreState(s, decode, now);
      TokenKey !in r.storage && EmailKey !in r.storage && !Authenticated(r)
  {
  }

  /** Persistence round trip: a login with a non-empty email and a live token,
      followed by a page reload, restores exactly the same token and user
      without any network call. */
  lemma LoginSurvivesReload(s: State, t: string, e: string, decode: Decoder, now: int, reloadedAt: Location)
    requires t != "" && e != ""
    requires !IsTokenExpired(decode, t, now)
    ensures var before := LoginState(s, t, Some(e));
            var after := RestoreState(InitialState(before.storage, reloadedAt), decode, now);
            after.storage == before.storage && after.token == before.token &&
            after.user == before.user && Authenticated(after) && !after.isLoading
  {
  }

  /** A redirect without a `token` parameter (or with an empty one) changes nothing. */
  lemma RedirectWithoutToken(s: State, decode: Decoder, now: int)
    requires !Truthy(QueryGet(s.location.query, TokenParam))
    ensures RedirectState(s, decode, now) == s
  {
  }

  /** A redirect token that does not decode, or has expired, logs out and
      leaves the address bar as it was. */
  lemma RedirectRejects(s: State, decode: Decoder, now: int)
    requires Truthy(QueryGet(s.location.query, TokenParam))
    requires IsTokenExpired(decode, QueryGet(s.location.query, TokenParam).value, now)
    ensures RedirectState(s, decode, now) == LogoutState(s)
    ensures RedirectState(s, decode, now).location == s.location
  {
  }

  /** A live redirect token is adopted: the state is `login(token, email)`
      with the first truthy identity claim, and the address bar shows the
      dashboard with no `token` parameter left in it. */
  lemma RedirectAdopts(s: State, decode: Decoder, now: int)
    requires Truthy(QueryGet(s.location.query, TokenParam))
    requires !IsTokenExpired(decode, QueryGet(s.location.query, TokenParam).value, now)
    ensures var t := QueryGet(s.location.query, TokenParam).value;
            var r := RedirectState(s, decode, now);
            ParseJwt(decode, t).Some? &&
            r == LoginState(s, t, IdentityEmail(ParseJwt(decode, t).value)).(location := DashboardLocation) &&
            Authenticated(r) && r.token == Some(t) &&
            r.location.path == DashboardPath && QueryGet(r.location.query, TokenParam) == None
  {
  }

  /** A redirect token whose payload names none of the identity claims is
      still adopted, with `undefined` as the in-memory email; storage then
      holds the text "undefined", so after a reload the restored user's email
      is that text rather than `undefined`. */
  lemma ClaimlessRedirectReload(s: State, decode: Decoder, now: int, reloadedAt: Location)
    requires Truthy(QueryGet(s.location.query, TokenParam))
    requires !IsTokenExpired(decode, QueryGet(s.location.query, TokenParam).value, now)
    requires var p := ParseJwt(decode, QueryGet(s.location.query, TokenParam).value);
             p.Some? && p.value.email == None && p.value.preferredUsername == None && p.value.sub == None
    ensures var r := RedirectState(s, decode, now);
            var reloaded := RestoreState(InitialState(r.storage, reloadedAt), decode, now);
            r.user == Some(AuthUser(None)) && Authenticated(r) &&
            reloaded.user == Some(AuthUser(Some("undefined"))) && reloaded.token == r.token
  {
  }

  /** After both effects have run, loading is over; a live redirect token
      wins over whatever storage held. */
  lemma MountSettles(s: State, decode: Decoder, restoredAt: int, redirectAt: int)
    ensures var q := QueryGet(s.location.query, TokenParam);
            Truthy(q) && !IsTokenExpired(decode, q.value, redirectAt) ==>
              MountState(s, decode, restoredAt, redirectAt).token == q &&
              Authenticated(MountState(s, decode, restoredAt, redirectAt))
  {
  }

  // ------------------------------------------------------------------
  // The stateful store
  // ------------------------------------------------------------------

  /** `AuthProvider` with its state cells and the browser state it touches. */
  class SessionStore {
    var storage: Store
    var token: Option<string>
    var user: Option<AuthUser>
    var isLoading: bool
    var location: Location

    /** The whole observable state. */
    function Snapshot(): (s: State)
      reads this
    {
      State(storage, token, user, isLoading, location)
    }

    /** The derived `isAuthenticated` flag. */
    predicate IsAuthenticated()
      reads this
      ensures IsAuthenticated() ==> token.Some? && user.Some?
    {
      Authenticated(Snapshot())
    }

    /** Mounting the provider over the given browser state. */
    constructor (storage: Store, location: Location)
      ensures Snapshot() == InitialState(storage, location)
    {
      this.storage := storage;
      this.location := location;
      token := None;
      user := None;
      isLoading := true;
    }

    /** `login(newToken, email)`; `email` is `None` when JavaScript passes `undefined`. */
    method Login(newToken: string, email: Option<string>)
      modifies this
      ensures storage == old(storage)[TokenKey := newToken][EmailKey := StoredText(email)]
      ensures token == Some(newToken) && user == Some(AuthUser(email))
      ensures isLoading == old(isLoading) && location == old(location)
      ensures IsAuthenticated() <==> newToken != ""
      ensures Snapshot() == LoginState(old(Snapshot()), newToken, email)
    {
      storage := storage[TokenKey := newToken];
      storage := storage[EmailKey := StoredText(email)];
      token := Some(newToken);
      user := Some(AuthUser(email));
    }

    /** `logout()`. */
    method Logout()
      modifies this
      ensures storage == RemoveSession(old(storage))
      ensures token == None && user == None && !IsAuthenticated()
      ensures isLoading == old(isLoading) && location == old(location)
      ensures Snapshot() == LogoutState(old(Snapshot()))
    {
      storage := storage - {TokenKey};
      storage := storage - {EmailKey};
      token := None;
      user := None;
    }

    /** The storage-restore effect, run at time `now`. */
    method RestoreFromStorage(decode: Decoder, now: int)
      modifies this
      ensures !isLoading && location == old(location)
      ensures CanRestore(old(storage), decode, now) ==>
                storage == old(storage) && token == GetItem(storage, TokenKey) &&
                user == Some(AuthUser(GetItem(storage, EmailKey))) && IsAuthenticated()
      ensures !CanRestore(old(storage), decode, now) ==>
                storage == RemoveSession(old(storage)) && token == None && user == None
      ensures Snapshot() == RestoreState(old(Snapshot()), decode, now)
    {
      var storedToken := GetItem(storage, TokenKey);
      var storedEmail := GetItem(storage, EmailKey);
      if Truthy(storedToken) && Truthy(storedEmail) && !IsTokenExpired(decode, storedToken.value, now) {
        token := storedToken;
        user := Some(AuthUser(storedEmail));
      } else {
        Logout();
      }
      isLoading := false;
    }

    /** The OAuth redirect effect, run at time `now`. */
    method CaptureRedirect(decode: Decoder, now: int)
      modifies this
      ensures isLoading == old(isLoading)
      ensures Snapshot() == RedirectState(old(Snapshot()), decode, now)
    {
      var urlToken := QueryGet(location.query, TokenParam);
      if !Truthy(urlToken) {
        return;
      }
      var payload := ParseJwt(decode, urlToken.value);
      if payload.None? || IsTokenExpired(decode, urlToken.value, now) {
        Logout();
        return;
      }
      var email := IdentityEmail(payload.value);
      Login(urlToken.value, email);
      location := DashboardLocation;
    }

    /** Both effects once, restoration first. */
    method Mount(decode: Decoder, restoredAt: int, redirectAt: int)
      modifies this
      ensures !isLoading
      ensures Snapshot() == MountState(old(Snapshot()), decode, restoredAt, redirectAt)
    {
      RestoreFromStorage(decode, restoredAt);
      CaptureRedirect(decode, redirectAt);
    }
  }
}
