/** The API gateway of the client: each backend call builds a request,
    hands it to `fetch`, and turns the response's status and body into either
    a value or an `ApiError`. A response is "ok" when its status lies in
    200..299 (the ok status of the WHATWG Fetch Standard, section 2.2.3). */
module Api {
  import opened Wrappers
  import opened BrowserStorage

  /** `ApiError(status, message)`. */
  datatype ApiError = ApiError(status: int, message: string)

  /** A call either resolves with a value or rejects with an `ApiError`. */
  datatype Result<T> = Ok(value: T) | Err(error: ApiError)

  type Headers = map<string, string>

  /** What a request body says before `JSON.stringify`. */
  datatype Body =
    | NoBody
    | Credentials(email: string, password: string)
    | Registration(name: string, email: string, password: string)

  /** A request relative to the backend's base address. */
  datatype Request = Request(verb: string, path: string, headers: Headers, body: Body)

  /** A response: its status and its body, already read as text or JSON. */
  datatype Response<B> = Response(status: int, body: B)

  /** The user record the backend returns on registration. */
  datatype User = User(id: int, name: string, email: string)

  /** `response.ok`. */
  predicate IsOk(status: int)
    ensures IsOk(status) ==> status != 401 && status != 409 && status != 500
  {
    200 <= status <= 299
  }

  const ContentType: string := "Content-Type"
  const Authorization: string := "Authorization"
  const JsonHeaders: Headers := map[ContentType := "application/json"]

  /** `getAuthHeaders()`: read from storage at call time, not from the
      session store's memory. */
  function AuthHeaders(storage: Store): (h: Headers)
    ensures ContentType in h && h[ContentType] == "application/json"
    ensures Authorization in h <==> Truthy(GetItem(storage, TokenKey))
    ensures Authorization in h ==> h[Authorization] == "Bearer " + storage[TokenKey]
    ensures h.Keys <= {ContentType, Authorization}
  {
    var token := GetItem(storage, TokenKey);
    if Truthy(token) then JsonHeaders[Authorization := "Bearer " + token.value] else JsonHeaders
  }

  /** The `fetch` arguments of `authApi.login`: no bearer token, the credentials as body. */
  function LoginRequest(email: string, password: string): (req: Request)
    ensures req.verb == "POST" && req.path == "/auth/login"
    ensures req.headers == JsonHeaders
    ensures ContentType in req.headers && req.headers[ContentType] == "application/json" && Authorization !in req.headers
    ensures req.body == Credentials(email, password)
  {
    Request("POST", "/auth/login", JsonHeaders, Credentials(email, password))
  }

  /** The `fetch` arguments of `authApi.register`: no bearer token, the registration data as body. */
  function RegisterRequest(name: string, email: string, password: string): (req: Request)
    ensures req.verb == "POST" && req.path == "/auth/register"
    ensures req.headers == JsonHeaders
    ensures ContentType in req.headers && req.headers[ContentType] == "application/json" && Authorization !in req.headers
    ensures req.body == Registration(name, email, password)
  {
    Request("POST", "/auth/register", JsonHeaders, Registration(name, email, password))
  }

  /** The `fetch` arguments of `authApi.testAuth`: headers read from storage, no body. */
  function TestAuthRequest(storage: Store): (req: Request)
    ensures req.verb == "GET" && req.path == "/auth/testing" && req.body == NoBody
    ensures req.headers == AuthHeaders(storage)
    ensures ContentType in req.headers && req.headers[ContentType] == "application/json"
    ensures Authorization in req.headers <==> Truthy(GetItem(storage, TokenKey))
    ensures Authorization in req.headers ==> req.headers[Authorization] == "Bearer " + storage[TokenKey]
  {
    Request("GET", "/auth/testing", AuthHeaders(storage), NoBody)
  }

  /** The `fetch` arguments of `userApi.getHello`: the service root, no headers at all. */
  function HelloRequest(): (req: Request)
    ensures req.verb == "GET" && req.path == "/" && req.body == NoBody
    ensures req.headers.Keys == {}
  {
    Request("GET", "/", map[], NoBody)
  }

  /** `authApi.login`: the raw body is the token. */
  function Login(fetch: Request -> Response<string>, email: string, password: string): (r: Result<string>)
    ensures var resp := fetch(LoginRequest(email, password));
      (r.Ok? <==> IsOk(resp.status) && resp.body != "") &&
      (r.Ok? ==> r.value == resp.body) &&
      (resp.status == 401 ==> r == Err(ApiError(401, "Invalid email or password"))) &&
      (!IsOk(resp.status) && resp.status != 401 ==> r == Err(ApiError(resp.status, "Login failed"))) &&
      (IsOk(resp.status) && resp.body == "" ==> r == Err(ApiError(500, "Empty token received from server")))
  {
    var resp := fetch(LoginRequest(email, password));
    if !IsOk(resp.status) then
      if resp.status == 401 then Err(ApiError(401, "Invalid email or password"))
      else Err(ApiError(resp.status, "Login failed"))
    else if resp.body == "" then Err(ApiError(500, "Empty token received from server"))
    else Ok(resp.body)
  }

  /** `authApi.register`: the decoded user record on success. */
  function Register(fetch: Request -> Response<User>, name: string, email: string, password: string): (r: Result<User>)
    ensures var resp := fetch(RegisterRequest(name, email, password));
      (r.Ok? <==> IsOk(resp.status)) &&
      (r.Ok? ==> r.value == resp.body) &&
      (resp.status == 409 ==> r == Err(ApiError(409, "Email already registered"))) &&
      (!IsOk(resp.status) && resp.status != 409 ==> r == Err(ApiError(resp.status, "Registration failed")))
  {
    var resp := fetch(RegisterRequest(name, email, password));
    if !IsOk(resp.status) then
      if resp.status == 409 then Err(ApiError(409, "Email already registered"))
      else Err(ApiError(resp.status, "Registration failed"))
    else Ok(resp.body)
  }

  /** What `authApi.testAuth` does with a response: its outcome and the new
      storage. A 401 is checked before the ok test and clears the persisted
      session; nothing else touches storage. */
  function TestAuthEffect(storage: Store, resp: Response<string>): (out: (Result<string>, Store))
    ensures resp.status == 401 ==>
      out.0 == Err(ApiError(401, "Unauthorized")) &&
      GetItem(out.1, TokenKey) == None && GetItem(out.1, EmailKey) == None &&
      out.1 == RemoveSession(storage)
    ensures resp.status != 401 ==> out.1 == storage
    ensures resp.status != 401 && !IsOk(resp.status) ==> out.0 == Err(ApiError(resp.status, "Authentication test failed"))
    ensures out.0.Ok? <==> IsOk(resp.status)
    ensures out.0.Ok? ==> out.0.value == resp.body
  {
    if resp.status == 401 then (Err(ApiError(401, "Unauthorized")), RemoveSession(storage))
    else if !IsOk(resp.status) then (Err(ApiError(resp.status, "Authentication test failed")), storage)
    else (Ok(resp.body), storage)
  }

  /** `authApi.testAuth`, with `localStorage` passed in and handed back. */
  method TestAuth(storage: Store, fetch: Request -> Response<string>) returns (result: Result<string>, storage': Store)
    ensures (result, storage') == TestAuthEffect(storage, fetch(TestAuthRequest(storage)))
    ensures storage' == storage || storage' == RemoveSession(storage)
  {
    var resp := fetch(TestAuthRequest(storage));
    storage' := storage;
    if resp.status == 401 {
      storage' := storage' - {TokenKey};
      storage' := storage' - {EmailKey};
      result := Err(ApiError(401, "Unauthorized"));
      return;
    }
    if !IsOk(resp.status) {
      result := Err(ApiError(resp.status, "Authentication test failed"));
      return;
    }
    result := Ok(resp.body);
  }

  /** `userApi.getHello`: unauthenticated, the body text on success. */
  function GetHello(fetch: Request -> Response<string>): (r: Result<string>)
    ensures var resp := fetch(HelloRequest());
      (r.Ok? <==> IsOk(resp.status)) &&
      (r.Ok? ==> r.value == resp.body) &&
      (r.Err? ==> r.error == ApiError(resp.status, "Request failed"))
  {
    var resp := fetch(HelloRequest());
    if !IsOk(resp.status) then Err(ApiError(resp.status, "Request failed")) else Ok(resp.body)
  }

  /** Every rejection carries the response's own non-ok status, except the
      login's empty-token case, which reports 500 for an ok response. */
  lemma ErrorStatuses(fetch: Request -> Response<string>, userFetch: Request -> Response<User>,
                      storage: Store, name: string, email: string, password: string)
    ensures var resp := fetch(LoginRequest(email, password)); var r := Login(fetch, email, password);
      r.Err? ==> (!IsOk(r.error.status) && r.error.status == resp.status) ||
                 (IsOk(resp.status) && r.error.status == 500)
    ensures var r := Register(userFetch, name, email, password);
      r.Err? ==> !IsOk(r.error.status) && r.error.status == userFetch(RegisterRequest(name, email, password)).status
    ensures var r := TestAuthEffect(storage, fetch(TestAuthRequest(storage))).0;
      r.Err? ==> !IsOk(r.error.status) && r.error.status == fetch(TestAuthRequest(storage)).status
    ensures var r := GetHello(fetch);
      r.Err? ==> !IsOk(r.error.status) && r.error.status == fetch(HelloRequest()).status
  {
  }

  /** Only `testAuth` sends the bearer token; the other requests never read storage. */
  lemma OnlyTestAuthCarriesToken(storage: Store, name: string, email: string, password: string)
    ensures Authorization !in LoginRequest(email, password).headers
    ensures Authorization !in RegisterRequest(name, email, password).headers
    ensures Authorization !in HelloRequest().headers
    ensures Authorization in TestAuthRequest(storage).headers <==> Truthy(GetItem(storage, TokenKey))
    ensures Authorization in TestAuthRequest(storage).headers ==>
      TestAuthRequest(storage).headers[Authorization] == "Bearer " + storage[TokenKey]
  {
  }
}
