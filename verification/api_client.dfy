/** The browser API client: the bearer-token request interceptor, the 401 response
    interceptor, and the auth and produce calls that touch `localStorage`. Storage is a
    class over a string-to-string map; the HTTP responses the calls await are
    arguments, and the user object is carried as the JSON text it is stored as. */
module ApiClient {
  import opened Wrappers

  const AuthTokenKey := "auth_token"
  const UserKey := "user"
  const AuthorizationHeader := "Authorization"
  const BearerPrefix := "Bearer "
  const LoginPage := "/auth/login"
  const ProduceListPage := "/dashboard/produce"

  /** `localStorage`: `getItem` answers null for an absent key. */
  class LocalStorage {
    var items: map<string, string>

    constructor (items: map<string, string>)
      ensures this.items == items
    {
      this.items := items;
    }

    function GetItem(key: string): (v: Option<string>)
      reads this
      ensures v.Some? <==> key in items
      ensures v.Some? ==> v.value == items[key]
    {
      if key in items then Some(items[key]) else None
    }

    method SetItem(key: string, value: string)
      modifies this
      ensures items == old(items)[key := value]
    {
      items := items[key := value];
    }

    method RemoveItem(key: string)
      modifies this
      ensures items == old(items) - {key}
    {
      items := items - {key};
    }
  }

  /** A stored string counts only when it is present and non-empty. */
  predicate Truthy(v: Option<string>) {
    v.Some? && v.value != ""
  }

  // ---------------------------------------------------------------------------
  // Request interceptor

  /** The headers the request goes out with, given the stored token. */
  function AuthorizedHeaders(headers: map<string, string>, token: Option<string>): (h: map<string, string>)
    ensures Truthy(token) ==> AuthorizationHeader in h && h[AuthorizationHeader] == BearerPrefix + token.value
    ensures !Truthy(token) ==> h == headers
    ensures h.Keys == headers.Keys + (if Truthy(token) then {AuthorizationHeader} else {})
    ensures forall k :: k in headers && k != AuthorizationHeader ==> h[k] == headers[k]
  {
    if Truthy(token) then headers[AuthorizationHeader := BearerPrefix + token.value] else headers
  }

  /** The server reads the token back out of the header it was sent in: stripping the
      scheme gives exactly the stored token. */
  lemma BearerTokenRecoverable(headers: map<string, string>, token: Option<string>)
    requires Truthy(token)
    ensures var value := AuthorizedHeaders(headers, token)[AuthorizationHeader];
      |value| > |BearerPrefix| && value[..|BearerPrefix|] == BearerPrefix && value[|BearerPrefix|..] == token.value
  {
    var value := AuthorizedHeaders(headers, token)[AuthorizationHeader];
    assert value == BearerPrefix + token.value;
    assert value[..|BearerPrefix|] == BearerPrefix;
    assert value[|BearerPrefix|..] == token.value;
  }

  /** The request config whose headers the interceptor mutates. */
  class RequestConfig {
    var headers: map<string, string>

    constructor (headers: map<string, string>)
      ensures this.headers == headers
    {
      this.headers := headers;
    }
  }

  /** `interceptors.request`: adds the bearer header iff a truthy token is stored;
      storage is only read. */
  method InterceptRequest(storage: LocalStorage, config: RequestConfig) returns (sent: RequestConfig)
    modifies config
    ensures sent == config
    ensures config.headers == AuthorizedHeaders(old(config.headers), storage.GetItem(AuthTokenKey))
  {
    var token := storage.GetItem(AuthTokenKey);
    if token.Some? && token.value != "" {
      config.headers := config.headers[AuthorizationHeader := BearerPrefix + token.value];
    }
    return config;
  }

  // ---------------------------------------------------------------------------
  // Response interceptor

  /** The storage after a failed response: a 401 signs the user out. */
  function AfterErrorResponse(items: map<string, string>, status: Option<int>): (r: map<string, string>)
    ensures status == Some(401) ==> AuthTokenKey !in r && UserKey !in r
    ensures forall k :: k in r ==> k in items && r[k] == items[k]
    ensures forall k :: k in items && k != AuthTokenKey && k != UserKey ==> k in r
    ensures status != Some(401) ==> r == items
  {
    if status == Some(401) then items - {AuthTokenKey} - {UserKey} else items
  }

  /** `interceptors.response`, error path: a 401 clears the token and the user and
      sends the browser to the login page; any error is then passed on as a rejection.
      `status` is None when the error carries no response. */
  method InterceptErrorResponse(storage: LocalStorage, status: Option<int>) returns (redirect: Option<string>)
    modifies storage
    ensures storage.items == AfterErrorResponse(old(storage.items), status)
    ensures redirect == (if status == Some(401) then Some(LoginPage) else None)
  {
    redirect := None;
    if status == Some(401) {
      storage.RemoveItem(AuthTokenKey);
      storage.RemoveItem(UserKey);
      redirect := Some(LoginPage);
    }
  }

  // ---------------------------------------------------------------------------
  // authApi

  /** The body of a successful `/auth/verify-otp`; `userJson` is the user object
      as `JSON.stringify` writes it. */
  datatype AuthResponse = AuthResponse(accessToken: string, tokenType: string, userJson: string)

  /** The storage after `verifyOTP`. */
  function AfterVerify(items: map<string, string>, response: AuthResponse): (r: map<string, string>)
    ensures response.accessToken != "" ==>
      r.Keys == items.Keys + {AuthTokenKey, UserKey} &&
      r[AuthTokenKey] == response.accessToken && r[UserKey] == response.userJson
    ensures response.accessToken == "" ==> r == items
    ensures forall k :: k in items && k != AuthTokenKey && k != UserKey ==> r[k] == items[k]
  {
    if response.accessToken != "" then items[AuthTokenKey := response.accessToken][UserKey := response.userJson]
    else items
  }

  /** `authApi.verifyOTP`: stores the token and the user only when a token came back,
      and hands the response body to the caller either way. */
  method VerifyOtp(storage: LocalStorage, response: AuthResponse) returns (data: AuthResponse)
    modifies storage
    ensures data == response
    ensures storage.items == AfterVerify(old(storage.items), response)
  {
    if response.accessToken != "" {
      storage.SetItem(AuthTokenKey, response.accessToken);
      storage.SetItem(UserKey, response.userJson);
    }
    return response;
  }

  /** The storage after `logout`. */
  function AfterLogout(items: map<string, string>): (r: map<string, string>)
    ensures AuthTokenKey !in r && UserKey !in r
    ensures forall k :: k in items && k != AuthTokenKey && k != UserKey <==> k in r
    ensures forall k :: k in r ==> r[k] == items[k]
  {
    items - {AuthTokenKey, UserKey}
  }

  /** Logging out twice is logging out once. */
  lemma LogoutIdempotent(items: map<string, string>)
    ensures AfterLogout(AfterLogout(items)) == AfterLogout(items)
  {
  }

  /** `authApi.logout` */
  method Logout(storage: LocalStorage)
    modifies storage
    ensures storage.items == AfterLogout(old(storage.items))
  {
    storage.RemoveItem(AuthTokenKey);
    storage.RemoveItem(UserKey);
  }

  /** `authApi.getCurrentUser`: the stored user text, to be parsed; null when the key
      is absent or holds the empty string. */
  function CurrentUser(items: map<string, string>): (u: Option<string>)
    ensures u.Some? <==> UserKey in items && items[UserKey] != ""
    ensures u.Some? ==> u.value == items[UserKey]
  {
    if UserKey in items && items[UserKey] != "" then Some(items[UserKey]) else None
  }

  /** Signing in and out as the pages see it: after a verification that returned a
      token the stored user is the one returned, after a logout or a 401 there is
      none, and without a token the previous user is left as it was. */
  lemma SessionLifecycle(items: map<string, string>, response: AuthResponse)
    ensures response.accessToken != "" && response.userJson != "" ==>
      CurrentUser(AfterVerify(items, response)) == Some(response.userJson)
    ensures response.accessToken == "" ==> CurrentUser(AfterVerify(items, response)) == CurrentUser(items)
    ensures CurrentUser(AfterLogout(items)) == None
    ensures CurrentUser(AfterErrorResponse(items, Some(401))) == None
    ensures AfterErrorResponse(items, Some(401)) == AfterLogout(items)
  {
    assert AfterErrorResponse(items, Some(401)) == items - {AuthTokenKey} - {UserKey};
    assert items - {AuthTokenKey} - {UserKey} == items - {AuthTokenKey, UserKey};
  }

  // ---------------------------------------------------------------------------
  // produceApi

  /** The wrapper `produceApi.list` puts around the array the server returns. */
  datatype ListResult<T> = ListResult(items: seq<T>, total: nat)

  function ListProduce<T>(response: seq<T>): (r: ListResult<T>)
    ensures r.items == response && r.total == |r.items|
  {
    ListResult(response, |response|)
  }

  /** How the produce form's mutation ends. */
  datatype MutationOutcome = Succeeded(navigateTo: string) | Errored

  /** As written, `produceApi.create` starts the POST but does not return its promise,
      so the mutation resolves with `undefined` at once: the form always navigates
      to the listing page and its error message can never show. */
  function CreateProduceAsWritten(postSucceeds: bool): (r: MutationOutcome)
    ensures r == Succeeded(ProduceListPage)
  {
    Succeeded(ProduceListPage)
  }

  /** With the POST's promise returned, the mutation follows the request. */
  function CreateProduce(postSucceeds: bool): (r: MutationOutcome)
    ensures r.Succeeded? <==> postSucceeds
    ensures r.Succeeded? ==> r.navigateTo == ProduceListPage
  {
    if postSucceeds then Succeeded(ProduceListPage) else Errored
  }

  /** A rejected POST is reported as a success as written, and as an error once the
      promise is returned; the two agree when the POST succeeds. */
  lemma CreateProduceIgnoresFailure()
    ensures CreateProduceAsWritten(false) == Succeeded(ProduceListPage)
    ensures CreateProduce(false) == Errored
    ensures CreateProduceAsWritten(true) == CreateProduce(true)
  {
  }
}
