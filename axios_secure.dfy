/** The request interceptor of the authenticated HTTP client (useAxiosSecure.jsx): before each
    request it reads the token from storage and, when there is one, sets the `Authorization`
    header on the outgoing config in place. */
module AxiosSecure {
  import opened Common
  import opened Users
  import opened Storage

  type Headers = map<string, string>

  const AuthorizationHeader: string := "Authorization"
  const BearerPrefix: string := "Bearer "

  /** The mutable request config the interceptor receives and returns. */
  class RequestConfig {
    var headers: Headers

    constructor (headers: Headers)
      ensures this.headers == headers
    {
      this.headers := headers;
    }
  }

  /** The headers a request leaves with, given the headers it was built with and the store at the
      moment it is sent. */
  function WithBearer(headers: Headers, store: Store): (h: Headers)
    ensures forall t :: StoredToken(store) == Some(t) && t != "" ==>
      AuthorizationHeader in h && h[AuthorizationHeader] == BearerPrefix + t
    ensures (StoredToken(store).None? || StoredToken(store) == Some("")) ==> h == headers
    ensures forall k :: k in h && k != AuthorizationHeader ==> k in headers && h[k] == headers[k]
    ensures forall k :: k in headers ==> k in h
  {
    match StoredToken(store)
    case Some(token) => if token != "" then headers[AuthorizationHeader := BearerPrefix + token] else headers
    case None => headers
  }

  /** The interceptor: the same config object comes back, its headers as `WithBearer` says. */
  method Intercept(config: RequestConfig, store: Store) returns (r: RequestConfig)
    modifies config
    ensures r == config
    ensures config.headers == WithBearer(old(config.headers), store)
  {
    var token := GetItem(store, AuthTokenKey);
    if token.Some? && token.value.Text? && token.value.s != "" {
      config.headers := config.headers[AuthorizationHeader := BearerPrefix + token.value.s];
    }
    r := config;
  }

  /** The server's reading of the header: the credential after the "Bearer " prefix. */
  function StripBearer(value: string): (token: Option<string>)
    ensures token.Some? ==> BearerPrefix + token.value == value
    ensures |value| >= |BearerPrefix| && value[..|BearerPrefix|] == BearerPrefix ==> token.Some?
  {
    if |value| >= |BearerPrefix| && value[..|BearerPrefix|] == BearerPrefix
    then Some(value[|BearerPrefix|..])
    else None
  }

  /** Stripping the prefix from the header the interceptor set gives back the stored token. */
  lemma BearerRoundTrip(headers: Headers, store: Store, token: string)
    requires StoredToken(store) == Some(token) && token != ""
    ensures StripBearer(WithBearer(headers, store)[AuthorizationHeader]) == Some(token)
  {
  }

  /** Running the interceptor twice leaves the same headers as running it once. */
  lemma WithBearerIdempotent(headers: Headers, store: Store)
    ensures WithBearer(WithBearer(headers, store), store) == WithBearer(headers, store)
  {
  }

  /** After `logoutUser()` the token is gone from storage, so a request sent afterwards leaves with
      exactly the headers it was built with: no `Authorization` header is added. */
  lemma NoBearerAfterLogout(headers: Headers, store: Store)
    ensures WithBearer(headers, StoreAfterLogout(store)) == headers
    ensures AuthorizationHeader !in headers ==> AuthorizationHeader !in WithBearer(headers, StoreAfterLogout(store))
  {
  }

  /** After `loginUser(u, token)` with a non-empty token, every request carries that token. */
  lemma BearerAfterLogin(headers: Headers, store: Store, u: User, token: string)
    requires token != ""
    ensures WithBearer(headers, StoreAfterLogin(store, u, token))[AuthorizationHeader] == BearerPrefix + token
  {
  }
}
