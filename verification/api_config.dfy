/**
 * The axios client configuration: the default `Authorization` header kept in
 * sync with the access token stored in localStorage, the token installed at
 * load time, and the response interceptor that forgets the token and sends
 * the browser to /login on a 401.
 */
module ApiConfig {
  import opened Wrappers
  import opened Browser

  const BaseUrl := "http://localhost:8000"
  const TimeoutMs := 10000
  const TokenKey := "access_token"
  const AuthHeader := "Authorization"
  const LoginLocation := "/login"

  /** The headers every request starts with. */
  function InitialHeaders(): (r: map<string, string>)
    ensures AuthHeader !in r && "Content-Type" in r && r["Content-Type"] == "application/json"
  {
    map["Content-Type" := "application/json"]
  }

  /** JavaScript truthiness of a token: null and the empty string are falsy. */
  predicate TokenTruthy(token: Option<string>)
  {
    token.Some? && token.value != ""
  }

  /** The header value of the Bearer scheme (section 2.1 of RFC 6750). */
  function BearerValue(token: string): (r: string)
    ensures |r| == |token| + 7 && r[..7] == "Bearer " && r[7..] == token
  {
    "Bearer " + token
  }

  /** A response seen by the interceptor: a success, or an error with an optional HTTP status. */
  datatype Outcome<T> = Fulfilled(response: T) | Rejected(status: Option<int>)

  class ApiClient {
    var headers: map<string, string>
    var location: string
    const storage: LocalStorage

    /** The default Authorization header carries exactly the stored token, when there is one. */
    ghost predicate Synced()
      reads this, storage
    {
      var t := storage.GetItem(TokenKey);
      if TokenTruthy(t) then AuthHeader in headers && headers[AuthHeader] == BearerValue(t.value)
      else AuthHeader !in headers
    }

    /** Module load: the client is created, then a stored token (if truthy) is installed. */
    constructor(storage: LocalStorage, location: string)
      ensures this.storage == storage && this.location == location
      ensures var t := storage.GetItem(TokenKey);
        headers == if TokenTruthy(t) then InitialHeaders()[AuthHeader := BearerValue(t.value)] else InitialHeaders()
      ensures Synced()
    {
      this.storage := storage;
      this.location := location;
      headers := InitialHeaders();
      new;
      var token := storage.GetItem(TokenKey);
      if TokenTruthy(token) {
        SetAuthToken(token);
      }
    }

    /** setAuthToken: a truthy token becomes the Bearer header, anything else removes the header. */
    method SetAuthToken(token: Option<string>)
      modifies this
      ensures location == old(location)
      ensures headers == if TokenTruthy(token) then old(headers)[AuthHeader := BearerValue(token.value)]
                         else old(headers) - {AuthHeader}
    {
      if TokenTruthy(token) {
        headers := headers[AuthHeader := BearerValue(token.value)];
      } else {
        headers := headers - {AuthHeader};
      }
    }

    /** getStoredToken. */
    function GetStoredToken(): (r: Option<string>)
      reads this, storage
      ensures r == storage.GetItem(TokenKey)
    {
      storage.GetItem(TokenKey)
    }

    /** setStoredToken: only the access_token key changes. */
    method SetStoredToken(token: string)
      modifies storage
      ensures storage.items == old(storage.items)[TokenKey := token]
    {
      storage.SetItem(TokenKey, token);
    }

    /** removeStoredToken: only the access_token key is removed. */
    method RemoveStoredToken()
      modifies storage
      ensures storage.items == old(storage.items) - {TokenKey}
    {
      storage.RemoveItem(TokenKey);
    }

    /**
     * The response interceptor: a success passes through unchanged; an error
     * is rejected again, and on a 401 the stored token and the header are
     * removed and the location becomes /login first.
     */
    method Intercept<T>(outcome: Outcome<T>) returns (r: Outcome<T>)
      modifies this, storage
      ensures r == outcome
      ensures if outcome.Rejected? && outcome.status == Some(401) then
          storage.items == old(storage.items) - {TokenKey}
          && headers == old(headers) - {AuthHeader} && location == LoginLocation
        else
          storage.items == old(storage.items) && headers == old(headers) && location == old(location)
      ensures outcome.Rejected? && outcome.status == Some(401) ==> Synced()
    {
      if outcome.Rejected? && outcome.status == Some(401) {
        RemoveStoredToken();
        SetAuthToken(None);
        location := LoginLocation;
      }
      r := outcome;
    }
  }
}
