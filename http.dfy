/**
 * What an HTTP client call can end in, as the pages see it: the payload, or an
 * error carrying an optional server response (status code and `detail` message)
 * and an error code (`ERR_NETWORK` when no response arrived). Also the outgoing
 * request configuration that the request interceptors decorate with a bearer
 * credential (section 2.1 of RFC 6750).
 */
module Http {
  import opened Wrappers
  import opened Text

  /** 401 Unauthorized, section 15.5.2 of RFC 9110. */
  const Unauthorized := 401
  /** 404 Not Found, section 15.5.5 of RFC 9110. */
  const NotFound := 404
  /** The error code the client library gives a request that got no response. */
  const NetworkErrorCode := "ERR_NETWORK"

  const AuthorizationHeader := "Authorization"
  const BearerPrefix := "Bearer "

  /** The part of a failed response the pages read: the status and the body's `detail`. */
  datatype ErrorResponse = ErrorResponse(status: int, detail: Option<string>)

  /** A rejected request: the library's error code and the response, if one arrived. */
  datatype ApiError = ApiError(code: string, response: Option<ErrorResponse>)

  /** The outcome of one request, supplied by the caller in place of the network. */
  datatype Outcome<T> = Ok(value: T) | Err(error: ApiError)

  /** `error.response?.status === status`. */
  predicate HasStatus(e: ApiError, status: int) {
    e.response.Some? && e.response.value.status == status
  }

  /** `error.code === 'ERR_NETWORK'`. */
  predicate IsNetworkError(e: ApiError) {
    e.code == NetworkErrorCode
  }

  /** `error.response?.data?.detail || fallback`: the server's message when it sent a non-empty one. */
  function DetailOr(e: ApiError, fallback: string): (m: string)
    ensures m == fallback || (e.response.Some? && e.response.value.detail == Some(m) && m != "")
    ensures e.response.Some? && e.response.value.detail.Some? && e.response.value.detail.value != ""
            ==> m == e.response.value.detail.value
    ensures fallback != "" ==> m != ""
  {
    match e.response
    case Some(ErrorResponse(_, Some(d))) => if d != "" then d else fallback
    case _ => fallback
  }

  /** `localStorage.getItem(key)` read as a condition: present and non-empty. */
  function StoredToken(storage: map<string, string>, key: string): (t: Option<string>)
    ensures t.Some? <==> key in storage && storage[key] != ""
    ensures t.Some? ==> t.value == storage[key]
  {
    if key in storage && storage[key] != "" then Some(storage[key]) else None
  }

  /** The token carried by an `Authorization` header value of the bearer scheme, if any. */
  function BearerCredential(value: string): (t: Option<string>)
    ensures t.Some? <==> StartsWith(value, BearerPrefix)
    ensures t.Some? ==> value == BearerPrefix + t.value
  {
    if StartsWith(value, BearerPrefix) then Some(value[|BearerPrefix|..]) else None
  }

  /**
   * The headers after `if (token) config.headers.Authorization = `Bearer ${token}``:
   * with a token, the header names that token; without one, nothing changes.
   */
  function WithBearer(headers: map<string, string>, token: Option<string>): (h: map<string, string>)
    ensures token.Some? ==> AuthorizationHeader in h && BearerCredential(h[AuthorizationHeader]) == token
    ensures token.None? ==> h == headers
    ensures forall k :: k != AuthorizationHeader ==> (k in h <==> k in headers)
    ensures forall k :: k != AuthorizationHeader && k in h ==> h[k] == headers[k]
  {
    match token
    case None => headers
    case Some(t) =>
      assert (BearerPrefix + t)[..|BearerPrefix|] == BearerPrefix;
      assert (BearerPrefix + t)[|BearerPrefix|..] == t;
      headers[AuthorizationHeader := BearerPrefix + t]
  }

  /** An outgoing request's configuration, which the request interceptors change in place. */
  class RequestConfig {
    var url: string
    var headers: map<string, string>

    constructor (url: string, headers: map<string, string>)
      ensures this.url == url && this.headers == headers
    {
      this.url := url;
      this.headers := headers;
    }

    /** `config.headers.Authorization = value`. */
    method SetAuthorization(value: string)
      modifies this`headers
      ensures headers == old(headers)[AuthorizationHeader := value]
    {
      headers := headers[AuthorizationHeader := value];
    }
  }
}
