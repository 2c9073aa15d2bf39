/** The shared API client: a request interceptor that attaches the stored
    access token as a Bearer credential (section 2.1 of RFC 6750), and
    response interceptors that pass results and errors through unchanged. */
module Api {
  import opened Common
  import opened Storage

  type Headers = map<string, string>

  const Authorization := "Authorization"

  /** The header value `Bearer <token>`: the token can be read back from it. */
  function BearerCredentials(token: string): (value: string)
    ensures BearerToken(value) == Some(token)
  {
    "Bearer " + token
  }

  /** The token a `Bearer` header value carries, if it is one. */
  function BearerToken(value: string): Option<string>
  {
    if |value| >= 7 && value[..7] == "Bearer " then Some(value[7..]) else None
  }

  /** The headers of a request after the interceptor has seen it, given what
      the access-token key holds at that moment. */
  function WithAccessToken(headers: Headers, token: Option<string>): (h: Headers)
    ensures Truthy(token) ==> Authorization in h && BearerToken(h[Authorization]) == Some(token.value)
    ensures !Truthy(token) ==> h == headers
    ensures forall k :: k != Authorization ==> (k in h <==> k in headers)
    ensures forall k :: k in h && k != Authorization ==> h[k] == headers[k]
  {
    if Truthy(token) then
      var value := BearerCredentials(token.value);
      assert value[..7] == "Bearer " && value[7..] == token.value;
      headers[Authorization := value]
    else headers
  }

  /** An outgoing request as axios hands it to the interceptor. */
  class RequestConfig {
    var verb: Method
    var url: string
    var data: Body
    var headers: Headers

    constructor (verb: Method, url: string, data: Body, headers: Headers)
      ensures this.verb == verb && this.url == url && this.data == data && this.headers == headers
    {
      this.verb := verb;
      this.url := url;
      this.data := data;
      this.headers := headers;
    }
  }

  /** The request interceptor: re-reads the access token from storage for this
      request and, when it is truthy, sets `headers.Authorization` in place. */
  method InterceptRequest(config: RequestConfig, storage: LocalStorage, keys: Keys)
    returns (r: RequestConfig)
    modifies config
    ensures r == config
    ensures config.headers == WithAccessToken(old(config.headers), storage.Get(keys.access))
    ensures config.verb == old(config.verb) && config.url == old(config.url)
    ensures config.data == old(config.data)
  {
    var token := storage.Get(keys.access);
    if Truthy(token) {
      config.headers := config.headers[Authorization := BearerCredentials(token.value)];
    }
    r := config;
  }

  /** A settled promise. */
  datatype Settled<+T, +E> = Resolved(value: T) | Rejected(error: E)

  /** The request stage on the headers of one request: a request that failed
      before it was sent is rejected with its own error object. */
  function RequestStage<E>(incoming: Settled<Headers, E>, token: Option<string>): (r: Settled<Headers, E>)
    ensures incoming.Rejected? ==> r == incoming
    ensures incoming.Resolved? ==> r == Resolved(WithAccessToken(incoming.value, token))
  {
    match incoming
    case Resolved(headers) => Resolved(WithAccessToken(headers, token))
    case Rejected(error) => Rejected(error)
  }

  /** The response stage: `(response) => response` and a handler that logs
      and rejects with the same error. */
  function ResponseStage<T, E>(outcome: Settled<T, E>): (r: Settled<T, E>)
    ensures r == outcome
  {
    match outcome
    case Resolved(response) => Resolved(response)
    case Rejected(error) => Rejected(error)
  }

  /** One call through the client: the transport sees the intercepted
      headers exactly once, and its outcome reaches the caller unchanged (no
      retry and no refresh at this layer). */
  function Dispatch<R, E>(incoming: Settled<Headers, E>, token: Option<string>,
                          transport: Headers -> Settled<R, E>): (r: Settled<R, E>)
    ensures incoming.Rejected? ==> r == Rejected(incoming.error)
    ensures incoming.Resolved? ==> r == transport(WithAccessToken(incoming.value, token))
  {
    match RequestStage(incoming, token)
    case Rejected(error) => Rejected(error)
    case Resolved(headers) => ResponseStage(transport(headers))
  }
}
