/** The login page: it posts the credentials and, on success, stores both
    returned tokens and goes to the default view. */
module Login {
  import opened Common
  import opened Storage
  import PrivateRoute

  /** The data of a token response: an object in which either token may be
      missing, or `null`. */
  datatype TokenPair = TokenPair(access: Option<string>, refresh: Option<string>) | NullTokens

  function LoginCall(username: string, password: string): Call
  {
    Call(Post, "api/token/", map["username" := Str(username), "password" := Str(password)])
  }

  /** Storage once the login call has settled: both tokens written on success
      (access first, then refresh), nothing on failure. A `null` answer throws
      at `data.access` before the first write, and the `.catch` takes it. */
  function StoreAfterLogin(keys: Keys, store: Store, response: Response<TokenPair>): (s: Store)
    ensures response.Fail? || (response.Ok? && response.data.NullTokens?) ==> s == store
    ensures response.Ok? && response.data.TokenPair? && Distinct(keys) ==>
              GetItem(s, keys.access) == Some(JsString(response.data.access)) &&
              GetItem(s, keys.refresh) == Some(JsString(response.data.refresh))
    ensures forall k :: k != keys.access && k != keys.refresh ==> GetItem(s, k) == GetItem(store, k)
    ensures s.Keys <= store.Keys + {keys.access, keys.refresh}
  {
    match response
    case Ok(_, TokenPair(access, refresh)) => store[keys.access := JsString(access)][keys.refresh := JsString(refresh)]
    case Ok(_, NullTokens) => store
    case Fail => store
  }

  class LoginPage {
    var loading: bool
    var username: string
    var password: string

    constructor ()
      ensures !loading && username == "" && password == ""
    {
      loading, username, password := false, "", "";
    }

    method SetUsername(value: string)
      modifies this`username
      ensures username == value
    {
      username := value;
    }

    method SetPassword(value: string)
      modifies this`password
      ensures password == value
    {
      password := value;
    }

    /** `handleSubmit` up to the call: loading is on while the call is out,
        and the body is exactly the two form fields. */
    method Submit() returns (call: Call)
      modifies this`loading
      ensures loading
      ensures call == LoginCall(username, password)
      ensures call.body.Keys == {"username", "password"}
    {
      loading := true;
      call := LoginCall(username, password);
    }

    /** `handleSubmit` once the call has settled: the writes and the move to
        `/` on success, only an alert on failure or on a `null` answer, and
        loading off after either. */
    method Settle(storage: LocalStorage, keys: Keys, response: Response<TokenPair>)
      returns (navigateTo: Option<string>)
      modifies this`loading, storage
      ensures !loading
      ensures storage.items == StoreAfterLogin(keys, old(storage.items), response)
      ensures navigateTo == if response.Ok? && response.data.TokenPair? then Some("/") else None
    {
      navigateTo := None;
      match response {
        case Ok(_, TokenPair(access, refresh)) =>
          storage.SetItem(keys.access, JsString(access));
          storage.SetItem(keys.refresh, JsString(refresh));
          navigateTo := Some("/");
        case Ok(_, NullTokens) =>  // the throw at `data.access`, caught
        case Fail =>
      }
      loading := false;
    }
  }

  /** A login whose access token decodes with a future expiry lets the guard
      authorize the next protected view without a refresh call. */
  lemma LoginOpensSession(keys: Keys, store: Store, status: int, access: string, refresh: Option<string>,
                          decode: PrivateRoute.Decoder, nowMs: int, exp: int,
                          renewal: Response<PrivateRoute.RefreshData>)
    requires Distinct(keys)
    requires access != ""
    requires decode(access) == Some(PrivateRoute.Claims(PrivateRoute.ExpAt(exp))) && exp * 1000 >= nowMs
    ensures var s := StoreAfterLogin(keys, store, Ok(status, TokenPair(Some(access), refresh)));
            PrivateRoute.Verify(keys, s, decode, nowMs, renewal) == PrivateRoute.Verdict(PrivateRoute.Authorized, s, [])
  {
    var s := StoreAfterLogin(keys, store, Ok(status, TokenPair(Some(access), refresh)));
    assert GetItem(s, keys.access) == Some(access);
  }
}
