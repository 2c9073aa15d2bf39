/** The logout page: it blacklists the stored refresh token when there is one,
    clears storage, and always goes to the login page. */
module Logout {
  import opened Common
  import opened Storage
  import PrivateRoute

  /** The key the page reads, written as a literal rather than through
      `REFRESH_KEY_TOKEN`. */
  const RefreshKey := "refresh"

  function BlacklistCall(token: string): Call
  {
    Call(Post, "/api/token/blacklist/", map["refresh" := Str(token)])
  }

  datatype Outcome = Outcome(store: Store, sent: seq<Call>, navigateTo: string)

  /** `performLogout` as written: a failed blacklist call is caught before
      `localStorage.clear()` runs, so storage keeps the session. */
  function PerformLogout(store: Store, response: Response<Body>): (r: Outcome)
    ensures r.navigateTo == "/login"
    ensures r.sent != [] <==> Truthy(GetItem(store, RefreshKey))
    ensures r.sent != [] ==> r.sent == [BlacklistCall(store[RefreshKey])]
    ensures Truthy(GetItem(store, RefreshKey)) && response.Fail? ==> r.store == store
    ensures !Truthy(GetItem(store, RefreshKey)) || response.Ok? ==> r.store == map[]
  {
    var token := GetItem(store, RefreshKey);
    if Truthy(token) then
      match response
      case Ok(_, _) => Outcome(map[], [BlacklistCall(token.value)], "/login")
      case Fail => Outcome(store, [BlacklistCall(token.value)], "/login")
    else Outcome(map[], [], "/login")
  }

  /** The effect of the page on mount. */
  method Run(storage: LocalStorage, response: Response<Body>)
    returns (sent: seq<Call>, navigateTo: string)
    modifies storage
    ensures var r := PerformLogout(old(storage.items), response);
            storage.items == r.store && sent == r.sent && navigateTo == r.navigateTo
  {
    sent := [];
    var thrown := false;
    var token := storage.Get(RefreshKey);
    if Truthy(token) {
      sent := [BlacklistCall(token.value)];
      thrown := response.Fail?;  // the awaited call rejects: control goes to the catch
    }
    if !thrown {
      storage.Clear();
    }
    navigateTo := "/login";  // the finally block
  }

  /** Logout as intended (best-effort invalidation, then clear in every
      outcome): the same calls, with storage always emptied. */
  function IntendedLogout(store: Store, response: Response<Body>): (r: Outcome)
    ensures r.store == map[] && r.navigateTo == "/login"
    ensures r.sent == PerformLogout(store, response).sent
  {
    var token := GetItem(store, RefreshKey);
    Outcome(map[], if Truthy(token) then [BlacklistCall(token.value)] else [], "/login")
  }

  /** As written, a logout whose blacklist call fails leaves a session that
      the guard still accepts: the next protected view renders. */
  lemma FailedLogoutKeepsSession()
    ensures var keys := Keys("access", RefreshKey);
            var store := map["access" := "a", RefreshKey := "r"];
            var decode: PrivateRoute.Decoder := (t: string) => Some(PrivateRoute.Claims(PrivateRoute.NoExp));
            var after := PerformLogout(store, Fail).store;
            PrivateRoute.Verify(keys, after, decode, 0, Fail).access == PrivateRoute.Authorized
  {
    var keys := Keys("access", RefreshKey);
    var store := map["access" := "a", RefreshKey := "r"];
    assert GetItem(store, RefreshKey) == Some("r");
    assert PerformLogout(store, Fail).store == store;
    assert GetItem(store, keys.access) == Some("a");
  }

  /** After the intended logout the guard denies in every case, without a call. */
  lemma IntendedLogoutEndsSession(keys: Keys, store: Store, response: Response<Body>,
                                  decode: PrivateRoute.Decoder, nowMs: int,
                                  renewal: Response<PrivateRoute.RefreshData>)
    ensures var after := IntendedLogout(store, response).store;
            PrivateRoute.Verify(keys, after, decode, nowMs, renewal) ==
            PrivateRoute.Verdict(PrivateRoute.Unauthorized, map[], [])
  {
    var after := IntendedLogout(store, response).store;
    assert GetItem(after, keys.access) == None;
  }
}
