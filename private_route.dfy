/** The session guard in front of every protected view: it starts undecided,
    checks the stored access token's expiry (the `exp` claim of section 4.1.4
    of RFC 7519), tries one silent refresh when it has expired, and then either
    renders the view or redirects to the login page. */
module PrivateRoute {
  import opened Common
  import opened Storage
  import Api

  /** `hasAccess`: null, true or false. */
  datatype Access = Unknown | Authorized | Unauthorized

  /** The `exp` claim as `jwtDecode` hands it over: absent, JSON `null`, or a
      number of seconds since the epoch. */
  datatype Expiry = NoExp | NullExp | ExpAt(seconds: int)

  /** The claims `jwtDecode` exposes. */
  datatype Claims = Claims(exp: Expiry)

  /** `jwtDecode`, a library function: None where it throws. */
  type Decoder = string -> Option<Claims>

  /** The data of a refresh response: an object whose `access` may be
      missing, or `null`. */
  datatype RefreshData = RefreshData(access: Option<string>) | NullData

  /** The decision of one evaluation: the new `hasAccess`, the storage after
      it, and the calls it issued. */
  datatype Verdict = Verdict(access: Access, store: Store, sent: seq<Call>)

  /** What the guard renders. */
  datatype View = Placeholder(text: string) | Children | Redirect(to: string, replace: bool)

  function RefreshCall(refresh: string): Call
  {
    Call(Post, "/api/token/refresh/", map["refresh" := Str(refresh)])
  }

  /** `expiry < Date.now() / 1000`, with the time in integer milliseconds,
      decided without leaving the integers. A missing `exp` is undefined, and
      `undefined < n` is false; a `null` one compares as 0. */
  function Expired(claims: Claims, nowMs: int): (expired: bool)
    ensures claims.exp.NoExp? ==> !expired
    ensures claims.exp.NullExp? ==> (expired <==> 0.0 < nowMs as real / 1000.0)
    ensures claims.exp.ExpAt? ==> (expired <==> (claims.exp.seconds as real) < nowMs as real / 1000.0)
  {
    match claims.exp
    case NoExp => false
    case NullExp => 0 < nowMs
    case ExpAt(seconds) => seconds * 1000 < nowMs
  }

  /** The stored access token is present, decodes, and has not expired. */
  predicate HoldsLiveToken(keys: Keys, store: Store, decode: Decoder, nowMs: int)
  {
    var token := GetItem(store, keys.access);
    Truthy(token) && decode(token.value).Some? && !Expired(decode(token.value).value, nowMs)
  }

  /** The stored access token is present, decodes, and has expired. */
  predicate HoldsExpiredToken(keys: Keys, store: Store, decode: Decoder, nowMs: int)
  {
    var token := GetItem(store, keys.access);
    Truthy(token) && decode(token.value).Some? && Expired(decode(token.value).value, nowMs)
  }

  /** A refresh token is stored and the refresh call answered with status 200. */
  predicate RenewalGranted(keys: Keys, store: Store, response: Response<RefreshData>)
  {
    Truthy(GetItem(store, keys.refresh)) && response.Ok? && response.status == 200 && response.data.RefreshData?
  }

  /** `renewAccessToken`; a 200 answer whose data is `null` throws at
      `response.data.access` inside the `try`, and the `catch` denies. */
  function Renew(keys: Keys, store: Store, response: Response<RefreshData>): (v: Verdict)
    ensures v.access != Unknown
    ensures v.access == Authorized <==> RenewalGranted(keys, store, response)
    ensures Truthy(GetItem(store, keys.refresh)) ==> v.sent == [RefreshCall(store[keys.refresh])]
    ensures !Truthy(GetItem(store, keys.refresh)) ==> v.sent == []
    ensures v.access == Authorized ==> v.store == store[keys.access := JsString(response.data.access)]
    ensures v.access == Unauthorized ==> v.store == store
  {
    var refresh := GetItem(store, keys.refresh);
    if !Truthy(refresh) then Verdict(Unauthorized, store, [])
    else
      var call := RefreshCall(refresh.value);
      match response
      case Ok(status, data) =>
        if status == 200 && data.RefreshData? then Verdict(Authorized, store[keys.access := JsString(data.access)], [call])
        else Verdict(Unauthorized, store, [call])
      case Fail => Verdict(Unauthorized, store, [call])
  }

  /** `verifyAuth` together with the `.catch` of the effect that runs it: a
      decode that throws ends in Unauthorized. */
  function Verify(keys: Keys, store: Store, decode: Decoder, nowMs: int,
                  response: Response<RefreshData>): (v: Verdict)
    ensures v.access != Unknown
    ensures v.access == Authorized <==>
              HoldsLiveToken(keys, store, decode, nowMs) ||
              (HoldsExpiredToken(keys, store, decode, nowMs) && RenewalGranted(keys, store, response))
    ensures |v.sent| <= 1
    ensures v.sent != [] <==>
              HoldsExpiredToken(keys, store, decode, nowMs) && Truthy(GetItem(store, keys.refresh))
    ensures v.sent != [] ==> v.sent[0] == RefreshCall(store[keys.refresh])
    ensures v.store == store ||
              (RenewalGranted(keys, store, response) &&
               v.store == store[keys.access := JsString(response.data.access)])
    ensures v.access == Unauthorized ==> v.store == store
  {
    var token := GetItem(store, keys.access);
    if !Truthy(token) then Verdict(Unauthorized, store, [])
    else
      match decode(token.value)
      case None => Verdict(Unauthorized, store, [])
      case Some(claims) =>
        if Expired(claims, nowMs) then Renew(keys, store, response)
        else Verdict(Authorized, store, [])
  }

  /** The render decision: a placeholder while undecided, the children once
      authorized, otherwise a redirect to `/login` that replaces the history
      entry. */
  function Render(access: Access): (view: View)
    ensures view.Placeholder? <==> access == Unknown
    ensures view == Children <==> access == Authorized
    ensures view.Redirect? <==> access == Unauthorized
    ensures view.Redirect? ==> view == Redirect("/login", true)
  {
    match access
    case Unknown => Placeholder("Checking access...")
    case Authorized => Children
    case Unauthorized => Redirect("/login", true)
  }

  class Guard {
    var hasAccess: Access

    constructor ()
      ensures hasAccess == Unknown
    {
      hasAccess := Unknown;
    }

    method RenewAccessToken(storage: LocalStorage, keys: Keys, response: Response<RefreshData>)
      returns (sent: seq<Call>)
      modifies this, storage
      ensures var v := Renew(keys, old(storage.items), response);
              hasAccess == v.access && storage.items == v.store && sent == v.sent
    {
      var refresh := storage.Get(keys.refresh);
      if !Truthy(refresh) {
        hasAccess := Unauthorized;
        return [];
      }
      sent := [RefreshCall(refresh.value)];
      match response {
        case Ok(status, data) =>
          if status != 200 {
            hasAccess := Unauthorized;
          } else if data.NullData? {
            hasAccess := Unauthorized;  // the throw at `response.data.access`, caught
          } else {
            storage.SetItem(keys.access, JsString(data.access));
            hasAccess := Authorized;
          }
        case Fail =>
          hasAccess := Unauthorized;
      }
    }

    method VerifyAuth(storage: LocalStorage, keys: Keys, decode: Decoder, nowMs: int,
                      response: Response<RefreshData>)
      returns (sent: seq<Call>)
      modifies this, storage
      ensures var v := Verify(keys, old(storage.items), decode, nowMs, response);
              hasAccess == v.access && storage.items == v.store && sent == v.sent
    {
      var token := storage.Get(keys.access);
      if !Truthy(token) {
        hasAccess := Unauthorized;
        return [];
      }
      match decode(token.value) {
        case None =>
          hasAccess := Unauthorized;
          sent := [];
        case Some(claims) =>
          if Expired(claims, nowMs) {
            sent := RenewAccessToken(storage, keys, response);
          } else {
            hasAccess := Authorized;
            sent := [];
          }
      }
    }
  }

  /** A missing or empty access token: Unauthorized, nothing sent, storage as it was. */
  lemma NoTokenDenies(keys: Keys, store: Store, decode: Decoder, nowMs: int, response: Response<RefreshData>)
    requires !Truthy(GetItem(store, keys.access))
    ensures Verify(keys, store, decode, nowMs, response) == Verdict(Unauthorized, store, [])
  {
  }

  /** A token whose `exp` is not before now (equality included): Authorized
      with no call and storage as it was. */
  lemma LiveTokenGrants(keys: Keys, store: Store, decode: Decoder, nowMs: int, response: Response<RefreshData>, exp: int)
    requires Truthy(GetItem(store, keys.access))
    requires decode(store[keys.access]) == Some(Claims(ExpAt(exp)))
    requires exp * 1000 >= nowMs
    ensures Verify(keys, store, decode, nowMs, response) == Verdict(Authorized, store, [])
  {
  }

  /** An expired token with no refresh token stored: Unauthorized, nothing sent. */
  lemma ExpiredWithoutRefreshDenies(keys: Keys, store: Store, decode: Decoder, nowMs: int,
                                    response: Response<RefreshData>, exp: int)
    requires Truthy(GetItem(store, keys.access))
    requires decode(store[keys.access]) == Some(Claims(ExpAt(exp)))
    requires exp * 1000 < nowMs
    requires !Truthy(GetItem(store, keys.refresh))
    ensures Verify(keys, store, decode, nowMs, response) == Verdict(Unauthorized, store, [])
  {
  }

  /** An expired token renewed with status 200: Authorized, one refresh call
      carrying the stored refresh token, the access key replaced by the new
      token and every other key, the refresh key included, untouched. */
  lemma RenewalReplacesOnlyAccess(keys: Keys, store: Store, decode: Decoder, nowMs: int,
                                  exp: int, renewed: string)
    requires Distinct(keys)
    requires Truthy(GetItem(store, keys.access))
    requires decode(store[keys.access]) == Some(Claims(ExpAt(exp)))
    requires exp * 1000 < nowMs
    requires Truthy(GetItem(store, keys.refresh))
    ensures var v := Verify(keys, store, decode, nowMs, Ok(200, RefreshData(Some(renewed))));
            && v.access == Authorized
            && v.sent == [RefreshCall(store[keys.refresh])]
            && GetItem(v.store, keys.access) == Some(renewed)
            && (forall k :: k != keys.access ==> GetItem(v.store, k) == GetItem(store, k))
            && GetItem(v.store, keys.refresh) == GetItem(store, keys.refresh)
  {
  }

  /** A refresh that answers with another status or rejects: Unauthorized,
      storage as it was, one call sent and nothing thrown. */
  lemma FailedRenewalDenies(keys: Keys, store: Store, decode: Decoder, nowMs: int,
                            response: Response<RefreshData>, exp: int)
    requires Truthy(GetItem(store, keys.access))
    requires decode(store[keys.access]) == Some(Claims(ExpAt(exp)))
    requires exp * 1000 < nowMs
    requires Truthy(GetItem(store, keys.refresh))
    requires response.Fail? || response.status != 200
    ensures Verify(keys, store, decode, nowMs, response) ==
            Verdict(Unauthorized, store, [RefreshCall(store[keys.refresh])])
  {
  }

  /** A token `jwtDecode` cannot decode: Unauthorized, nothing sent. */
  lemma UndecodableDenies(keys: Keys, store: Store, decode: Decoder, nowMs: int, response: Response<RefreshData>)
    requires Truthy(GetItem(store, keys.access))
    requires decode(store[keys.access]).None?
    ensures Verify(keys, store, decode, nowMs, response) == Verdict(Unauthorized, store, [])
  {
  }

  /** A token without an `exp` claim never counts as expired. */
  lemma MissingExpiryGrants(keys: Keys, store: Store, decode: Decoder, nowMs: int, response: Response<RefreshData>)
    requires Truthy(GetItem(store, keys.access))
    requires decode(store[keys.access]) == Some(Claims(NoExp))
    ensures Verify(keys, store, decode, nowMs, response) == Verdict(Authorized, store, [])
  {
  }

  /** A token whose `exp` is `null` counts as expired at any time after the
      epoch, so the guard goes on to renew it. */
  lemma NullExpiryRenews(keys: Keys, store: Store, decode: Decoder, nowMs: int, response: Response<RefreshData>)
    requires Truthy(GetItem(store, keys.access))
    requires decode(store[keys.access]) == Some(Claims(NullExp))
    requires nowMs > 0
    ensures Verify(keys, store, decode, nowMs, response) == Renew(keys, store, response)
  {
  }

  /** A 200 refresh answer whose data is `null`: Unauthorized, storage as it
      was, the one refresh call sent. */
  lemma NullRefreshDataDenies(keys: Keys, store: Store, status: int)
    requires Truthy(GetItem(store, keys.refresh))
    ensures Renew(keys, store, Ok(status, NullData)) ==
            Verdict(Unauthorized, store, [RefreshCall(store[keys.refresh])])
  {
  }

  /** After a renewal, the next request the client sends carries the new
      access token: the interceptor reads it from the storage the guard wrote. */
  lemma NextRequestCarriesRenewedToken(keys: Keys, store: Store, decode: Decoder, nowMs: int,
                                       renewed: string, headers: Api.Headers)
    requires HoldsExpiredToken(keys, store, decode, nowMs)
    requires Truthy(GetItem(store, keys.refresh))
    requires renewed != ""
    ensures var v := Verify(keys, store, decode, nowMs, Ok(200, RefreshData(Some(renewed))));
            var h := Api.WithAccessToken(headers, GetItem(v.store, keys.access));
            Api.Authorization in h && Api.BearerToken(h[Api.Authorization]) == Some(renewed)
  {
    var v := Verify(keys, store, decode, nowMs, Ok(200, RefreshData(Some(renewed))));
    assert v.store == store[keys.access := renewed];
  }
}
