/** Values shared by every page of the client: optional values, the JSON-like
    values that travel in request bodies, HTTP calls and their outcomes. */
module Common {

  datatype Option<+T> = None | Some(value: T)

  /** A property value of a JavaScript object as the pages send or read it;
      `Undefined` is a property the object does not have. */
  datatype Value = Str(s: string) | Num(n: int) | Bool(b: bool) | Undefined

  /** A request body or a record of a list response: property name to value. */
  type Body = map<string, Value>

  datatype Method = Get | Post | Put

  /** One HTTP call as a page hands it to the API client. */
  datatype Call = Call(verb: Method, path: string, body: Body)

  /** How a call settled: the client resolved with a status and the response
      data, or rejected (a network error, a timeout or a non-2xx status). */
  datatype Response<+D> = Ok(status: int, data: D) | Fail

  /** JavaScript truthiness of a stored string (`getItem` gives null for a
      missing key): only a present, nonempty string is truthy. */
  predicate Truthy(o: Option<string>)
  {
    o.Some? && o.value != ""
  }

  /** The string that `String(x)` (and so `localStorage.setItem` or a template
      literal) makes of a property that is a string or undefined. */
  function JsString(o: Option<string>): (s: string)
    ensures o.Some? ==> s == o.value
    ensures o.None? ==> s == "undefined"
  {
    match o
    case Some(v) => v
    case None => "undefined"
  }

  /** `Array.prototype.find`: the first element that satisfies `p`. */
  function Find<T>(s: seq<T>, p: T -> bool): (r: Option<T>)
    ensures r.None? <==> forall i :: 0 <= i < |s| ==> !p(s[i])
    ensures r.Some? ==> exists i :: 0 <= i < |s| && s[i] == r.value && p(s[i]) &&
                                    forall j :: 0 <= j < i ==> !p(s[j])
  {
    if s == [] then None
    else if p(s[0]) then Some(s[0])
    else
      var r := Find(s[1..], p);
      assert forall i :: 1 <= i < |s| ==> s[i] == s[1..][i - 1];
      r
  }

  /** With at most one element satisfying `p`, `Find` returns that element
      whenever it is present. */
  lemma {:induction false} FindUnique<T>(s: seq<T>, p: T -> bool, k: nat)
    requires k < |s| && p(s[k])
    requires forall i, j :: 0 <= i < |s| && 0 <= j < |s| && p(s[i]) && p(s[j]) ==> i == j
    ensures Find(s, p) == Some(s[k])
  {
    var r := Find(s, p);
    assert r.Some?;
    var i :| 0 <= i < |s| && s[i] == r.value && p(s[i]) && forall j :: 0 <= j < i ==> !p(s[j]);
    assert i == k;
  }
}
