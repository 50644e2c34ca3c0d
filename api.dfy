/** The client side of the REST API: the query string `taskAPI.getTasks` builds, the
    single-task paths, the request interceptor that attaches the bearer token, and the
    response interceptor that forgets the credentials on a 401. */
module Api {
  import opened Wrappers
  import opened JsObjects

  /** A query parameter's value as callers pass it. */
  datatype ParamValue = Undefined | Null | Str(s: string) | Num(n: int) | Bool(b: bool)

  /** `value === undefined || value === null || value === ''`: the values skipped. */
  predicate Dropped(v: ParamValue) {
    v.Undefined? || v.Null? || v == Str("")
  }

  /** The decimal digits of a natural number. */
  function NatDigits(n: nat): (s: string)
    ensures |s| >= 1
    ensures forall i :: 0 <= i < |s| ==> '0' <= s[i] <= '9'
  {
    var d := (('0' as int) + n % 10) as char;
    if n < 10 then [d] else NatDigits(n / 10) + [d]
  }

  /** Every character is a decimal digit. */
  predicate IsDecimal(s: string) {
    forall i :: 0 <= i < |s| ==> '0' <= s[i] <= '9'
  }

  /** The number a string of decimal digits denotes, most significant digit first. */
  function DigitsValue(s: string): int {
    if s == [] then 0 else 10 * DigitsValue(s[..|s| - 1]) + (s[|s| - 1] as int - '0' as int)
  }

  /** `NatDigits` spells its argument: the digits denote `n`, and only `0` starts
      with the digit `0`. */
  lemma {:induction false} NatDigitsValue(n: nat)
    ensures DigitsValue(NatDigits(n)) == n
    ensures NatDigits(n)[0] == '0' ==> n == 0
  {
    if n >= 10 {
      NatDigitsValue(n / 10);
      var s := NatDigits(n);
      assert s == NatDigits(n / 10) + [(('0' as int) + n % 10) as char];
      assert s[..|s| - 1] == NatDigits(n / 10);
      assert s[0] == NatDigits(n / 10)[0];
    }
  }

  /** `String(value)`, the text `append` stores: a number as its decimal digits after
      a `-` when it is negative, a boolean as `true` or `false`, a string as itself. */
  function Text(v: ParamValue): (r: string)
    ensures v.Str? ==> r == v.s
    ensures v.Num? ==> r != []
    ensures v.Num? && v.n >= 0 ==> IsDecimal(r) && DigitsValue(r) == v.n && (r[0] == '0' ==> v.n == 0)
    ensures v.Num? && v.n < 0 ==> r[0] == '-' && IsDecimal(r[1..]) && DigitsValue(r[1..]) == -v.n && r[1] != '0'
    ensures v.Bool? ==> (r == "true" <==> v.b)
  {
    match v
    case Undefined => "undefined"
    case Null => "null"
    case Str(s) => s
    case Num(n) =>
      NatDigitsValue(if n < 0 then -n else n);
      if n < 0 then
        assert ("-" + NatDigits(-n))[1..] == NatDigits(-n);
        "-" + NatDigits(-n)
      else NatDigits(n)
    case Bool(b) => if b then "true" else "false"
  }

  /** What one entry contributes to the `URLSearchParams` buffer: nothing when its
      value is dropped, its key and text otherwise. */
  function Appended(entry: (string, ParamValue)): seq<(string, string)> {
    if Dropped(entry.1) then [] else [(entry.0, Text(entry.1))]
  }

  /** The `(key, text)` pairs that reach the `URLSearchParams` buffer: the parameters
      that are not dropped, in the order of the entries. */
  function Kept(params: Entries<ParamValue>): (pairs: seq<(string, string)>)
    ensures |pairs| <= |params|
  {
    if params == [] then [] else Appended(params[0]) + Kept(params[1..])
  }

  /** The buffer receives the first entry's contribution, then the rest's. */
  lemma KeptCons(entry: (string, ParamValue), rest: Entries<ParamValue>)
    ensures Kept([entry] + rest) == Appended(entry) + Kept(rest)
  {
    HeadTailConcat([entry], rest);
  }

  /** Filtering works entry by entry, so the kept parameters keep their order. */
  lemma {:induction false} KeptConcat(a: Entries<ParamValue>, b: Entries<ParamValue>)
    ensures Kept(a + b) == Kept(a) + Kept(b)
  {
    if a == [] {
      assert a + b == b;
    } else {
      var rest := a[1..];
      HeadTail(a);
      ConcatAssoc([a[0]], rest, b);
      KeptConcat(rest, b);
      KeptCons(a[0], rest + b);
      KeptCons(a[0], rest);
      ConcatAssoc(Appended(a[0]), Kept(rest), Kept(b));
    }
  }

  /** A single parameter is kept, as its text, unless it is undefined, null or `''`. */
  lemma KeptOne(k: string, v: ParamValue)
    ensures Kept([(k, v)]) == if Dropped(v) then [] else [(k, Text(v))]
  {
    assert [(k, v)][1..] == [];
  }

  /** One more entry of the loop adds its contribution at the end. */
  lemma KeptStep(params: Entries<ParamValue>, i: nat)
    requires i < |params|
    ensures Kept(params[..i + 1]) == Kept(params[..i]) + Appended(params[i])
  {
    PrefixStep(params, i);
    KeptConcat(params[..i], [params[i]]);
    KeptOne(params[i].0, params[i].1);
  }

  /** Nothing survives exactly when every value is undefined, null or `''`. */
  lemma {:induction false} KeptEmptyIff(params: Entries<ParamValue>)
    ensures Kept(params) == [] <==> forall i :: 0 <= i < |params| ==> Dropped(params[i].1)
  {
    if params != [] {
      KeptEmptyIff(params[1..]);
      assert forall i :: 1 <= i < |params| ==> params[i] == params[1..][i - 1];
    }
  }

  /** Falsy values other than `''` are kept: `0` and `false` go out as text. */
  lemma ZeroAndFalseKept()
    ensures Kept([("page", Num(0)), ("done", Bool(false))]) == [("page", "0"), ("done", "false")]
  {
    KeptConcat([("page", Num(0))], [("done", Bool(false))]);
    KeptOne("page", Num(0));
    KeptOne("done", Bool(false));
    assert [("page", Num(0)), ("done", Bool(false))] == [("page", Num(0))] + [("done", Bool(false))];
    assert NatDigits(0) == "0";
  }

  /** `queryParams.toString()`: each pair as `key=value` through the form encoding
      `enc`, joined by `&`. */
  function Serialize(pairs: seq<(string, string)>, enc: string -> string): (q: string)
    ensures q == "" <==> pairs == []
  {
    if pairs == [] then []
    else
      var field := enc(pairs[0].0) + "=" + enc(pairs[0].1);
      assert field[|enc(pairs[0].0)|] == '=';
      if |pairs| == 1 then field else field + "&" + Serialize(pairs[1..], enc)
  }

  /** `taskAPI.getTasks(params)`: appends every surviving parameter to the buffer, then
      requests `/tasks`, followed by `?` and the query when there is one. */
  method GetTasksPath(params: Entries<ParamValue>, enc: string -> string) returns (path: string)
    ensures path == "/tasks" <==> Kept(params) == []
    ensures Kept(params) != [] ==> path == "/tasks?" + Serialize(Kept(params), enc)
  {
    var queryParams: seq<(string, string)> := [];
    var i := 0;
    while i < |params|
      invariant 0 <= i <= |params|
      invariant queryParams == Kept(params[..i])
    {
      var (key, value) := params[i];
      if value != Undefined && value != Null && value != Str("") {
        queryParams := queryParams + [(key, Text(value))];
      }
      KeptStep(params, i);
      i := i + 1;
    }
    assert params[..|params|] == params;
    var queryString := Serialize(queryParams, enc);
    if queryString != "" {
      path := "/tasks?" + queryString;
      assert |path| > 6;
    } else {
      path := "/tasks";
    }
  }

  /** `` `/tasks/${id}` ``, the path of `getTask`, `updateTask` and `deleteTask`; an
      absent id is rendered as `undefined`. */
  function TaskPath(id: Option<string>): (p: string)
    ensures |p| >= 7 && p[..7] == "/tasks/"
    ensures id.Some? ==> p[7..] == id.value
    ensures id.None? ==> p[7..] == "undefined"
  {
    "/tasks/" + (if id.Some? then id.value else "undefined")
  }

  /** Different ids give different paths, except that an absent id gives the path of
      the id `"undefined"`. */
  lemma TaskPathInjective(a: Option<string>, b: Option<string>)
    ensures TaskPath(a) == TaskPath(b) <==> a == b || {a, b} == {None, Some("undefined")}
  {
    if TaskPath(a) == TaskPath(b) {
      assert TaskPath(a)[7..] == TaskPath(b)[7..];
    }
  }

  /** The browser's `localStorage`, as its map of keys to stored strings. */
  class Storage {
    var items: map<string, string>

    constructor (init: map<string, string>)
      ensures items == init
    {
      items := init;
    }

    /** `localStorage.getItem(key)`: the stored string, or null. */
    function GetItem(key: string): (r: Option<string>)
      reads this
      ensures r.Some? <==> key in items
      ensures r.Some? ==> r.value == items[key]
    {
      if key in items then Some(items[key]) else None
    }

    /** `localStorage.removeItem(key)`. */
    method RemoveItem(key: string)
      modifies this
      ensures items == old(items) - {key}
    {
      items := items - {key};
    }
  }

  /** The headers of an outgoing request's `config`. */
  class RequestConfig {
    var headers: map<string, string>

    constructor (init: map<string, string>)
      ensures headers == init
    {
      headers := init;
    }
  }

  /** A truthy token is stored. */
  predicate HasToken(stored: map<string, string>) {
    "token" in stored && stored["token"] != ""
  }

  /** The headers a request leaves with: `Authorization: Bearer <token>` when a
      token is stored, every other header as the caller set it, and nothing else. */
  function WithToken(headers: map<string, string>, stored: map<string, string>): (h: map<string, string>)
    ensures HasToken(stored) ==> "Authorization" in h && h["Authorization"] == "Bearer " + stored["token"]
    ensures !HasToken(stored) ==> h == headers
    ensures forall k :: k in headers && k != "Authorization" ==> k in h && h[k] == headers[k]
    ensures h.Keys <= headers.Keys + {"Authorization"}
  {
    if HasToken(stored) then headers["Authorization" := "Bearer " + stored["token"]] else headers
  }

  /** The request interceptor: reads the token and, if it is truthy, sets the header. */
  method AttachToken(config: RequestConfig, storage: Storage)
    modifies config
    ensures config.headers == WithToken(old(config.headers), storage.items)
  {
    var token := storage.GetItem("token");
    if token.Some? && token.value != "" {
      config.headers := config.headers["Authorization" := "Bearer " + token.value];
    }
  }

  /** A failed request as the response interceptor sees it: the response status, if
      there was a response. */
  datatype ApiError = ApiError(status: Option<int>)

  /** The response interceptor's error path: a 401 removes `token` and `user`; every
      error is passed on as the rejection. */
  method OnResponseError(storage: Storage, error: ApiError) returns (rejection: ApiError)
    modifies storage
    ensures rejection == error
    ensures storage.items == if error.status == Some(401) then old(storage.items) - {"token", "user"} else old(storage.items)
  {
    if error.status == Some(401) {
      storage.RemoveItem("token");
      storage.RemoveItem("user");
    }
    rejection := error;
  }

  /** After a 401 has cleared the credentials, requests carry no bearer header. */
  lemma NoTokenAfterUnauthorized(headers: map<string, string>, stored: map<string, string>)
    ensures WithToken(headers, stored - {"token", "user"}) == headers
  {
  }
}
