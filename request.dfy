/**
 * The page's one request function: it appends the non-empty query parameters to a
 * URL under a fixed API base, takes the outcome of the HTTP exchange, and turns
 * every failure into an error whose message carries one fixed prefix.
 *
 * The exchange itself (fetch, the network, parsing the body) is an input: an
 * `Exchange<T>` says what came back, with `T` the shape of the body's `data` member
 * that the caller reads.
 */
module Request {
  import opened Wrappers
  import opened Text

  const ApiBase := "https://server-nasa.onrender.com/api/nasa"
  const ErrorPrefix := "Error en la petición: "

  /** A query-parameter value as a JavaScript caller may pass it. */
  datatype ParamValue = Null | Undefined | Bool(b: bool) | Number(n: int) | Str(s: string)

  /** A parameter, in the order `Object.keys` lists it. */
  type Param = (string, ParamValue)

  /** The URL a request goes to: the base plus the endpoint, and the query pairs. */
  datatype Url = Url(href: string, query: seq<(string, string)>)

  /** A parameter is sent unless its value is null or the empty string. */
  predicate Kept(v: ParamValue) {
    v != Null && v != Str("")
  }

  /** The text `searchParams.append` stores for a value. */
  function Serialize(v: ParamValue): (r: string)
    ensures r == "" <==> v == Str("")
    ensures v.Str? ==> r == v.s
    ensures v.Number? && v.n >= 0 ==> AllDigits(r) && DecimalValue(r) == v.n && (|r| > 1 ==> r[0] != '0')
    ensures v.Number? && v.n < 0 ==>
      |r| >= 2 && r[0] == '-' && AllDigits(r[1..]) && DecimalValue(r[1..]) == -v.n && (|r| > 2 ==> r[1] != '0')
  {
    match v
    case Null => "null"
    case Undefined => "undefined"
    case Bool(b) => if b then "true" else "false"
    case Number(n) => IntToDecimal(n)
    case Str(s) => s
  }

  /** The query pairs sent for `params`: the kept ones, serialized, in order. */
  function KeptQuery(params: seq<Param>): (q: seq<(string, string)>)
    ensures |q| <= |params|
    ensures forall i :: 0 <= i < |q| ==> q[i].1 != ""
  {
    if params == [] then []
    else (if Kept(params[0].1) then [(params[0].0, Serialize(params[0].1))] else [])
         + KeptQuery(params[1..])
  }

  /** Filtering a concatenation filters each part and keeps their order. */
  lemma {:induction false} KeptQueryAppend(a: seq<Param>, b: seq<Param>)
    ensures KeptQuery(a + b) == KeptQuery(a) + KeptQuery(b)
  {
    if a != [] {
      KeptQueryAppend(a[1..], b);
      assert (a + b)[1..] == a[1..] + b;
    } else {
      assert a + b == b;
    }
  }

  /** A single parameter is dropped exactly when its value is null or ''. */
  lemma KeptQuerySingle(k: string, v: ParamValue)
    ensures KeptQuery([(k, v)]) == if v == Null || v == Str("") then [] else [(k, Serialize(v))]
  {
  }

  /** A pair is sent iff some parameter with that key has a kept value that serializes to it. */
  lemma {:induction false} KeptQueryMembers(params: seq<Param>, k: string, s: string)
    ensures (k, s) in KeptQuery(params)
        <==> exists i :: 0 <= i < |params| && params[i].0 == k && Kept(params[i].1)
                         && Serialize(params[i].1) == s
  {
    if params != [] {
      KeptQueryMembers(params[1..], k, s);
      if (k, s) in KeptQuery(params[1..]) {
        var i :| 0 <= i < |params[1..]| && params[1..][i].0 == k && Kept(params[1..][i].1)
                 && Serialize(params[1..][i].1) == s;
        assert params[i + 1] == params[1..][i];
      }
      if exists i :: 0 <= i < |params| && params[i].0 == k && Kept(params[i].1)
                     && Serialize(params[i].1) == s {
        var i :| 0 <= i < |params| && params[i].0 == k && Kept(params[i].1)
                 && Serialize(params[i].1) == s;
        if i > 0 {
          assert params[1..][i - 1] == params[i];
        }
      }
    }
  }

  /**
   * Builds the URL of a request: the base and endpoint, then each parameter whose value
   * is neither null nor '' appended in key order.
   */
  method BuildUrl(endpoint: string, params: seq<Param>) returns (url: Url)
    ensures url.href == ApiBase + endpoint
    ensures url.query == KeptQuery(params)
  {
    var query: seq<(string, string)> := [];
    var i := 0;
    while i < |params|
      invariant 0 <= i <= |params|
      invariant query == KeptQuery(params[..i])
    {
      KeptQueryAppend(params[..i], [params[i]]);
      assert params[..i + 1] == params[..i] + [params[i]];
      if Kept(params[i].1) {
        query := query + [(params[i].0, Serialize(params[i].1))];
      }
      i := i + 1;
    }
    assert params[..i] == params;
    url := Url(ApiBase + endpoint, query);
  }

  /** The parsed JSON body: `error` is the member read on a failing status, `data` the payload. */
  datatype Body<T> = Malformed(reason: string) | Json(error: Option<string>, data: T)

  /** What came back from `fetch`: it rejected, or a response with its status and body. */
  datatype Exchange<T> =
    | NetworkFailure(reason: string)
    | Response(ok: bool, status: nat, body: Body<T>)

  /** The part of a failure message after the prefix: the server's message, else the status. */
  function StatusDetail(error: Option<string>, status: nat): (d: string)
    ensures Truthy(error) ==> d == error.value
    ensures !Truthy(error) ==> d == "HTTP " + NatToDecimal(status)
  {
    OrElse(error, "HTTP " + NatToDecimal(status))
  }

  /**
   * The outcome of the request. A transport or parse failure, and a non-ok status,
   * all fail with the same prefix; the error thrown for a non-ok status is caught by
   * the same handler and so is prefixed exactly once.
   */
  function Outcome<T>(exchange: Exchange<T>): (r: Result<T, string>)
    ensures r.Success? <==> exchange.Response? && exchange.ok && exchange.body.Json?
    ensures r.Success? ==> r.value == exchange.body.data
    ensures r.Failure? ==> |r.error| >= |ErrorPrefix| && r.error[..|ErrorPrefix|] == ErrorPrefix
    ensures exchange.NetworkFailure? ==> r.error == ErrorPrefix + exchange.reason
    ensures exchange.Response? && exchange.body.Malformed? ==> r.error == ErrorPrefix + exchange.body.reason
    ensures exchange.Response? && !exchange.ok && exchange.body.Json? ==>
              r.error == ErrorPrefix + StatusDetail(exchange.body.error, exchange.status)
  {
    match exchange
    case NetworkFailure(reason) => Failure(ErrorPrefix + reason)
    case Response(ok, status, body) =>
      match body
      case Malformed(reason) => Failure(ErrorPrefix + reason)
      case Json(error, data) =>
        if ok then Success(data) else Failure(ErrorPrefix + StatusDetail(error, status))
  }

  /**
   * When a parsed response fails without a usable server message, the status code can
   * be read back from the message.
   */
  lemma StatusRecoverable<T>(status: nat, error: Option<string>, data: T)
    requires !Truthy(error)
    ensures var m := Outcome(Response(false, status, Json(error, data))).error;
      var digits := m[|ErrorPrefix| + 5..];
      && m[..|ErrorPrefix| + 5] == ErrorPrefix + "HTTP "
      && AllDigits(digits) && DecimalValue(digits) == status
  {
    var m := Outcome(Response(false, status, Json(error, data))).error;
    assert m == ErrorPrefix + "HTTP " + NatToDecimal(status);
    assert m[|ErrorPrefix| + 5..] == NatToDecimal(status);
    DecimalRoundTrip(status);
  }

  /** `makeRequest(endpoint, params)`: the URL it fetches and the outcome it settles with. */
  method MakeRequest<T>(endpoint: string, params: seq<Param>, exchange: Exchange<T>)
    returns (url: Url, outcome: Result<T, string>)
    ensures url.href == ApiBase + endpoint && url.query == KeptQuery(params)
    ensures outcome == Outcome(exchange)
  {
    url := BuildUrl(endpoint, params);
    outcome := Outcome(exchange);
  }
}
