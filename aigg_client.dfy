/** The market API client: the URL of the market list with its optional
    filters, the URL of one market, and how an HTTP response becomes a
    returned body or a thrown error. The network is the `fetch` parameter. */
module AiggClient {
  import opened Js
  import opened Strings
  import FormUrlencoded

  /** What `fetch` settles to: a response with its status flag, status
      text and the outcome of reading its body as JSON, or a rejection. */
  datatype Response<T> = Response(ok: bool, statusText: string, json: Result<T>) | NetworkError(message: string)

  /** The `try { … } catch (error) { throw error }` around each request. */
  function Settle<T>(response: Response<T>): (r: Result<T>)
    ensures r.Ok? <==> response.Response? && response.ok && response.json.Ok?
    ensures response.Response? && response.ok ==> r == response.json
    ensures response.Response? && !response.ok ==> r == Err("API request failed: " + response.statusText)
    ensures response.NetworkError? ==> r == Err(response.message)
  {
    match response
    case NetworkError(message) => Err(message)
    case Response(ok, statusText, json) =>
      if !ok then Err("API request failed: " + statusText) else json
  }

  const MaxSafeInteger := 9007199254740991

  /** The integers a JavaScript number holds exactly; `toString` prints each of them as
      plain decimal digits, with a minus sign before negatives. */
  type SafeInteger = n: int | -MaxSafeInteger <= n <= MaxSafeInteger

  /** The optional filters of the market list; None is `undefined`. */
  datatype MarketFilter = MarketFilter(active: Option<bool>, includeClosed: Option<bool>, limit: Option<SafeInteger>)

  function Param(name: string, value: Option<string>): seq<(string, string)> {
    if value.Some? then [(name, value.value)] else []
  }

  function BoolParam(name: string, value: Option<bool>): seq<(string, string)> {
    Param(name, if value.Some? then Some(BoolToString(value.value)) else None)
  }

  /** The query tuples: `active`, `include_closed`, `limit`, in that order, each only when defined. */
  function QueryTuples(filter: MarketFilter): (tuples: seq<(string, string)>)
    ensures |tuples| <= 3
    ensures forall k :: 0 <= k < |tuples| ==>
      tuples[k].0 == "active" || tuples[k].0 == "include_closed" || tuples[k].0 == "limit"
  {
    BoolParam("active", filter.active)
    + BoolParam("include_closed", filter.includeClosed)
    + Param("limit", if filter.limit.Some? then Some(IntToString(filter.limit.value)) else None)
  }

  /** The list URL: the base, the `/markets?` path, and a query that parses back to the tuples. */
  function MarketsUrl(baseUrl: string, filter: MarketFilter): (url: string)
    ensures OccursAt(url, baseUrl + "/markets?", 0)
    ensures FormUrlencoded.Parse(url[|baseUrl + "/markets?"|..]) == QueryTuples(filter)
  {
    QueryRoundTrip(filter);
    var url := baseUrl + "/markets?" + FormUrlencoded.Serialize(QueryTuples(filter));
    assert url[|baseUrl + "/markets?"|..] == FormUrlencoded.Serialize(QueryTuples(filter));
    url
  }

  /** The single-market URL: the base, the `/markets/` path and the id, unencoded. */
  function MarketUrl(baseUrl: string, marketId: string): (url: string)
    ensures OccursAt(url, baseUrl + "/markets/", 0)
    ensures url[|baseUrl + "/markets/"|..] == marketId
  {
    var url := baseUrl + "/markets/" + marketId;
    assert url[|baseUrl + "/markets/"|..] == marketId;
    url
  }

  /** `URLSearchParams.prototype.get`: the value of the first tuple with that name. */
  function Get(tuples: seq<(string, string)>, name: string): Option<string> {
    if |tuples| == 0 then None
    else if tuples[0].0 == name then Some(tuples[0].1)
    else Get(tuples[1..], name)
  }

  /** The filter a server reads back from the query tuples; a limit this client cannot
      send (outside the safe integers) reads as absent. */
  function FilterOf(tuples: seq<(string, string)>): MarketFilter {
    var active := Get(tuples, "active");
    var includeClosed := Get(tuples, "include_closed");
    var limit := Get(tuples, "limit");
    MarketFilter(
      if active.Some? then Some(active.value == "true") else None,
      if includeClosed.Some? then Some(includeClosed.value == "true") else None,
      if limit.Some? && -MaxSafeInteger <= ParseInt(limit.value) <= MaxSafeInteger then Some(ParseInt(limit.value)) else None)
  }

  /** Each parameter appears exactly when its field is defined, in the fixed order,
      carrying `true`/`false` or the decimal digits of the limit. */
  lemma QueryTuplesShape(filter: MarketFilter)
    ensures |QueryTuples(filter)| == (if filter.active.Some? then 1 else 0)
      + (if filter.includeClosed.Some? then 1 else 0) + (if filter.limit.Some? then 1 else 0)
    ensures filter.active.Some? ==> QueryTuples(filter)[0] == ("active", BoolToString(filter.active.value))
    ensures filter.limit.Some? ==> QueryTuples(filter)[|QueryTuples(filter)| - 1] == ("limit", IntToString(filter.limit.value))
    ensures filter.includeClosed.Some? ==>
      QueryTuples(filter)[if filter.active.Some? then 1 else 0] == ("include_closed", BoolToString(filter.includeClosed.value))
  {
  }

  lemma IntToStringUnreserved(n: int)
    ensures FormUrlencoded.AllUnreserved(IntToString(n))
  {
    if n >= 0 {
      assert IntToString(n) == NatToString(n);
    } else {
      var s := NatToString(-n);
      assert IntToString(n) == "-" + s;
      assert forall k :: 0 <= k < |s| ==> IsDigit(s[k]);
    }
  }

  lemma {:induction false} GetAfter(front: seq<(string, string)>, back: seq<(string, string)>, name: string)
    requires forall k :: 0 <= k < |front| ==> front[k].0 != name
    ensures Get(front + back, name) == Get(back, name)
  {
    if |front| > 0 {
      assert (front + back)[0] == front[0];
      assert (front + back)[1..] == front[1..] + back;
      GetAfter(front[1..], back, name);
    } else {
      assert front + back == back;
    }
  }

  lemma QueryTuplesUnreserved(filter: MarketFilter)
    ensures forall k :: 0 <= k < |QueryTuples(filter)| ==>
      FormUrlencoded.AllUnreserved(QueryTuples(filter)[k].0) && FormUrlencoded.AllUnreserved(QueryTuples(filter)[k].1)
  {
    if filter.limit.Some? {
      IntToStringUnreserved(filter.limit.value);
    }
  }

  lemma FilterOfQueryTuples(filter: MarketFilter)
    ensures FilterOf(QueryTuples(filter)) == filter
  {
    var a := BoolParam("active", filter.active);
    var c := BoolParam("include_closed", filter.includeClosed);
    var l := Param("limit", if filter.limit.Some? then Some(IntToString(filter.limit.value)) else None);
    assert QueryTuples(filter) == a + (c + l);
    if filter.active.None? {
      GetAfter(c + l, [], "active");
      assert c + l + [] == c + l;
    }
    GetAfter(a, c + l, "include_closed");
    assert Get(c + l, "include_closed") == if filter.includeClosed.Some? then Some(BoolToString(filter.includeClosed.value)) else None;
    assert QueryTuples(filter) == (a + c) + l;
    GetAfter(a + c, l, "limit");
    if filter.limit.Some? {
      ParseIntToString(filter.limit.value);
    }
  }

  /** The query string is the plain `name=value&…` join, and reading it back gives the filter. */
  lemma QueryRoundTrip(filter: MarketFilter)
    ensures FormUrlencoded.Serialize(QueryTuples(filter)) == Join(FormUrlencoded.PlainEntries(QueryTuples(filter)), "&")
    ensures FormUrlencoded.Parse(FormUrlencoded.Serialize(QueryTuples(filter))) == QueryTuples(filter)
    ensures FilterOf(FormUrlencoded.Parse(FormUrlencoded.Serialize(QueryTuples(filter)))) == filter
  {
    QueryTuplesUnreserved(filter);
    FormUrlencoded.SerializeUnreserved(QueryTuples(filter));
    FilterOfQueryTuples(filter);
  }

  /** With no filter the URL still carries the `?`. */
  lemma UnfilteredUrl(baseUrl: string)
    ensures MarketsUrl(baseUrl, MarketFilter(None, None, None)) == baseUrl + "/markets?"
  {
  }

  /** A `URLSearchParams` object: the list of tuples that `append` extends. */
  class SearchParams {
    var tuples: seq<(string, string)>

    constructor ()
      ensures tuples == []
    {
      tuples := [];
    }

    method Append(name: string, value: string)
      modifies this
      ensures tuples == old(tuples) + [(name, value)]
    {
      tuples := tuples + [(name, value)];
    }

    function ToString(): string
      reads this
    {
      FormUrlencoded.Serialize(tuples)
    }
  }

  class AIGGClient {
    /** Read from the configuration once, at construction. */
    const baseUrl: string

    constructor (configuredUrl: string)
      ensures baseUrl == configuredUrl
    {
      baseUrl := configuredUrl;
    }

    method GetMarkets<T>(params: MarketFilter, fetch: string -> Response<T>) returns (r: Result<T>)
      ensures r == Settle(fetch(MarketsUrl(baseUrl, params)))
    {
      var queryParams := new SearchParams();
      if params.active.Some? {
        queryParams.Append("active", BoolToString(params.active.value));
      }
      assert queryParams.tuples == BoolParam("active", params.active);
      if params.includeClosed.Some? {
        queryParams.Append("include_closed", BoolToString(params.includeClosed.value));
      }
      assert queryParams.tuples == BoolParam("active", params.active) + BoolParam("include_closed", params.includeClosed);
      if params.limit.Some? {
        queryParams.Append("limit", IntToString(params.limit.value));
      }
      assert queryParams.tuples == QueryTuples(params);
      var response := fetch(baseUrl + "/markets?" + queryParams.ToString());
      r := Settle(response);
    }

    method GetMarket<T>(marketId: string, fetch: string -> Response<T>) returns (r: Result<T>)
      ensures r == Settle(fetch(MarketUrl(baseUrl, marketId)))
    {
      var response := fetch(baseUrl + "/markets/" + marketId);
      r := Settle(response);
    }
  }
}
