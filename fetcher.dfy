/** The client's fetch wrapper used by the generated API hooks: query-string
    construction, the request body, and the decision between a returned
    value and a thrown error body. The network call is left out; the
    response's status flag and text are inputs, and `URLSearchParams`'
    component encoding, `JSON.stringify` and `JSON.parse` are parameters
    (`JSON.parse` giving `None` where it throws). */
module Fetcher {
  import opened Wrappers
  import opened Js

  /** The value types a query parameter may have. */
  datatype ParamValue = PStr(s: string) | PBool(b: bool) | PUndefined

  /** A params record, as its `Object.entries` (keys are distinct). */
  type Params = seq<(string, ParamValue)>

  /** `Object.entries(params).filter(([, v]) => v !== undefined)`. */
  function FilterParams(params: Params): (r: Params)
    ensures |r| <= |params|
    ensures forall i :: 0 <= i < |r| ==> !r[i].1.PUndefined?
  {
    if params == [] then []
    else if params[0].1.PUndefined? then FilterParams(params[1..])
    else [params[0]] + FilterParams(params[1..])
  }

  /** Exactly the defined entries are kept: every kept entry is an input
      entry, and every defined input entry is kept. */
  lemma {:induction false} FilterKeepsDefined(params: Params, e: (string, ParamValue))
    ensures e in FilterParams(params) <==> e in params && !e.1.PUndefined?
    decreases |params|
  {
    if params != [] {
      FilterKeepsDefined(params[1..], e);
      assert params == [params[0]] + params[1..];
    }
  }

  /** Filtering keeps the entries' relative order. */
  lemma {:induction false} FilterAppend(a: Params, b: Params)
    ensures FilterParams(a + b) == FilterParams(a) + FilterParams(b)
    decreases |a|
  {
    if a == [] {
      assert a + b == b;
    } else {
      assert (a + b)[0] == a[0] && (a + b)[1..] == a[1..] + b;
      FilterAppend(a[1..], b);
    }
  }

  /** The string `URLSearchParams` stores for a value; booleans are
      converted with `String(v)`. */
  function ParamString(v: ParamValue): (r: string)
    requires !v.PUndefined?
    ensures v.PBool? ==> (r == "true" <==> v.b)
  {
    match v
    case PStr(s) => s
    case PBool(b) => if b then "true" else "false"
  }

  /** `new URLSearchParams(entries).toString()`: the encoded `key=value`
      pairs joined with '&'. */
  function Serialize(entries: Params, encode: string -> string): (r: string)
    requires forall i :: 0 <= i < |entries| ==> !entries[i].1.PUndefined?
    ensures entries == [] <==> r == ""
  {
    if entries == [] then ""
    else
      var pair := encode(entries[0].0) + "=" + encode(ParamString(entries[0].1));
      assert pair[|encode(entries[0].0)|] == '=';
      if |entries| == 1 then pair else pair + "&" + Serialize(entries[1..], encode)
  }

  /** The query suffix: empty without a params object; otherwise '?' and
      the serialised defined entries (the filtered object is truthy even
      when empty). */
  function QuerySuffix(params: Option<Params>, encode: string -> string): (r: string)
    ensures params.None? <==> r == ""
    ensures params.Some? ==> r == "?" + Serialize(FilterParams(params.value), encode)
  {
    if params.None? then "" else "?" + Serialize(FilterParams(params.value), encode)
  }

  /** A params object whose every value is undefined yields just "?". */
  lemma AllUndefinedGivesBareQuestionMark(params: Params, encode: string -> string)
    requires forall i :: 0 <= i < |params| ==> params[i].1.PUndefined?
    ensures QuerySuffix(Some(params), encode) == "?"
  {
    if FilterParams(params) != [] {
      var e := FilterParams(params)[0];
      FilterKeepsDefined(params, e);
    }
  }

  /** The request `fetch` is given. */
  datatype Request = Request(url: string, body: Option<string>)

  /** The URL with its suffix, and a JSON body only for truthy data. */
  function BuildRequest(url: string, params: Option<Params>, data: JsValue,
                        encode: string -> string, stringify: JsValue -> string): (r: Request)
    ensures r.url == url + QuerySuffix(params, encode)
    ensures r.body.Some? <==> Truthy(data)
    ensures r.body.Some? ==> r.body.value == stringify(data)
  {
    Request(url + QuerySuffix(params, encode), if Truthy(data) then Some(stringify(data)) else None)
  }

  /** How the promise settles: resolved with a value, rejected with the error
      body, or rejected with the `SyntaxError` of an OK response whose text is
      not JSON. */
  datatype FetchOutcome = Resolved(value: JsValue) | Rejected(error: JsValue) | RejectedSyntaxError

  /** The response-handling part of `customFetch`. */
  method HandleResponse(ok: bool, text: string, parse: string -> Option<JsValue>) returns (outcome: FetchOutcome)
    ensures !ok ==> outcome.Rejected?
    ensures !ok && parse(text).Some? ==> outcome.error == parse(text).value
    ensures !ok && parse(text).None? ==> outcome.error == Object([("detail", Str(text))])
    ensures ok && text == "" ==> outcome == Resolved(Undefined)
    ensures ok && text != "" && parse(text).Some? ==> outcome == Resolved(parse(text).value)
    ensures ok && text != "" && parse(text).None? ==> outcome == RejectedSyntaxError
  {
    if !ok {
      var errorBody: JsValue;
      var parsed := parse(text);
      if parsed.Some? {
        errorBody := parsed.value;
      } else {
        errorBody := Object([("detail", Str(text))]);
      }
      return Rejected(errorBody);
    }
    if text == "" {
      return Resolved(Undefined);
    }
    var parsed := parse(text);
    if parsed.Some? {
      outcome := Resolved(parsed.value);
    } else {
      outcome := RejectedSyntaxError;
    }
  }

  /** `customFetch` with the response given: the request it issues and how
      it settles. */
  method CustomFetch(url: string, params: Option<Params>, data: JsValue,
                     ok: bool, text: string,
                     encode: string -> string, stringify: JsValue -> string, parse: string -> Option<JsValue>)
    returns (request: Request, outcome: FetchOutcome)
    ensures request == BuildRequest(url, params, data, encode, stringify)
    ensures !ok ==> outcome.Rejected?
    ensures !ok && parse(text).Some? ==> outcome.error == parse(text).value
    ensures !ok && parse(text).None? ==> Get(outcome.error, "detail") == Str(text)
    ensures ok && text == "" ==> outcome == Resolved(Undefined)
    ensures ok && text != "" && parse(text).Some? ==> outcome == Resolved(parse(text).value)
    ensures ok && text != "" && parse(text).None? ==> outcome == RejectedSyntaxError
  {
    request := BuildRequest(url, params, data, encode, stringify);
    outcome := HandleResponse(ok, text, parse);
  }
}
