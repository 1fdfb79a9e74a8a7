/** Request preparation in the Zencoder client: how one call evolves the client's header
    table and which request options it hands to the transport, and what a whole history
    of calls leaves in the table. */
module Dispatch {
  import opened Js

  /** A header table: header name to the JavaScript value stored under it. */
  type HeaderMap = map<string, JsValue>

  const BaseUrl: string := "https://app.zencoder.com/api/v2"
  const ApiKeyHeader: string := "Zencoder-Api-Key"
  const ContentLength: string := "Content-Length"

  /** The header table a freshly constructed client holds. */
  function BaseHeaders(): (h: HeaderMap)
    ensures h.Keys == {"Content-Type", "User-Agent", "Accept"}
    ensures ApiKeyHeader !in h && ContentLength !in h
  {
    map["Content-Type" := Str("application/json"),
        "User-Agent" := Str("zencoder-promises"),
        "Accept" := Str("application/json")]
  }

  /** `_.extend({name: value}, target)`: a fresh table holding `name: value`, onto which every
      entry of `target` is copied, so an entry already in `target` wins over the new one. */
  function Extend(name: string, value: JsValue, target: HeaderMap): (r: HeaderMap)
    ensures r.Keys == target.Keys + {name}
    ensures forall k :: k in target ==> r[k] == target[k]
    ensures name !in target ==> r[name] == value
  {
    map[name := value] + target
  }

  /** The arguments of one `_request(method, path, body)` call; an absent body is `Undefined`. */
  datatype Request = Request(verb: string, path: string, body: JsValue)

  /** The options object handed to the transport. `body` is the value whose JSON text is
      sent (the serialisation itself is not modelled); `None` when no body is attached. */
  datatype Options = Options(uri: string, headers: HeaderMap, verb: string, body: Option<JsValue>)

  /** What one call leaves behind: the client's new header table, and either the options
      passed to the transport or the exception thrown before the transport was reached. */
  datatype Prepared = Prepared(headers: HeaderMap, result: Completion<Options>)

  predicate IsGet(req: Request) {
    req.verb == "GET"
  }

  /** A call that reaches the `Content-Length` merge: a non-GET whose body has a `length`
      property that can be read. */
  predicate SetsLength(req: Request) {
    !IsGet(req) && !Nullish(req.body)
  }

  /** One `_request` call on a client with header table `headers`, key `apiKey` and base URL
      `baseUrl`, up to the point where the transport is invoked. */
  function Prepare(headers: HeaderMap, apiKey: JsValue, baseUrl: string, req: Request): (p: Prepared)
    // the API key is added once and never replaced
    ensures ApiKeyHeader in p.headers
    ensures p.headers[ApiKeyHeader] == if ApiKeyHeader in headers then headers[ApiKeyHeader] else apiKey
    // every other header already present keeps its value; at most the key and Content-Length appear
    ensures forall k :: k in headers && k != ContentLength ==> k in p.headers && p.headers[k] == headers[k]
    ensures forall k :: k in p.headers ==> k in headers || k == ApiKeyHeader || k == ContentLength
    // GET: Content-Length is deleted from the table, which is also the table sent; no body
    ensures IsGet(req) ==> ContentLength !in p.headers
    ensures IsGet(req) ==> p.result == Normal(Options(baseUrl + req.path, p.headers, req.verb, None))
    // non-GET: Content-Length is added only when absent, from the unserialised body's length
    ensures !IsGet(req) ==> (ContentLength in p.headers <==> ContentLength in headers || SetsLength(req))
    ensures !IsGet(req) && ContentLength in headers ==> p.headers[ContentLength] == headers[ContentLength]
    ensures SetsLength(req) && ContentLength !in headers ==> p.headers[ContentLength] == LengthOf(req.body).value
    // non-GET without a body: reading `body.length` throws, after the key merge
    ensures !IsGet(req) && Nullish(req.body) ==> p.result == Throw(CannotReadLength(req.body))
    // non-GET with a body: the headers sent are the table before the Content-Length merge
    ensures SetsLength(req) ==> p.result.Normal?
    ensures SetsLength(req) ==>
      var o := p.result.value;
      && o.uri == baseUrl + req.path && o.verb == req.verb && o.body == Some(req.body)
      && (ContentLength in o.headers <==> ContentLength in headers)
      && (ContentLength in o.headers ==> o.headers[ContentLength] == headers[ContentLength])
      && forall k :: k != ContentLength ==> (k in o.headers <==> k in p.headers) && (k in o.headers ==> o.headers[k] == p.headers[k])
  {
    var keyed := Extend(ApiKeyHeader, apiKey, headers);
    var uri := baseUrl + req.path;
    if !IsGet(req) then
      match LengthOf(req.body)
      case Throw(e) => Prepared(keyed, Throw(e))
      case Normal(len) => Prepared(Extend(ContentLength, len, keyed), Normal(Options(uri, keyed, req.verb, Some(req.body))))
    else
      var cleared := keyed - {ContentLength};
      Prepared(cleared, Normal(Options(uri, cleared, req.verb, None)))
  }

  /** The header table after the calls `reqs`, made one after another from table `headers`. */
  function Replay(headers: HeaderMap, apiKey: JsValue, baseUrl: string, reqs: seq<Request>): (r: HeaderMap)
    // after any call the key header is present, holding the first value it ever had
    ensures reqs != [] ==> ApiKeyHeader in r
    ensures reqs != [] ==> r[ApiKeyHeader] == if ApiKeyHeader in headers then headers[ApiKeyHeader] else apiKey
    // no header other than Content-Length is ever removed or replaced
    ensures forall k :: k in headers && k != ContentLength ==> k in r && r[k] == headers[k]
    // and no header other than the key and Content-Length ever enters it
    ensures forall k :: k in r ==> k in headers || k == ApiKeyHeader || k == ContentLength
    decreases |reqs|
  {
    if reqs == [] then headers
    else Replay(Prepare(headers, apiKey, baseUrl, reqs[0]).headers, apiKey, baseUrl, reqs[1..])
  }

  lemma {:induction false} ReplayAppend(headers: HeaderMap, apiKey: JsValue, baseUrl: string, reqs: seq<Request>, req: Request)
    ensures Replay(headers, apiKey, baseUrl, reqs + [req])
         == Prepare(Replay(headers, apiKey, baseUrl, reqs), apiKey, baseUrl, req).headers
    decreases |reqs|
  {
    if reqs == [] {
      assert [req][1..] == [];
    } else {
      var next := Prepare(headers, apiKey, baseUrl, reqs[0]).headers;
      assert (reqs + [req])[0] == reqs[0];
      assert (reqs + [req])[1..] == reqs[1..] + [req];
      ReplayAppend(next, apiKey, baseUrl, reqs[1..], req);
    }
  }

  // ---------------------------------------------------------------------------
  // The key and the base headers persist

  /** The table holds `apiKey` under the key header and every base header unchanged. */
  ghost predicate Established(headers: HeaderMap, apiKey: JsValue) {
    && ApiKeyHeader in headers && headers[ApiKeyHeader] == apiKey
    && forall k :: k in BaseHeaders() ==> k in headers && headers[k] == BaseHeaders()[k]
  }

  /** After at least one call on a fresh client, whatever the calls were, the table holds the
      client's own key and the three base headers with their initial values. */
  lemma KeyPersists(apiKey: JsValue, baseUrl: string, reqs: seq<Request>)
    requires reqs != []
    ensures Established(Replay(BaseHeaders(), apiKey, baseUrl, reqs), apiKey)
  {
  }

  // ---------------------------------------------------------------------------
  // Content-Length sticks until the next GET

  /** Index of the last GET in `reqs`, or -1 if there is none. */
  function LastGet(reqs: seq<Request>): (g: int)
    ensures -1 <= g < |reqs|
    ensures g >= 0 ==> IsGet(reqs[g])
    ensures forall i :: g < i < |reqs| ==> !IsGet(reqs[i])
  {
    if reqs == [] then -1
    else if IsGet(reqs[|reqs| - 1]) then |reqs| - 1
    else LastGet(reqs[..|reqs| - 1])
  }

  /** Index of the first call at or after `from` that reaches the Content-Length merge, or -1. */
  function FirstSetter(reqs: seq<Request>, from: nat): (k: int)
    ensures k == -1 || (from <= k < |reqs| && SetsLength(reqs[k]))
    ensures forall i :: from <= i < |reqs| && (k == -1 || i < k) ==> !SetsLength(reqs[i])
    decreases |reqs| - from
  {
    if from >= |reqs| then -1
    else if SetsLength(reqs[from]) then from
    else FirstSetter(reqs, from + 1)
  }

  /** Reference description of the Content-Length left in the table after `reqs`, starting
      from `headers`: if no GET was made, an initial value survives; otherwise it is the
      body length of the first non-GET call with a body after the last GET, if any. */
  function StickyLength(headers: HeaderMap, reqs: seq<Request>): Option<JsValue> {
    var g := LastGet(reqs);
    if g == -1 && ContentLength in headers then Some(headers[ContentLength])
    else
      var k := FirstSetter(reqs, g + 1);
      if k == -1 then None else Some(LengthOf(reqs[k].body).value)
  }

  lemma {:induction false} FirstSetterAppend(reqs: seq<Request>, req: Request, from: nat)
    requires from <= |reqs|
    ensures FirstSetter(reqs + [req], from)
         == if FirstSetter(reqs, from) != -1 then FirstSetter(reqs, from)
            else if SetsLength(req) then |reqs| else -1
    decreases |reqs| - from
  {
    var all := reqs + [req];
    if from == |reqs| {
      assert all[from] == req;
      if !SetsLength(req) {
        assert FirstSetter(all, from) == FirstSetter(all, from + 1);
      }
    } else {
      assert all[from] == reqs[from];
      if !SetsLength(reqs[from]) {
        FirstSetterAppend(reqs, req, from + 1);
      }
    }
  }

  /** How the reference description moves when one more call is appended. */
  lemma StickyLengthStep(headers: HeaderMap, reqs: seq<Request>, req: Request)
    ensures StickyLength(headers, reqs + [req])
         == if IsGet(req) then None
            else if StickyLength(headers, reqs).Some? then StickyLength(headers, reqs)
            else if SetsLength(req) then Some(LengthOf(req.body).value)
            else None
  {
    FirstSetterAppend(reqs, req, LastGet(reqs) + 1);
  }

  /** The Content-Length in the table after any history of calls is exactly the one the
      reference description gives. */
  lemma {:induction false} ContentLengthHistory(headers: HeaderMap, apiKey: JsValue, baseUrl: string, reqs: seq<Request>)
    ensures var h := Replay(headers, apiKey, baseUrl, reqs);
      && (ContentLength in h <==> StickyLength(headers, reqs).Some?)
      && (ContentLength in h ==> h[ContentLength] == StickyLength(headers, reqs).value)
    decreases |reqs|
  {
    if reqs != [] {
      var before, req := reqs[..|reqs| - 1], reqs[|reqs| - 1];
      assert reqs == before + [req];
      ReplayAppend(headers, apiKey, baseUrl, before, req);
      ContentLengthHistory(headers, apiKey, baseUrl, before);
      StickyLengthStep(headers, before, req);
    }
  }

  /** A non-GET call with a body never sends its own Content-Length: it sends the one an
      earlier call left in the table, if any. */
  lemma SentContentLength(headers: HeaderMap, apiKey: JsValue, baseUrl: string, reqs: seq<Request>, req: Request)
    requires SetsLength(req)
    ensures var sent := Prepare(Replay(headers, apiKey, baseUrl, reqs), apiKey, baseUrl, req).result.value.headers;
      && (ContentLength in sent <==> StickyLength(headers, reqs).Some?)
      && (ContentLength in sent ==> sent[ContentLength] == StickyLength(headers, reqs).value)
  {
    ContentLengthHistory(headers, apiKey, baseUrl, reqs);
  }

  /** On a fresh client, the first POST sends no Content-Length, and a second POST sends the
      first one's body length instead of its own. */
  lemma StaleContentLength(apiKey: JsValue, first: JsValue, second: JsValue)
    requires !Nullish(first) && !Nullish(second)
    ensures var p1 := Prepare(BaseHeaders(), apiKey, BaseUrl, Request("POST", "/jobs", first));
      var p2 := Prepare(p1.headers, apiKey, BaseUrl, Request("POST", "/jobs", second));
      && ContentLength !in p1.result.value.headers
      && ContentLength in p2.result.value.headers
      && p2.result.value.headers[ContentLength] == LengthOf(first).value
  {
  }
}
