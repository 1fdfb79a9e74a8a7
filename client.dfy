/** The `Zencoder` client object: construction with key validation, and `_request`, which
    updates the object's header table in place before handing the request to the transport. */
module Client {
  import opened Js
  import opened Dispatch
  import opened Response
  import opened Endpoints

  /** The error thrown by the constructor for a key of the wrong length. */
  const HashError: JsValue := Err("Error", "API Key must be a valid hash!")

  /** The constructor's guard: the exception it throws for `apiKey`, or `None` when the key is
      accepted. The `typeof(typeof key)` test is always `"string"`, so only `key.length !== 32`
      decides; reading the length of `null` or `undefined` throws a TypeError instead. */
  function KeyCheck(apiKey: JsValue): (r: Option<JsValue>)
    ensures r.None? <==> LengthOf(apiKey) == Normal(Num(32))
    ensures r.Some? && !Nullish(apiKey) ==> r.value == HashError
    ensures Nullish(apiKey) ==> r == Some(CannotReadLength(apiKey))
  {
    if TypeOf(Str(TypeOf(apiKey))) != "string" then Some(HashError)
    else
      match LengthOf(apiKey)
      case Throw(e) => Some(e)
      case Normal(len) => if len != Num(32) then Some(HashError) else None
  }

  /** A string key is accepted exactly when it has 32 characters; otherwise the hash error. */
  lemma StringKeyCheck(key: string)
    ensures KeyCheck(Str(key)).None? <==> |key| == 32
    ensures |key| != 32 ==> KeyCheck(Str(key)) == Some(HashError)
  {
  }

  /** The string test is vacuous: any value whose `length` is 32 passes, an array included. */
  lemma NonStringKeyAccepted(elems: seq<JsValue>)
    requires |elems| == 32
    ensures KeyCheck(Arr(elems)).None?
  {
  }

  /** The outcome of one `_request` call: an exception thrown synchronously, or the options
      sent to the transport together with how the returned promise settles. */
  datatype CallResult = Threw(exception: JsValue) | Sent(options: Options, settlement: Settlement)

  /** The transport's answer to one request: its error argument, the status code and the
      response body text. */
  datatype Reply = Reply(error: JsValue, statusCode: int, body: string)

  class Zencoder {
    const apiKey: JsValue
    const baseUrl: string
    var headers: HeaderMap
    /** The `_request` calls made so far, in order. */
    ghost var history: seq<Request>

    ghost predicate Valid()
      reads this
    {
      && KeyCheck(apiKey).None?
      && baseUrl == BaseUrl
      && headers == Replay(BaseHeaders(), apiKey, baseUrl, history)
    }

    constructor (apiKey: JsValue)
      requires KeyCheck(apiKey).None?
      ensures Valid()
      ensures this.apiKey == apiKey && baseUrl == BaseUrl && headers == BaseHeaders() && history == []
    {
      this.apiKey := apiKey;
      baseUrl := BaseUrl;
      headers := BaseHeaders();
      history := [];
    }

    /** `new Zencoder(apiKey)`: throws for a rejected key, and otherwise yields a client holding
        the key, the fixed base URL and exactly the three base headers. */
    static method New(apiKey: JsValue) returns (r: Completion<Zencoder>)
      ensures r.Throw? <==> KeyCheck(apiKey).Some?
      ensures r.Throw? ==> r.exception == KeyCheck(apiKey).value
      ensures r.Normal? ==>
        && fresh(r.value) && r.value.Valid() && r.value.apiKey == apiKey
        && r.value.baseUrl == BaseUrl && r.value.headers == BaseHeaders() && r.value.history == []
    {
      var check := KeyCheck(apiKey);
      if check.Some? {
        r := Throw(check.value);
      } else {
        var client := new Zencoder(apiKey);
        r := Normal(client);
      }
    }

    /** `_request(verb, path, body)` up to the transport call: merges the key into the table,
        captures the table as the headers to send, then either merges Content-Length (non-GET)
        or deletes it from the captured table itself (GET). */
    method PrepareRequest(verb: string, path: string, body: JsValue) returns (r: Completion<Options>)
      requires Valid()
      modifies this
      ensures Valid()
      ensures history == old(history) + [Request(verb, path, body)]
      ensures Prepared(headers, r) == Prepare(old(headers), apiKey, baseUrl, Request(verb, path, body))
      ensures ApiKeyHeader in headers && headers[ApiKeyHeader] == apiKey
      ensures forall k :: k in BaseHeaders() ==> k in headers && headers[k] == BaseHeaders()[k]
    {
      headers := Extend(ApiKeyHeader, apiKey, headers);
      var sent := headers;
      var uri := baseUrl + path;
      if verb != "GET" {
        var length := LengthOf(body);
        if length.Throw? {
          r := Throw(length.exception);
        } else {
          headers := Extend(ContentLength, length.value, headers);
          r := Normal(Options(uri, sent, verb, Some(body)));
        }
      } else {
        // `options.headers` and the table are one object here, so both lose the entry
        headers := headers - {ContentLength};
        r := Normal(Options(uri, headers, verb, None));
      }
      ReplayAppend(BaseHeaders(), apiKey, baseUrl, history, Request(verb, path, body));
      history := history + [Request(verb, path, body)];
      KeyPersists(apiKey, baseUrl, history);
    }

    /** The whole `_request`: prepare, hand the options to the transport, whose answer is
        `reply`, and classify that answer. */
    method Send(verb: string, path: string, body: JsValue, reply: Reply, parse: string -> ParseResult)
      returns (r: CallResult)
      requires Valid()
      modifies this
      ensures Valid()
      ensures history == old(history) + [Request(verb, path, body)]
      ensures var p := Prepare(old(headers), apiKey, baseUrl, Request(verb, path, body));
        && headers == p.headers
        && (p.result.Throw? ==> r == Threw(p.result.exception))
        && (p.result.Normal? ==> r == Sent(p.result.value, Classify(reply.error, reply.statusCode, reply.body, parse)))
    {
      var prepared := PrepareRequest(verb, path, body);
      match prepared
      case Throw(e) => r := Threw(e);
      case Normal(options) =>
        r := Sent(options, Classify(reply.error, reply.statusCode, reply.body, parse));
    }

    /** Calling an endpoint method: its wrapper's arguments go to `_request`. */
    method Invoke(c: Call, reply: Reply, parse: string -> ParseResult) returns (r: CallResult)
      requires Valid()
      modifies this
      ensures Valid()
      ensures history == old(history) + [Route(c)]
      ensures var p := Prepare(old(headers), apiKey, baseUrl, Route(c));
        && headers == p.headers
        && (p.result.Throw? ==> r == Threw(p.result.exception))
        && (p.result.Normal? ==> r == Sent(p.result.value, Classify(reply.error, reply.statusCode, reply.body, parse)))
      ensures IsBodylessPut(c) ==> r == Threw(CannotReadLength(Undefined))
      ensures r.Sent? ==> r.options.uri == BaseUrl + Route(c).path && r.options.verb == Route(c).verb
    {
      var req := Route(c);
      r := Send(req.verb, req.path, req.body, reply, parse);
    }
  }
}
