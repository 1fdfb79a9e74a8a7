/** How the Zencoder client settles the promise it returned, once the transport has answered. */
module Response {
  import opened Js

  /** What `JSON.parse(text)` gives: the parsed value, or the exception it throws. */
  datatype ParseResult = Parsed(value: JsValue) | Unparsable(exception: JsValue)

  /** The single settlement of the returned promise. */
  datatype Settlement = Resolved(value: JsValue) | Rejected(reason: JsValue)

  /** The error created for any status other than 200, 201 and 404. */
  const UnknownError: JsValue := Err("Error", "Unknown Error!")

  /** The transport callback: `error` is what the transport reported (falsy on success),
      `statusCode` and `body` describe the response, and `parse` stands for `JSON.parse`,
      whose workings are not modelled. First match wins. */
  function Classify(error: JsValue, statusCode: int, body: string, parse: string -> ParseResult): (s: Settlement)
    // a transport failure rejects with that failure
    ensures Truthy(error) ==> s == Rejected(error)
    // 404 rejects with the transport's own error value, which is falsy there (null in practice)
    ensures !Truthy(error) && statusCode == 404 ==> s == Rejected(error) && !Truthy(s.reason)
    // only a 200 or 201 whose body parses resolves, and it resolves with the parsed value
    ensures s.Resolved? <==> !Truthy(error) && (statusCode == 200 || statusCode == 201) && parse(body).Parsed?
    ensures s.Resolved? ==> s.value == parse(body).value
    // a 200 or 201 whose body does not parse rejects with the parse exception
    ensures !Truthy(error) && (statusCode == 200 || statusCode == 201) && parse(body).Unparsable?
      ==> s == Rejected(parse(body).exception)
    // every other status rejects with the generic error
    ensures !Truthy(error) && statusCode != 200 && statusCode != 201 && statusCode != 404
      ==> s == Rejected(UnknownError)
  {
    if Truthy(error) then Rejected(error)
    else if statusCode == 404 then Rejected(error)
    else if statusCode == 200 || statusCode == 201 then
      match parse(body)
      case Parsed(data) => Resolved(data)
      case Unparsable(e) => Rejected(e)
    else Rejected(UnknownError)
  }

  /** The body is only parsed for a 200 or 201 answer without transport error: otherwise the
      settlement does not depend on what `JSON.parse` would do. */
  lemma ParseOnlyOnSuccess(error: JsValue, statusCode: int, body: string, parse1: string -> ParseResult, parse2: string -> ParseResult)
    requires Truthy(error) || (statusCode != 200 && statusCode != 201)
    ensures Classify(error, statusCode, body, parse1) == Classify(error, statusCode, body, parse2)
  {
  }

  /** With no transport error (null), a 404 is rejected with null whatever the body: the caller
      is given no error object to inspect. */
  lemma NotFoundRejectsWithNull(body: string, parse: string -> ParseResult)
    ensures Classify(Null, 404, body, parse) == Rejected(Null)
  {
  }
}
