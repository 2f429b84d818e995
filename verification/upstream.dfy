/**
 * The exchange with Microsoft Graph as data. A request is the verb, URL,
 * headers and JSON body the service hands to its HTTP client; the transport
 * that answers it is a parameter (`Request -> Outcome`), so a service method's
 * behaviour is a function of the replies it is given. The requests a method
 * sends are returned alongside its result, which states both what went out
 * and, where it matters, that nothing did.
 */
module Upstream {
  import opened Json
  import opened PyText

  const GraphApiBase := "https://graph.microsoft.com/v1.0"

  datatype Verb = HttpGet | HttpPost | HttpPatch | HttpDelete

  datatype Request = Request(verb: Verb, url: string, headers: map<string, string>, body: Option<Dict>)

  /**
   * An HTTP reply: the status, the body as text, and the body as JSON when the
   * text parses as JSON (`response.json()` raises otherwise).
   */
  datatype Reply = Reply(status: int, text: string, json: Option<Json>)

  /** What the transport yields: a reply, or an `httpx.RequestError` (no connection, timeout, ...). */
  datatype Outcome = Delivered(reply: Reply) | RequestError(reason: string)

  type Transport = Request -> Outcome

  /**
   * Why an operation ends without a result. `HttpError` is FastAPI's
   * `HTTPException(status, detail)`. `UnsupportedMethod` is the `ValueError`
   * of an unknown verb. `TransportFailure` is a `RequestError` that reaches
   * the caller unconverted. `Unhandled` is any other Python exception: a JSON
   * body of the wrong shape, which the code indexes or iterates regardless.
   */
  datatype Failure =
    | HttpError(status: int, detail: string)
    | UnsupportedMethod(name: string)
    | TransportFailure(reason: string)
    | Unhandled

  datatype Result<T> = Ok(value: T) | Fail(failure: Failure)

  /**
   * The `method.lower()` dispatch: "put" is sent as PATCH, and an unknown
   * verb is refused. (Lower-casing is ASCII here; no other character
   * lower-cases to a letter of these five words.)
   */
  function Dispatch(name: string): (v: Option<Verb>)
    ensures v == Some(HttpPatch) <==> Lower(name) in {"put", "patch"}
    ensures v.None? <==> Lower(name) !in {"get", "post", "put", "patch", "delete"}
  {
    var m := Lower(name);
    if m == "get" then Some(HttpGet)
    else if m == "post" then Some(HttpPost)
    else if m == "put" || m == "patch" then Some(HttpPatch)
    else if m == "delete" then Some(HttpDelete)
    else None
  }

  /** The verbs the services name, already in lower case. */
  lemma DispatchOfVerbs()
    ensures Dispatch("get") == Some(HttpGet) && Dispatch("post") == Some(HttpPost)
  {
    assert Lower("get") == "get";
    assert Lower("post") == "post";
  }

  lemma LowerIsIdempotent(s: string)
    ensures Lower(Lower(s)) == Lower(s)
  {
  }

  /** The dispatch does not depend on the case of the verb. */
  lemma DispatchIgnoresCase(name: string)
    ensures Dispatch(Lower(name)) == Dispatch(name)
  {
    LowerIsIdempotent(name);
  }

  /** Only POST and PATCH carry the JSON payload. */
  function BodyFor(verb: Verb, data: Option<Dict>): (b: Option<Dict>)
    ensures b.Some? ==> verb in {HttpPost, HttpPatch} && b == data
  {
    if verb == HttpPost || verb == HttpPatch then data else None
  }

  /** `response.text or "Unknown error"`. */
  function TextOrUnknown(text: string): (m: string)
    ensures m != []
  {
    if text != [] then text else "Unknown error"
  }

  /**
   * The message of an error reply: `error.message` of a JSON object body,
   * "Unknown error" when that object has no message, and the raw text (or
   * "Unknown error" for an empty body) when the body is not JSON or either
   * level is not an object, since the bare `except` catches the failed `.get`.
   */
  function ErrorMessage(reply: Reply): (m: string)
    ensures reply.json.None? ==> m == TextOrUnknown(reply.text)
  {
    match reply.json
    case Some(Obj(body)) =>
      var error := Get(body, "error", Obj(map[]));
      if error.Obj? then PyStr(Get(error.fields, "message", Str("Unknown error"))) else TextOrUnknown(reply.text)
    case _ => TextOrUnknown(reply.text)
  }

  /** Any object body whose `error` object holds a string message yields that message, whatever else either holds. */
  lemma ErrorMessageOfGraphError(reply: Reply, body: Dict, message: string)
    requires reply.json == Some(Obj(body))
    requires "error" in body && body["error"].Obj?
    requires "message" in body["error"].fields && body["error"].fields["message"] == Str(message)
    ensures ErrorMessage(reply) == message
  {
  }

  /** An object body without an `error` key, or whose error object has no message, yields "Unknown error". */
  lemma ErrorMessageDefaults(reply: Reply, body: Dict)
    requires reply.json == Some(Obj(body))
    requires "error" !in body || (body["error"].Obj? && "message" !in body["error"].fields)
    ensures ErrorMessage(reply) == "Unknown error"
  {
  }

  /** A JSON body that is not an object falls back to the raw text. */
  lemma ErrorMessageOfList(reply: Reply)
    requires reply.json.Some? && reply.json.value.Arr?
    ensures ErrorMessage(reply) == TextOrUnknown(reply.text)
  {
  }

  /**
   * The status check after every request: a status of 400 or more becomes an
   * error with that status and the "Graph API error: " detail; anything else
   * is returned as it is.
   */
  function CheckStatus(reply: Reply): (r: Result<Reply>)
    ensures r.Ok? <==> reply.status < 400
    ensures r.Ok? ==> r.value == reply
    ensures r.Fail? ==> r.failure == HttpError(reply.status, "Graph API error: " + ErrorMessage(reply))
  {
    if reply.status >= 400 then Fail(HttpError(reply.status, "Graph API error: " + ErrorMessage(reply)))
    else Ok(reply)
  }

  /**
   * How a transport error surfaces. `EntraGraphService._make_request` turns
   * it into a 503; `SCIMService._make_request` has no such handler and lets
   * it through.
   */
  datatype ErrorPolicy = ServiceUnavailable | PassThrough

  /** The end of `_make_request` once a verb was dispatched: the transport outcome, then the status check. */
  function Settle(policy: ErrorPolicy, o: Outcome): (r: Result<Reply>)
    ensures r.Ok? <==> o.Delivered? && o.reply.status < 400
    ensures o.Delivered? ==> r == CheckStatus(o.reply)
    ensures o.RequestError? && policy == ServiceUnavailable ==>
              r == Fail(HttpError(503, "Error connecting to Graph API: " + o.reason))
    ensures o.RequestError? && policy == PassThrough ==> r == Fail(TransportFailure(o.reason))
  {
    match o
    case Delivered(reply) => CheckStatus(reply)
    case RequestError(reason) =>
      if policy == ServiceUnavailable then Fail(HttpError(503, "Error connecting to Graph API: " + reason))
      else Fail(TransportFailure(reason))
  }

  /** Under the 503 conversion every failure is an HTTP error with an error status. */
  lemma ServiceUnavailableFailsAsHttpError(o: Outcome)
    ensures Settle(ServiceUnavailable, o).Fail? ==>
              Settle(ServiceUnavailable, o).failure.HttpError? && Settle(ServiceUnavailable, o).failure.status >= 400
  {
  }

  /** The two services settle a reply alike; they differ exactly on transport errors. */
  lemma PoliciesDifferOnlyOnTransport(o: Outcome)
    ensures Settle(ServiceUnavailable, o) == Settle(PassThrough, o) <==> o.Delivered?
  {
  }

  /** The JSON object of a successful reply, as `response.json()` followed by `.get` or a mapper needs it. */
  function ReplyObject(reply: Reply): (r: Option<Dict>)
    ensures r.Some? <==> reply.json.Some? && reply.json.value.Obj?
  {
    match reply.json
    case Some(Obj(m)) => Some(m)
    case _ => None
  }
}
