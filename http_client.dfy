/** The shared transport (`HttpClient`): session state (token, language), the
    request options built for every call, and the classification of what the
    network returned into a body or an `ApiError`. The network itself is an
    opaque `send` function. */
module Transport {
  import opened Values
  import opened Exceptions

  type Headers = map<string, string>

  const DefaultBaseUrl := "https://auth.mizbancloud.com"
  const DefaultTimeout := 30
  const DefaultLanguage := "en"
  const OperationFailed := "Operation failed"

  /** The construction-time configuration; `None` is an absent (or null) entry. */
  datatype Config = Config(
    baseUrl: Option<string>,
    timeout: Option<int>,
    language: Option<string>,
    headers: Option<Headers>)

  const EmptyConfig := Config(None, None, None, None)

  /** Per-call `$options`: extra headers and a timeout, each possibly absent. */
  datatype CallOptions = CallOptions(headers: Option<Headers>, timeout: Option<int>)

  const NoOptions := CallOptions(None, None)

  /** The `$requestOptions` array handed to the HTTP library; `None` is an absent key. */
  datatype RequestOptions = RequestOptions(
    headers: Headers,
    timeout: Option<int>,
    query: Option<Payload>,
    formParams: Option<Payload>)

  /** The four verbs the wrappers and the resource modules use. */
  datatype Verb = GET | POST | PUT | DELETE {
    function Name(): string {
      match this
      case GET => "GET"
      case POST => "POST"
      case PUT => "PUT"
      case DELETE => "DELETE"
    }
  }

  /** One call of a resource module: a verb, a path and a payload. */
  datatype Call = Call(verb: Verb, path: string, payload: Payload)

  /** What the HTTP library hands back for one request:
      a response it did not throw for, with its decoded JSON object;
      a request failure (`RequestException`), with or without a response; or
      any other transport failure (`GuzzleException`). */
  datatype Outcome =
    | Delivered(status: int, body: Body)
    | RequestFailed(transportMessage: string, response: Option<FailedResponse>)
    | TransportFailed(transportMessage: string)

  /** A failure response: its status and its body, `None` when that did not decode.
      A body that decodes to a JSON list or a scalar is not modelled. */
  datatype FailedResponse = FailedResponse(status: int, body: Option<Body>)

  /** `isset($body['success']) && $body['success'] === false` */
  predicate LogicalFailure(body: Body) {
    "success" in body && body["success"] == Bool(false)
  }

  /** A `message` that can be passed as the exception's string message. */
  predicate MessageTyped(body: Body) {
    "message" !in body || body["message"].Null? || body["message"].Str?
  }

  /** A body the code will turn into an exception must type-check as one. */
  predicate ErrorBodyTyped(body: Body) {
    MessageTyped(body) && DetailsTyped(body)
  }

  predicate WellTyped(o: Outcome) {
    match o
    case Delivered(_, body) => LogicalFailure(body) ==> ErrorBodyTyped(body)
    case RequestFailed(_, Some(FailedResponse(_, Some(body)))) => ErrorBodyTyped(body)
    case _ => true
  }

  /** The outcomes the model covers: those the code handles without a PHP TypeError. */
  type Exchange = o: Outcome | WellTyped(o) witness TransportFailed("")

  /** The network: given verb, path and request options, what came back. */
  type Send = (string, string, RequestOptions) -> Exchange

  /** What `request` gives its caller: the decoded body, or the exception it throws. */
  datatype Reply = Returned(body: Body) | Raised(error: ApiError)

  /** `$body['message'] ?? $fallback` */
  function MessageOr(body: Body, fallback: string): (m: string)
    requires MessageTyped(body)
    ensures IsSet(body, "message") ==> m == body["message"].s
    ensures !IsSet(body, "message") ==> m == fallback
  {
    match Coalesce(body, "message", Str(fallback))
    case Str(s) => s
    case _ => fallback
  }

  /** The headers of one call: Accept-Language always, Authorization exactly when a
      token is set (an empty token included), and the caller's headers merged last. */
  function RequestHeaders(token: Option<string>, language: string, caller: Headers): (h: Headers)
    ensures h.Keys == {"Accept-Language"} + (if token.Some? then {"Authorization"} else {}) + caller.Keys
    ensures forall k :: k in caller ==> h[k] == caller[k]
    ensures "Accept-Language" !in caller ==> h["Accept-Language"] == language
    ensures "Authorization" !in caller && token.Some? ==> h["Authorization"] == "Bearer " + token.value
  {
    var defaults := map["Accept-Language" := language];
    var withAuth := if token.Some? then defaults["Authorization" := "Bearer " + token.value] else defaults;
    withAuth + caller
  }

  /** The request options of one call, given the session state at call time. */
  function BuildOptions(token: Option<string>, language: string, verb: string, data: Payload, options: CallOptions): (r: RequestOptions)
    ensures r.headers == RequestHeaders(token, language, options.headers.GetOr(map[]))
    ensures r.timeout == options.timeout
    ensures verb == "GET" ==> r.formParams.None? && r.query == (if |data| > 0 then Some(data) else None)
    ensures verb != "GET" ==> r.query.None? && r.formParams == Some(data)
  {
    RequestOptions(
      RequestHeaders(token, language, options.headers.GetOr(map[])),
      options.timeout,
      if verb == "GET" && |data| > 0 then Some(data) else None,
      if verb == "GET" then None else Some(data))
  }

  /** Turns what the network returned into the caller's reply. */
  function Classify(o: Exchange): (r: Reply)
    // A body is returned, unchanged, only from a delivered response without success === false.
    ensures r.Returned? <==> o.Delivered? && !LogicalFailure(o.body)
    ensures r.Returned? ==> r.body == o.body
    // success === false is an error even on a 2xx status, with that status and the whole body.
    ensures o.Delivered? && LogicalFailure(o.body) ==>
              r == Raised(NewApiError(MessageOr(o.body, OperationFailed), o.status, Some(o.body)))
    // A request failure keeps the failure response's status (0 without one) and body,
    // and prefers the body's message to the transport's.
    ensures o.RequestFailed? ==>
              r.Raised?
              && r.error.statusCode == (if o.response.Some? then o.response.value.status else 0)
              && r.error.response == (if o.response.Some? then o.response.value.body else None)
              && r.error.message == (if o.response.Some? && o.response.value.body.Some?
                                     then MessageOr(o.response.value.body.value, o.transportMessage)
                                     else o.transportMessage)
              // the validation details come from the failure body, as for a logical failure
              && r.error.fields == Detail(r.error.response, FieldsKey)
              && r.error.invalidFields == Detail(r.error.response, InvalidFieldsKey)
              && r.error.missingFields == Detail(r.error.response, MissingFieldsKey)
    ensures o.TransportFailed? ==> r == Raised(NewApiError(o.transportMessage, 0, None))
  {
    match o
    case Delivered(status, body) =>
      if LogicalFailure(body) then Raised(NewApiError(MessageOr(body, OperationFailed), status, Some(body)))
      else Returned(body)
    case RequestFailed(transportMessage, response) =>
      var statusCode := if response.Some? then response.value.status else 0;
      var body := if response.Some? then response.value.body else None;
      var message := if body.Some? then MessageOr(body.value, transportMessage) else transportMessage;
      Raised(NewApiError(message, statusCode, body))
    case TransportFailed(transportMessage) =>
      Raised(NewApiError(transportMessage, 0, None))
  }

  /** A falsy `success` other than `false` itself is not a failure. */
  lemma FalsySuccessIsNotFailure(status: int, body: Body)
    requires "success" in body && !Truthy(body["success"]) && body["success"] != Bool(false)
    ensures Classify(Delivered(status, body)) == Returned(body)
  {
  }

  /** When no response was obtained the error has status 0 and no details. */
  lemma NoResponseMeansStatusZero(o: Exchange)
    requires o.TransportFailed? || (o.RequestFailed? && o.response.None?)
    ensures Classify(o).Raised?
    ensures var e := Classify(o).error;
            e.statusCode == 0 && e.response.None? && e.message == o.transportMessage
            && e.fields.None? && e.invalidFields.None? && e.missingFields.None?
  {
  }

  /** The transport object shared by the facade and every resource module. */
  class HttpClient {
    const baseUrl: string
    const timeout: int
    /** The default headers the HTTP library is configured with. */
    const clientHeaders: Headers
    var token: Option<string>
    var language: string

    constructor (config: Config)
      ensures baseUrl == config.baseUrl.GetOr(DefaultBaseUrl)
      ensures timeout == config.timeout.GetOr(DefaultTimeout)
      ensures language == config.language.GetOr(DefaultLanguage)
      ensures token == None
      // The configured headers are merged over Accept and the initial Accept-Language.
      ensures clientHeaders ==
                map["Accept" := "application/json", "Accept-Language" := language] + config.headers.GetOr(map[])
    {
      baseUrl := config.baseUrl.GetOr(DefaultBaseUrl);
      timeout := config.timeout.GetOr(DefaultTimeout);
      var lang := config.language.GetOr(DefaultLanguage);
      clientHeaders := map["Accept" := "application/json", "Accept-Language" := lang] + config.headers.GetOr(map[]);
      language := lang;
      token := None;
    }

    /** Sets or (with `None`) clears the bearer token. */
    method SetToken(t: Option<string>)
      modifies this`token
      ensures token == t && language == old(language)
    {
      token := t;
    }

    method GetToken() returns (t: Option<string>)
      ensures t == token
    {
      t := token;
    }

    method SetLanguage(l: string)
      modifies this`language
      ensures language == l && token == old(token)
    {
      language := l;
    }

    method GetLanguage() returns (l: string)
      ensures l == language
    {
      l := language;
    }

    /** Builds the request options step by step, sends them once, and classifies
        what came back. The session state is read, never changed. */
    method Request(verb: string, path: string, data: Payload, options: CallOptions, send: Send) returns (reply: Reply)
      ensures reply == Classify(send(verb, path, BuildOptions(token, language, verb, data, options)))
    {
      var headers := map["Accept-Language" := language];
      if token.Some? {
        headers := headers["Authorization" := "Bearer " + token.value];
      }
      if options.headers.Some? {
        headers := headers + options.headers.value;
      }
      assert headers == RequestHeaders(token, language, options.headers.GetOr(map[]));
      var requestTimeout := None;
      if options.timeout.Some? {
        requestTimeout := options.timeout;
      }
      var query, formParams := None, None;
      if verb == "GET" {
        if |data| > 0 {
          query := Some(data);
        }
      } else {
        formParams := Some(data);
      }
      var outcome := send(verb, path, RequestOptions(headers, requestTimeout, query, formParams));
      reply := Classify(outcome);
    }

    method Get(path: string, data: Payload, options: CallOptions, send: Send) returns (reply: Reply)
      ensures reply == Classify(send("GET", path, BuildOptions(token, language, "GET", data, options)))
    {
      reply := Request("GET", path, data, options, send);
    }

    method Post(path: string, data: Payload, options: CallOptions, send: Send) returns (reply: Reply)
      ensures reply == Classify(send("POST", path, BuildOptions(token, language, "POST", data, options)))
    {
      reply := Request("POST", path, data, options, send);
    }

    method Put(path: string, data: Payload, options: CallOptions, send: Send) returns (reply: Reply)
      ensures reply == Classify(send("PUT", path, BuildOptions(token, language, "PUT", data, options)))
    {
      reply := Request("PUT", path, data, options, send);
    }

    method Delete(path: string, data: Payload, options: CallOptions, send: Send) returns (reply: Reply)
      ensures reply == Classify(send("DELETE", path, BuildOptions(token, language, "DELETE", data, options)))
    {
      reply := Request("DELETE", path, data, options, send);
    }

    /** Issues a resource module's call through the wrapper for its verb, without
        per-call options. */
    method Perform(c: Call, send: Send) returns (reply: Reply)
      ensures reply == Classify(send(c.verb.Name(), c.path, BuildOptions(token, language, c.verb.Name(), c.payload, NoOptions)))
    {
      match c.verb
      case GET => reply := Get(c.path, c.payload, NoOptions, send);
      case POST => reply := Post(c.path, c.payload, NoOptions, send);
      case PUT => reply := Put(c.path, c.payload, NoOptions, send);
      case DELETE => reply := Delete(c.path, c.payload, NoOptions, send);
    }
  }
}
