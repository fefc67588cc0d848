/**
 * The decision logic of main.js: which properties of the transport client the
 * Proxy intercepts, what the wrapper does with a successful response, and how
 * `_handleError` rewrites a thrown failure before rethrowing it.
 *
 * The transport (ky-universal) is abstract: a call through it either resolves
 * to a Response or rejects with an Error. The first half of the module states
 * the logic as functions on value records; the second half has the objects
 * the source mutates in place and methods that update them in the source's
 * order, each tied to the corresponding function.
 */
module HttpClient {
  import opened Wrappers
  import opened JsValues

  /** The property names the Proxy intercepts. The set holds 'push', not 'put'. */
  const ProxyMethods: set<string> := {"get", "post", "push", "patch", "head", "delete"}

  /** The message a browser fetch gives a network failure. */
  const FailedToFetch: string := "Failed to fetch"

  /** What `_handleError` rewrites FailedToFetch to. */
  const CorsMessage: string := FailedToFetch + ". Possible CORS error."

  /** `target[key]`, None standing for `undefined`. */
  function Lookup<V>(target: map<string, V>, key: string): Option<V> {
    if key in target then Some(target[key]) else None
  }

  // ---------------------------------------------------------------------------
  // The Proxy's `get` trap
  // ---------------------------------------------------------------------------

  /** What reading a property through the Proxy yields. */
  datatype Property<V> =
    | PassedThrough(value: Option<V>)          // the target's own property, unwrapped
    | Intercepted(verb: string, inner: Option<V>)  // a fresh async wrapper around `inner`

  /** The `get` trap: only the names in ProxyMethods are wrapped. */
  function GetTrap<V>(target: map<string, V>, propKey: string): (p: Property<V>)
    ensures p.PassedThrough? <==> propKey !in ProxyMethods
    ensures p.PassedThrough? ==> p.value == Lookup(target, propKey)
    ensures p.Intercepted? ==> p.verb == propKey && p.inner == Lookup(target, propKey)
  {
    var propValue := Lookup(target, propKey);
    if propKey !in ProxyMethods then PassedThrough(propValue) else Intercepted(propKey, propValue)
  }

  /** Exactly get, post, push, patch, head and delete are intercepted; 'put' is passed through. */
  lemma InterceptedVerbs<V>(target: map<string, V>, propKey: string)
    ensures GetTrap(target, propKey).Intercepted? <==>
      propKey in ["get", "post", "push", "patch", "head", "delete"]
    ensures GetTrap(target, "put") == PassedThrough(Lookup(target, "put"))
  {
  }

  // ---------------------------------------------------------------------------
  // Value records and the logic on them
  // ---------------------------------------------------------------------------

  /**
   * The part of a transport response the wrapper looks at: the status, the
   * value of the content-type header (None where the Headers API returns
   * null), what `response.json()` decodes the body to, and the `data`
   * property (None while it is absent).
   */
  datatype Response = Response(status: int, contentType: Option<string>, body: Json, data: Option<Json>)

  /**
   * A thrown failure: its message, the response it carries (None when there
   * is none) and the `status` and `data` properties `_handleError` sets.
   */
  datatype Error = Error(message: Json, response: Option<Response>, status: Option<int>, data: Option<Json>)

  /** What a call ends by throwing: an error object, or a TypeError raised on the way. */
  datatype Thrown = ThrownError(error: Error) | ThrownTypeError(cause: TypeError)

  /** The error object after `_handleError` has updated it, and what it threw. */
  datatype Handled = Handled(after: Error, thrown: Thrown)

  /** What the transport call did. */
  datatype TransportOutcome = Resolved(response: Response) | Rejected(error: Error)

  /** What a wrapped call does: return a response or throw. There is no third way. */
  datatype CallResult = Returned(response: Response) | Threw(thrown: Thrown)

  /** The content-type check of main.js: `contentType.includes('json')`, which throws on null. */
  function IsJson(contentType: Option<string>): (r: Result<bool, TypeError>)
    ensures r.Failure? <==> contentType.None?
    ensures r.Failure? ==> r.error == CannotReadProperty(Null, "includes")
    ensures r.Success? ==> (r.value <==> exists i :: OccursAt("json", contentType.value, i))
  {
    match contentType
    case None => Failure(CannotReadProperty(Null, "includes"))
    case Some(ct) =>
      IncludesIffOccurs(ct, "json");
      Success(Includes(ct, "json"))
  }

  /**
   * The success path of the wrapper: attach the decoded body as `data` when
   * the content-type mentions json, otherwise leave the response as it is.
   */
  function AttachData(r: Response): (o: Result<Response, TypeError>)
    ensures o.Failure? <==> r.contentType.None?
    ensures o.Failure? ==> o.error == CannotReadProperty(Null, "includes")
    ensures o.Success? ==> o.value.(data := r.data) == r
    ensures o.Success? && IsJson(r.contentType) == Success(true) ==> o.value.data == Some(r.body)
    ensures o.Success? && IsJson(r.contentType) == Success(false) ==> o.value == r
  {
    match IsJson(r.contentType)
    case Failure(t) => Failure(t)
    case Success(json) => if json then Success(r.(data := Some(r.body))) else Success(r)
  }

  /**
   * `_handleError`. Without a response only the browser's "Failed to fetch"
   * message is rewritten. With one, `status` is copied up first; then, for a
   * JSON body, the body's `message` replaces the error's when it is truthy and
   * the whole body becomes `data`. Every path throws.
   */
  function HandleError(e: Error): (h: Handled)
    ensures h.thrown.ThrownError? ==> h.thrown.error == h.after
    ensures h.after.response == e.response
    // no response: rethrown; status and data untouched; message rewritten only for FailedToFetch
    ensures e.response.None? ==> h.thrown.ThrownError? && h.after.status == e.status && h.after.data == e.data
    ensures e.response.None? ==> (h.after.message != e.message <==> e.message == JString(FailedToFetch))
    ensures e.response.None? && e.message == JString(FailedToFetch) ==> h.after.message == JString(CorsMessage)
    // a response: status copied whatever the content-type
    ensures e.response.Some? ==> h.after.status == Some(e.response.value.status)
    // no content-type header: the TypeError from null.includes escapes, after status was set
    ensures e.response.Some? && e.response.value.contentType.None? ==>
      h.thrown == ThrownTypeError(CannotReadProperty(Null, "includes"))
      && h.after == e.(status := Some(e.response.value.status))
    // not JSON: message and data untouched
    ensures e.response.Some? && IsJson(e.response.value.contentType) == Success(false) ==>
      h.thrown.ThrownError? && h.after.message == e.message && h.after.data == e.data
    // JSON: body merged, unless reading `.message` of a null body throws
    ensures e.response.Some? && IsJson(e.response.value.contentType) == Success(true) ==>
      var body := e.response.value.body;
      (body == JNull ==> h.thrown == ThrownTypeError(CannotReadProperty(Null, "message"))
                         && h.after == e.(status := Some(e.response.value.status)))
      && (body != JNull ==>
            (h.thrown.ThrownError? && h.after.data == Some(body)
             && h.after.message == Or(GetProperty(body, "message").value, e.message)))
  {
    match e.response
    case None =>
      var after := if e.message == JString(FailedToFetch) then e.(message := JString(CorsMessage)) else e;
      Handled(after, ThrownError(after))
    case Some(resp) =>
      var withStatus := e.(status := Some(resp.status));
      match IsJson(resp.contentType)
      case Failure(t) => Handled(withStatus, ThrownTypeError(t))
      case Success(json) =>
        if !json then Handled(withStatus, ThrownError(withStatus))
        else match GetProperty(resp.body, "message")
          case Failure(t) => Handled(withStatus, ThrownTypeError(t))
          case Success(m) =>
            var after := withStatus.(message := Or(m, e.message), data := Some(resp.body));
            Handled(after, ThrownError(after))
  }

  /** The error object a TypeError is, as `_handleError` sees it: a message and nothing else. */
  function ErrorOf(t: TypeError): Error {
    Error(JString(TypeErrorMessage(t)), None, None, None)
  }

  /**
   * A call through an intercepted name. `invocation` is None when the
   * target has no such property (`propValue.apply` then throws inside the
   * try), otherwise what the transport call did.
   */
  function CallWrapped(invocation: Option<TransportOutcome>): (c: CallResult)
    ensures c.Returned? ==> invocation.Some? && invocation.value.Resolved?
    ensures c.Returned? ==> AttachData(invocation.value.response) == Success(c.response)
    ensures invocation.Some? && invocation.value.Rejected? ==> c == Threw(HandleError(invocation.value.error).thrown)
    ensures invocation.None? ==> c == Threw(HandleError(ErrorOf(CannotReadProperty(Undefined, "apply"))).thrown)
    // the content-type test sits outside the try: its TypeError bypasses `_handleError`
    ensures invocation.Some? && invocation.value.Resolved? && invocation.value.response.contentType.None? ==>
      c == Threw(ThrownTypeError(CannotReadProperty(Null, "includes")))
    ensures invocation.Some? && invocation.value.Resolved? && invocation.value.response.contentType.Some? ==>
      c.Returned?
  {
    match invocation
    case None => Threw(HandleError(ErrorOf(CannotReadProperty(Undefined, "apply"))).thrown)
    case Some(Rejected(e)) => Threw(HandleError(e).thrown)
    case Some(Resolved(r)) =>
      match AttachData(r)
      case Success(r') => Returned(r')
      case Failure(t) => Threw(ThrownTypeError(t))
  }

  // ---------------------------------------------------------------------------
  // Properties that relate several calls
  // ---------------------------------------------------------------------------

  /** A rejected transport call never turns into a returned response. */
  lemma RejectionAlwaysThrows(e: Error)
    ensures CallWrapped(Some(Rejected(e))).Threw?
  {
  }

  /** A resolved transport call returns iff its response has a content-type header. */
  lemma ResolutionReturnsIffHeader(r: Response)
    ensures CallWrapped(Some(Resolved(r))).Returned? <==> r.contentType.Some?
  {
  }

  /**
   * The normalised-error invariant: for a failure that did not carry `status`
   * before, `status` is present after `_handleError` exactly when a response
   * is, whatever it ends by throwing.
   */
  lemma StatusIffResponse(e: Error)
    requires e.status.None?
    ensures HandleError(e).after.status.Some? <==> HandleError(e).after.response.Some?
  {
  }

  /** Handling an already handled error changes nothing: every rewrite is idempotent. */
  lemma HandleErrorIdempotent(e: Error)
    ensures HandleError(HandleError(e).after) == HandleError(e)
  {
  }

  /** Intercepting 'push' on a target without it: the call throws the TypeError's error object unchanged. */
  lemma PushWithoutTargetMethodThrows<V>(target: map<string, V>)
    requires "push" !in target
    ensures GetTrap(target, "push") == Intercepted("push", None)
    ensures CallWrapped(None) == Threw(ThrownError(Error(
      JString("Cannot read properties of undefined (reading 'apply')"), None, None, None)))
  {
    var m := TypeErrorMessage(CannotReadProperty(Undefined, "apply"));
    assert m == "Cannot read properties of undefined (reading 'apply')";
    assert m[0] != FailedToFetch[0];
  }

  /** JSON-LD counts as JSON. */
  lemma LdJsonIsJson()
    ensures IsJson(Some("application/ld+json")) == Success(true)
  {
    assert OccursAt("json", "application/ld+json", 15);
  }

  /** A JSON content-type with parameters counts as JSON. */
  lemma JsonWithCharsetIsJson()
    ensures IsJson(Some("application/json; charset=utf-8")) == Success(true)
  {
    assert OccursAt("json", "application/json; charset=utf-8", 12);
  }

  /** HTML is not JSON. */
  lemma HtmlIsNotJson()
    ensures IsJson(Some("text/html; charset=utf-8")) == Success(false)
  {
    NotIncludesWithoutFirstChar("text/html; charset=utf-8", "json");
  }

  /** The check is case-sensitive: upper-case JSON does not count. */
  lemma UpperCaseJsonIsNotJson()
    ensures IsJson(Some("application/JSON")) == Success(false)
  {
    NotIncludesWithoutFirstChar("application/JSON", "json");
  }

  // ---------------------------------------------------------------------------
  // The objects the source mutates in place
  // ---------------------------------------------------------------------------

  /** A transport response; the wrapper adds `data` to it. */
  class ResponseObject {
    const status: int
    const contentType: Option<string>
    const body: Json
    var data: Option<Json>

    constructor (status: int, contentType: Option<string>, body: Json)
      ensures View() == Response(status, contentType, body, None)
    {
      this.status := status;
      this.contentType := contentType;
      this.body := body;
      data := None;
    }

    function View(): Response
      reads this
    {
      Response(status, contentType, body, data)
    }
  }

  /** A thrown error object; `_handleError` sets `message`, `status` and `data` on it. */
  class ErrorObject {
    var message: Json
    const response: ResponseObject?
    var status: Option<int>
    var data: Option<Json>

    constructor (message: Json, response: ResponseObject?)
      ensures this.response == response
      ensures View() == Error(message, if response == null then None else Some(response.View()), None, None)
    {
      this.message := message;
      this.response := response;
      status := None;
      data := None;
    }

    function View(): Error
      reads this, response
    {
      Error(message, if response == null then None else Some(response.View()), status, data)
    }
  }

  /** The success path, updating the response in place; `escaped` is the TypeError thrown, if any. */
  method OnSuccess(response: ResponseObject) returns (escaped: Option<TypeError>)
    modifies response
    ensures match AttachData(old(response.View()))
      case Success(r) => escaped.None? && response.View() == r
      case Failure(t) => escaped == Some(t) && response.View() == old(response.View())
  {
    if response.contentType.None? {
      return Some(CannotReadProperty(Null, "includes"));
    }
    if Includes(response.contentType.value, "json") {
      response.data := Some(response.body);
    }
    return None;
  }

  /**
   * `_handleError`, updating the error object field by field. `escaped` is
   * None when it throws the error object itself, otherwise the TypeError
   * that escaped instead.
   */
  method HandleErrorInPlace(e: ErrorObject) returns (escaped: Option<TypeError>)
    modifies e
    ensures e.View() == HandleError(old(e.View())).after
    ensures HandleError(old(e.View())).thrown ==
      if escaped.None? then ThrownError(e.View()) else ThrownTypeError(escaped.value)
  {
    if e.response == null {
      if e.message == JString(FailedToFetch) {
        e.message := JString(CorsMessage);
      }
      return None;
    }
    e.status := Some(e.response.status);
    if e.response.contentType.None? {
      return Some(CannotReadProperty(Null, "includes"));
    }
    if Includes(e.response.contentType.value, "json") {
      var errorBody := e.response.body;
      var message := GetProperty(errorBody, "message");
      if message.Failure? {
        return Some(message.error);
      }
      e.message := Or(message.value, e.message);
      e.data := Some(errorBody);
    }
    return None;
  }

  /** What the transport call did, as objects. */
  datatype Settlement = ResolvedWith(response: ResponseObject) | RejectedWith(error: ErrorObject)

  /** How a wrapped call ends, as objects. */
  datatype Completion =
    | Returns(response: ResponseObject)
    | Throws(error: ErrorObject)
    | ThrowsTypeError(cause: TypeError)

  /** The objects a settlement may have changed. */
  function Touched(invocation: Option<Settlement>): set<object> {
    match invocation
    case None => {}
    case Some(ResolvedWith(r)) => {r}
    case Some(RejectedWith(e)) => {e}
  }

  /** The settlement as a value. */
  function SettlementView(invocation: Option<Settlement>): Option<TransportOutcome>
    reads Touched(invocation)
    reads if invocation.Some? && invocation.value.RejectedWith? then {invocation.value.error.response} else {}
  {
    match invocation
    case None => None
    case Some(ResolvedWith(r)) => Some(Resolved(r.View()))
    case Some(RejectedWith(e)) => Some(Rejected(e.View()))
  }

  /** The completion as a value. */
  function CompletionView(c: Completion): CallResult
    reads if c.Returns? then {c.response} else {}
    reads if c.Throws? then {c.error, c.error.response} else {}
  {
    match c
    case Returns(r) => Returned(r.View())
    case Throws(e) => Threw(ThrownError(e.View()))
    case ThrowsTypeError(t) => Threw(ThrownTypeError(t))
  }

  /**
   * The async function the `get` trap returns for an intercepted name.
   * `invocation` is None when the target lacks the property, otherwise how
   * the transport call settled.
   */
  method Call(invocation: Option<Settlement>) returns (c: Completion)
    modifies Touched(invocation)
    ensures CompletionView(c) == CallWrapped(old(SettlementView(invocation)))
    ensures invocation.Some? && invocation.value.ResolvedWith? && c.Returns? ==> c.response == invocation.value.response
    ensures invocation.Some? && invocation.value.RejectedWith? && c.Throws? ==> c.error == invocation.value.error
  {
    match invocation {
      case None =>
        var t := CannotReadProperty(Undefined, "apply");
        var e := new ErrorObject(JString(TypeErrorMessage(t)), null);
        var _ := HandleErrorInPlace(e);
        c := Throws(e);
      case Some(RejectedWith(e)) =>
        var escaped := HandleErrorInPlace(e);
        c := if escaped.None? then Throws(e) else ThrowsTypeError(escaped.value);
      case Some(ResolvedWith(r)) =>
        var escaped := OnSuccess(r);
        c := if escaped.None? then Returns(r) else ThrowsTypeError(escaped.value);
    }
  }
}
