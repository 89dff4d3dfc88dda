/**
 * `neo4j.Web` of the src revision and its jQuery provider. Here the
 * provider itself sorts its parameters (a function in the data slot is the
 * success callback), an error answer reaches the failure callback as a
 * plain object (`{connectionLost: true}` for status 0, the parsed body
 * otherwise), and `ajax` wraps whichever argument is really the failure
 * callback so that a lost connection raises `web.connection.failed`.
 *
 * `replace` and `isCrossDomain` are the same code as in the lib revision
 * and are modelled once, by `WebOld.Replace` and `WebOld.IsCrossDomain`.
 */
module Web {
  import opened Wrappers
  import opened JsValue
  import WebOld

  /** A callback the provider holds: the caller's value, or `wrapFailureCallback(cb)`, always a function. */
  datatype Cb = Raw(v: Value) | Wrapped(cb: Value)

  /** `typeof cb === "function"`. */
  predicate IsCallable(c: Cb)
  {
    c.Wrapped? || IsFunction(c.v)
  }

  /** What the exchange does, in order. */
  datatype Effect =
    | Call(f: Value, args: seq<Value>)        // a caller's function applied to `args`
    | Trigger(name: string, args: seq<Value>) // `neo4j.events.trigger(name, args)`
    | Log(v: Value)                           // `neo4j.log(v)`
    | TypeError                               // a non-function was applied

  /** How jQuery ended the exchange: its success callback with the data, or its error callback. */
  datatype Ending = Answered(data: Value, xhr: WebOld.Xhr) | Errored(xhr: WebOld.Xhr)

  /** The request the provider hands to jQuery. */
  datatype Request = Request(verb: Value, url: string, body: WebOld.Body)

  const ConnectionLostError: Value := Obj([("connectionLost", Bool(true))])

  // ------------------------------------------------------ the wrapped failure callback

  /**
   * `wrapFailureCallback(cb)` applied to `(error, xhr)`: a lost connection
   * raises `web.connection.failed` with the request and then applies `cb`
   * unguarded; any other error applies `cb` only when it is a function.
   */
  function WrapFailure(cb: Value, args: seq<Value>): (es: seq<Effect>)
    ensures var lost := |args| > 0 && Truthy(args[0]) && Truthy(Field(args[0], "connectionLost"));
            var xhr := if |args| > 1 then args[1] else Undefined;
            var apply := if IsFunction(cb) then Call(cb, args) else TypeError;
            (lost ==> es == [Trigger("web.connection.failed", [xhr]), apply])
            && (!lost ==> es == (if IsFunction(cb) then [Call(cb, args)] else []))
  {
    var error := if |args| > 0 then args[0] else Undefined;
    var xhr := if |args| > 1 then args[1] else Undefined;
    if Truthy(error) && Truthy(Field(error, "connectionLost")) then
      [Trigger("web.connection.failed", [xhr]), if IsFunction(cb) then Call(cb, args) else TypeError]
    else if IsFunction(cb) then [Call(cb, args)]
    else []
  }

  /** Applying a callback the provider holds. */
  function Apply(c: Cb, args: seq<Value>): (es: seq<Effect>)
  {
    match c
    case Raw(f) => if IsFunction(f) then [Call(f, args)] else [TypeError]
    case Wrapped(cb) => WrapFailure(cb, args)
  }

  /** The connection-lost event is raised for a lost connection only, and then precedes the callback. */
  lemma ConnectionFailedOnlyWhenLost(cb: Value, error: Value, xhr: Value)
    ensures (Trigger("web.connection.failed", [xhr]) in WrapFailure(cb, [error, xhr]))
              <==> Truthy(Field(error, "connectionLost"))
    ensures IsFunction(cb) ==> Call(cb, [error, xhr]) in WrapFailure(cb, [error, xhr])
    ensures !IsFunction(cb) && !Truthy(Field(error, "connectionLost")) ==> WrapFailure(cb, [error, xhr]) == []
  {
    if Truthy(Field(error, "connectionLost")) {
      assert error.Obj?;
    }
  }

  // ------------------------------------------------------ the provider

  /**
   * The provider's parameter shuffle: a function in the data slot is the
   * success callback, the success slot then holds the failure callback,
   * and there is no data.
   */
  method ProviderArguments(data: Value, success: Cb, failure: Cb) returns (d: Value, s: Cb, f: Cb)
    ensures IsFunction(data) ==> d == Null && s == Raw(data) && f == success
    ensures !IsFunction(data) ==> d == data && s == success && f == failure
  {
    d, s, f := data, success, failure;
    if IsFunction(d) {
      f := s;
      s := Raw(d);
      d := Null;
    }
  }

  /**
   * The provider's `error(req)`: status 200 is an empty successful answer
   * when `success` can be applied (a `TypeError` there is swallowed and the
   * failure path follows); a failure callback gets `{connectionLost: true}`
   * for status 0, else the parsed body, else `{}`; without one the request
   * is only logged.
   */
  function ErrorHandler(success: Cb, failure: Cb, req: WebOld.Xhr): (es: seq<Effect>)
    ensures req.status == Num(200) && IsCallable(success) ==> es == Apply(success, [Null])
    ensures !(req.status == Num(200) && IsCallable(success)) ==>
              es == (if !IsCallable(failure) then [Log(req.obj)]
                     else if req.status == Num(0) then Apply(failure, [ConnectionLostError, req.obj])
                     else if req.parsed.Some? then Apply(failure, [req.parsed.value, req.obj])
                     else Apply(failure, [Obj([]), req.obj]))
  {
    if req.status == Num(200) && IsCallable(success) then Apply(success, [Null])
    else if IsCallable(failure) then
      if req.status == Num(0) then Apply(failure, [ConnectionLostError, req.obj])
      else match req.parsed
        case Some(error) => Apply(failure, [error, req.obj])
        case None => Apply(failure, [Obj([]), req.obj])
    else [Log(req.obj)]
  }

  /** jQuery's success callback: status 0 is in truth an error; otherwise `success(data, status, xhr)`. */
  function SuccessHandler(success: Cb, failure: Cb, data: Value, xhr: WebOld.Xhr): (es: seq<Effect>)
    ensures xhr.status == Num(0) ==> es == ErrorHandler(success, failure, xhr)
    ensures xhr.status != Num(0) ==> es == Apply(success, [data, Str("success"), xhr.obj])
  {
    if xhr.status == Num(0) then ErrorHandler(success, failure, xhr)
    else Apply(success, [data, Str("success"), xhr.obj])
  }

  /**
   * The provider's `ajax`: sort the parameters, prepare the body and either
   * refuse a cross-domain request in a browser with `XDomainRequest` or send
   * the request and route jQuery's ending.
   */
  method Provider(verb: Value, url: string, data: Value, success: Cb, failure: Cb,
                  host: Value, xDomainRequest: bool, ending: Ending)
    returns (sent: Option<Request>, es: seq<Effect>)
    ensures (sent, es) == ProviderResult(verb, url, data, success, failure, host, xDomainRequest, ending)
  {
    var d, s, f := ProviderArguments(data, success, failure);
    var r := Exchange(verb, url, d, s, f, host, xDomainRequest, ending);
    sent, es := r.0, r.1;
  }

  /**
   * What the provider does once its parameters are sorted: refuse a
   * cross-domain request where `XDomainRequest` exists (telling a failure
   * callback), or send the request, with an empty body for `null` data,
   * and route jQuery's ending.
   */
  function Exchange(verb: Value, url: string, d: Value, s: Cb, f: Cb,
                    host: Value, xDomainRequest: bool, ending: Ending): (r: (Option<Request>, seq<Effect>))
    ensures r.0.None? <==> WebOld.IsCrossDomain(url, host) && xDomainRequest
    ensures r.0.Some? ==> r.0.value.verb == verb && r.0.value.url == url
    ensures r.0.Some? ==> (r.0.value.body == WebOld.Text("") <==> d == Null || d == Str("null"))
    ensures r.0.Some? ==> r.1 == Route(s, f, ending)
    ensures r.0.None? && !IsCallable(f) ==> r.1 == []
  {
    if WebOld.IsCrossDomain(url, host) && xDomainRequest then
      (None, if IsCallable(f) then Apply(f, [Str("Cross-domain requests are available in IE, but are not yet implemented in neo4js.")]) else [])
    else
      var body := if d == Null || d == Str("null") then WebOld.Text("") else WebOld.Json(d);
      (Some(Request(verb, url, body)), Route(s, f, ending))
  }

  /** jQuery's ending, handed to the success or the error handler. */
  function Route(s: Cb, f: Cb, ending: Ending): seq<Effect>
  {
    match ending
    case Answered(v, xhr) => SuccessHandler(s, f, v, xhr)
    case Errored(xhr) => ErrorHandler(s, f, xhr)
  }

  // ------------------------------------------------------ ajax

  /**
   * `neo4j.Web.ajax`'s wrapping: with a function as data and a truthy
   * success slot, the success slot is the failure callback and is wrapped;
   * otherwise a function in the failure slot is wrapped.
   */
  method WrapArguments(data: Value, success: Value, failure: Value) returns (s: Cb, f: Cb)
    ensures IsFunction(data) && Truthy(success) ==> s == Wrapped(success) && f == Raw(failure)
    ensures !(IsFunction(data) && Truthy(success)) && IsFunction(failure) ==> s == Raw(success) && f == Wrapped(failure)
    ensures !(IsFunction(data) && Truthy(success)) && !IsFunction(failure) ==> s == Raw(success) && f == Raw(failure)
  {
    s, f := Raw(success), Raw(failure);
    if IsFunction(data) && Truthy(success) {
      s := Wrapped(success);
    } else if IsFunction(failure) {
      f := Wrapped(failure);
    }
  }

  /**
   * Whichever slot the caller's failure callback sits in, the provider
   * ends up holding it wrapped: `ajax(verb, url, onSuccess, onFailure)` and
   * `ajax(verb, url, data, onSuccess, onFailure)` both lead to a wrapped
   * failure callback and the raw success callback.
   */
  method Ajax(verb: Value, url: string, data: Value, success: Value, failure: Value,
              host: Value, xDomainRequest: bool, ending: Ending)
    returns (sent: Option<Request>, es: seq<Effect>)
    ensures IsFunction(data) && Truthy(success) ==>
              var (sent', es') := ProviderResult(verb, url, data, Wrapped(success), Raw(failure), host, xDomainRequest, ending);
              sent == sent' && es == es'
    ensures !(IsFunction(data) && Truthy(success)) ==>
              var f := if IsFunction(failure) then Wrapped(failure) else Raw(failure);
              (sent, es) == ProviderResult(verb, url, data, Raw(success), f, host, xDomainRequest, ending)
  {
    var s, f := WrapArguments(data, success, failure);
    sent, es := Provider(verb, url, data, s, f, host, xDomainRequest, ending);
  }

  /** The provider's answer: the exchange with the sorted parameters. */
  function ProviderResult(verb: Value, url: string, data: Value, success: Cb, failure: Cb,
                          host: Value, xDomainRequest: bool, ending: Ending): (Option<Request>, seq<Effect>)
  {
    if IsFunction(data) then Exchange(verb, url, Null, Raw(data), success, host, xDomainRequest, ending)
    else Exchange(verb, url, data, success, failure, host, xDomainRequest, ending)
  }

  /**
   * `get(url, onSuccess, onFailure)` against a lost connection: the request
   * is sent without a body, `web.connection.failed` fires with the request,
   * and then the caller's failure callback gets `{connectionLost: true}`.
   */
  lemma LostConnectionWithoutData(url: string, onSuccess: nat, onFailure: nat, host: Value, xhr: WebOld.Xhr)
    requires !WebOld.IsCrossDomain(url, host) && xhr.status == Num(0)
    ensures ProviderResult(Str("GET"), url, Fn(onSuccess), Wrapped(Fn(onFailure)), Raw(Undefined), host, true, Errored(xhr))
              == (Some(Request(Str("GET"), url, WebOld.Text(""))),
                  [Trigger("web.connection.failed", [xhr.obj]), Call(Fn(onFailure), [ConnectionLostError, xhr.obj])])
  {
    assert Field(ConnectionLostError, "connectionLost") == Bool(true);
  }

  /** A status-200 error with a callable success is an empty successful answer; no failure callback runs. */
  lemma EmptyAnswerIsSuccess(onSuccess: nat, failure: Cb, xhr: WebOld.Xhr)
    requires xhr.status == Num(200)
    ensures ErrorHandler(Raw(Fn(onSuccess)), failure, xhr) == [Call(Fn(onSuccess), [Null])]
  {
  }
}
