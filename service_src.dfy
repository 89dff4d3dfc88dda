/**
 * The src revision of `neo4j.Service`. Its gateway (`__init__`,
 * `serviceMethodPreflight`, `handleWaitingCalls`, `makeAvailable`,
 * `setNotAvailable`, `loadServiceDefinition`) is the same code as the lib
 * revision and is modelled once, by `Service.Service`; so are the URL and
 * argument handling of a generated method (`Service.ResourceUrl`,
 * `Service.ExtraArguments`). What differs is modelled here: a generated
 * method calls the src `neo4j.Web.ajax`, and every call rebinds the
 * factory's `callbackWrap` and `errorHandler` closure variables.
 */
module ServiceSrc {
  import opened Wrappers
  import opened JsValue
  import Web
  import Service

  /**
   * A closure variable of `resourceFactory` after the calls so far:
   * the function as given, or `neo4j.proxy(inner, service)`.
   */
  datatype Binding = Given | Proxy(inner: Binding, service: nat)

  /**
   * The service a bound function runs with. `jQuery.proxy(f, c)` calls
   * `f.apply(c, arguments)`, so when `f` is itself a proxy its own service
   * wins: the innermost proxy decides.
   */
  function RunsWith(b: Binding): Option<nat>
  {
    match b
    case Given => None
    case Proxy(Given, s) => Some(s)
    case Proxy(inner, _) => RunsWith(inner)
  }

  /** `n` calls of generated methods of one factory, by the services in `callers`, as written. */
  function Rebound(b: Binding, callers: seq<nat>): Binding
  {
    if callers == [] then b else Proxy(Rebound(b, callers[..|callers| - 1]), callers[|callers| - 1])
  }

  /** The closure variables a generated method shares between all services of its class. */
  class ResourceFactory {
    var callbackWrap: Binding
    var errorHandler: Binding

    constructor()
      ensures callbackWrap == Given && errorHandler == Given
    {
      callbackWrap := Given;
      errorHandler := Given;
    }

    /** The first two statements of `resourceFunction`, run with `this` the calling service. */
    method Rebind(service: nat)
      modifies this
      ensures callbackWrap == Proxy(old(callbackWrap), service)
      ensures errorHandler == Proxy(old(errorHandler), service)
    {
      callbackWrap := Proxy(callbackWrap, service);
      errorHandler := Proxy(errorHandler, service);
    }
  }

  /**
   * As written, whoever calls later, `callbackWrap` and `errorHandler` keep
   * running with the first service that ever called, and each call nests
   * one more proxy.
   */
  lemma {:induction false} FirstCallerWins(callers: seq<nat>)
    requires |callers| > 0
    ensures RunsWith(Rebound(Given, callers)) == Some(callers[0])
    ensures Rebound(Given, callers) != Rebound(Given, callers[..|callers| - 1])
  {
    if |callers| > 1 {
      FirstCallerWins(callers[..|callers| - 1]);
      assert callers[..|callers| - 1][0] == callers[0];
    } else {
      assert callers[..0] == [];
    }
  }

  /** Two services of one class: the second one's answer is handled in the context of the first. */
  method TwoServices(a: nat, b: nat) returns (runsWith: Option<nat>)
    ensures runsWith == Some(a)
  {
    var f := new ResourceFactory();
    f.Rebind(a);
    f.Rebind(b);
    assert RunsWith(Proxy(Given, a)) == Some(a);
    runsWith := RunsWith(f.callbackWrap);
  }

  /** The binding evidently intended: the hooks of a call run with the service that made it. */
  function BindTo(service: nat): (b: Binding)
    ensures RunsWith(b) == Some(service)
  {
    Proxy(Given, service)
  }

  /**
   * A generated method of the src revision, from the arguments to what the
   * jQuery provider holds: the URL as `Service.ResourceUrl` fills it, the
   * data, and the provider's success and failure callbacks. Whether or not
   * there is data, the provider's failure callback is the method's error
   * closure wrapped by `wrapFailureCallback`, and its success callback the
   * `callbackWrap` closure itself.
   */
  method ResourceFunction(r: Service.Resource, resources: Value, args: seq<Value>)
    returns (url: Result<Value, string>, data: Value, success: Web.Cb, failure: Web.Cb)
    ensures url == Service.ResourceUrl(r, resources, args)
    ensures var extra := Service.ExtraArguments(|r.urlArgs|, args).0;
            !IsFunction(extra) ==>
              data == extra && success == Web.Raw(Service.AfterClosure) && failure == Web.Wrapped(Service.ErrorClosure)
  {
    url := Service.ResourceUrl(r, resources, args);
    var extra := Service.ExtraArguments(|r.urlArgs|, args).0;
    var s, f;
    if extra != Null {
      s, f := Web.WrapArguments(extra, Service.AfterClosure, Service.ErrorClosure);
      data, success, failure := Web.ProviderArguments(extra, s, f);
    } else {
      s, f := Web.WrapArguments(Service.AfterClosure, Service.ErrorClosure, Undefined);
      data, success, failure := Web.ProviderArguments(Service.AfterClosure, s, f);
    }
  }
}
