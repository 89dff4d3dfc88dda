/**
 * `neo4j.Service`: the gateway in front of every management service. A
 * service starts uninitialised; calls made then wait in `callsWaiting`.
 * `makeAvailable(url)` or `setNotAvailable()` initialises it and replays the
 * waiting calls through the same preflight: on an unavailable service each
 * throws (and the replay logs it), on an available one the call runs at
 * once when the resource map is known and otherwise after the service
 * definition, fetched once through a `cachedFunction`, has arrived.
 *
 * A call is known by the function that runs it and its arguments
 * (`WaitingCall`); running it is recorded in `ran`. Running a generated
 * resource method is specified separately by `ResourceFunction`. The GET
 * of the service definition is recorded in `gets`; its answer is the event
 * `DefinitionArrives`. A failed definition GET has no handler and changes
 * nothing.
 */
module Service {
  import opened Wrappers
  import opened JsValue
  import OrderedMaps
  import WebOld
  import CachedFunction

  /** `{method: callback, args: args}`. */
  datatype WaitingCall = WaitingCall(callback: nat, args: seq<Value>)

  const NotAvailableMessage := "The service you are accessing is not available for this server."

  /** The answer function `cachedFunction` hands to `loadServiceDefinition`; only its identity matters. */
  const LoaderAnswer: Value := Fn(0)

  /**
   * Everything a service call can change: the service's own fields, the
   * calls it has run, the GETs it has issued, what it logged and triggered,
   * and the state of its `loadServiceDefinition` cache. `pending[k]` is the
   * call behind the continuation `Fn(k)` handed to the cache.
   */
  datatype Snap = Snap(
    initialized: bool, available: Option<bool>, url: Value, resources: Value,
    callsWaiting: seq<WaitingCall>, pending: seq<WaitingCall>, ran: seq<WaitingCall>,
    gets: seq<string>, log: seq<string>, events: seq<(string, Value)>,
    cached: bool, cachedResult: seq<Value>, cachedContext: Value, waiting: seq<Value>,
    forwarded: seq<seq<Value>>, delivered: seq<CachedFunction.Delivery>)

  /** The continuations `Fn(from)`, ..., `Fn(from + n - 1)`. */
  function Continuations(from: nat, n: nat): (cs: seq<Value>)
    ensures |cs| == n && forall i | 0 <= i < n :: cs[i] == Fn(from + i)
  {
    if n == 0 then [] else Continuations(from, n - 1) + [Fn(from + n - 1)]
  }

  /** The calls behind the continuations in `waiting`, in order. */
  function Resumed(pending: seq<WaitingCall>, waiting: seq<Value>): seq<WaitingCall>
  {
    if waiting == [] then []
    else
      var last := waiting[|waiting| - 1];
      Resumed(pending, waiting[..|waiting| - 1])
        + (if last.Fn? && last.id < |pending| then [pending[last.id]] else [])
  }

  /**
   * `serviceMethodPreflight(callback, args)`: throw when unavailable, queue
   * when uninitialised, run at once when the resources are known, else hand
   * a continuation to the cached `loadServiceDefinition`, which answers at
   * once from its cache or waits, and only for the first waiter GETs the
   * definition.
   */
  function PreflightSpec(s: Snap, c: WaitingCall): (r: (Snap, Option<string>))
    ensures r.1.Some? <==> s.available == Some(false)
    ensures r.0.callsWaiting == s.callsWaiting + (if s.available != Some(false) && !s.initialized then [c] else [])
  {
    if s.available == Some(false) then (s, Some(NotAvailableMessage))
    else if !s.initialized then (s.(callsWaiting := s.callsWaiting + [c]), None)
    else if s.resources != Null then (s.(ran := s.ran + [c]), None)
    else
      var k := |s.pending|;
      var s1 := s.(pending := s.pending + [c]);
      if s.cached then
        (s1.(delivered := s.delivered + [CachedFunction.Delivery(Fn(k), s.cachedContext, s.cachedResult)],
             ran := s.ran + [c]), None)
      else if s.waiting == [] then
        (s1.(waiting := [Fn(k)], forwarded := s.forwarded + [[LoaderAnswer]], gets := s.gets + [ToText(s.url) + "/"]), None)
      else
        (s1.(waiting := s.waiting + [Fn(k)]), None)
  }

  /** One step of `handleWaitingCalls`: preflight the call and log what it throws. */
  function DrainStep(s: Snap, c: WaitingCall): Snap
  {
    var (s1, thrown) := PreflightSpec(s, c);
    if thrown.Some? then s1.(log := s1.log + [thrown.value]) else s1
  }

  /** `handleWaitingCalls` over `calls`, in order. */
  function Drained(s: Snap, calls: seq<WaitingCall>): Snap
  {
    if calls == [] then s else DrainStep(Drained(s, calls[..|calls| - 1]), calls[|calls| - 1])
  }

  /** `n` copies of `m`. */
  function Repeat(m: string, n: nat): (r: seq<string>)
    ensures |r| == n && forall i | 0 <= i < n :: r[i] == m
  {
    if n == 0 then [] else Repeat(m, n - 1) + [m]
  }

  // ------------------------------------------------------ properties of the gateway

  /** On an unavailable service a call throws and changes nothing: neither queued nor run. */
  lemma NotAvailableThrows(s: Snap, c: WaitingCall)
    requires s.available == Some(false)
    ensures PreflightSpec(s, c) == (s, Some(NotAvailableMessage))
  {
  }

  /** On an uninitialised service that is not known to be unavailable a call only waits. */
  lemma UninitialisedQueues(s: Snap, c: WaitingCall)
    requires !s.initialized && s.available != Some(false)
    ensures PreflightSpec(s, c) == (s.(callsWaiting := s.callsWaiting + [c]), None)
  {
  }

  /** The replay never empties nor changes the queue, so a later transition replays the same calls. */
  lemma {:induction false} DrainKeepsQueue(s: Snap, calls: seq<WaitingCall>)
    requires s.initialized
    ensures Drained(s, calls).callsWaiting == s.callsWaiting
    ensures Drained(s, calls).initialized && Drained(s, calls).available == s.available
    ensures Drained(s, calls).resources == s.resources && Drained(s, calls).cached == s.cached
  {
    if calls != [] {
      DrainKeepsQueue(s, calls[..|calls| - 1]);
    }
  }

  /** Replaying on an unavailable service logs one error per call and changes nothing else. */
  lemma {:induction false} DrainNotAvailable(s: Snap, calls: seq<WaitingCall>)
    requires s.available == Some(false)
    ensures Drained(s, calls) == s.(log := s.log + Repeat(NotAvailableMessage, |calls|))
  {
    if calls != [] {
      DrainNotAvailable(s, calls[..|calls| - 1]);
      assert Repeat(NotAvailableMessage, |calls|) == Repeat(NotAvailableMessage, |calls| - 1) + [NotAvailableMessage];
    }
  }

  /** With the resources known, the replay runs every call once, in the order they were queued. */
  lemma {:induction false} DrainRunsInOrder(s: Snap, calls: seq<WaitingCall>)
    requires s.initialized && s.available == Some(true) && s.resources != Null
    ensures Drained(s, calls) == s.(ran := s.ran + calls)
  {
    if calls != [] {
      DrainRunsInOrder(s, calls[..|calls| - 1]);
      assert s.ran + calls[..|calls| - 1] + [calls[|calls| - 1]] == s.ran + calls;
    }
  }

  /**
   * With the resources unknown and nothing cached, the replay hands every
   * call to the loader in order and issues at most one GET of the
   * definition: one exactly when nobody was waiting before.
   */
  lemma {:induction false} DrainLoadsOnce(s: Snap, calls: seq<WaitingCall>)
    requires s.initialized && s.available == Some(true) && s.resources == Null && !s.cached
    ensures Drained(s, calls).pending == s.pending + calls
    ensures Drained(s, calls).waiting == s.waiting + Continuations(|s.pending|, |calls|)
    ensures Drained(s, calls).ran == s.ran
    ensures Drained(s, calls).gets == s.gets + (if s.waiting == [] && calls != [] then [ToText(s.url) + "/"] else [])
  {
    if calls != [] {
      var front := calls[..|calls| - 1];
      DrainLoadsOnce(s, front);
      DrainKeepsQueue(s, front);
      assert s.pending + front + [calls[|calls| - 1]] == s.pending + calls;
      assert Continuations(|s.pending|, |calls|) == Continuations(|s.pending|, |calls| - 1) + [Fn(|s.pending| + |calls| - 1)];
    }
  }

  // ------------------------------------------------------ the service object

  class Service {
    var initialized: bool
    /** `null` until the service is made available or not available. */
    var available: Option<bool>
    var url: Value
    var resources: Value
    var callsWaiting: seq<WaitingCall>
    /** The calls behind the continuations handed to the loader. */
    var pending: seq<WaitingCall>
    /** Calls run, oldest first. */
    var ran: seq<WaitingCall>
    /** URLs of the definition GETs issued, oldest first. */
    var gets: seq<string>
    /** Exceptions logged by the replay. */
    var log: seq<string>
    /** Events triggered on the service. */
    var events: seq<(string, Value)>
    /** `loadServiceDefinition`, wrapped by `cachedFunction(..., 0)`. */
    const loader: CachedFunction.CachedFunction

    ghost predicate Valid()
      reads this, loader
    {
      loader.Valid() && loader.callbackArg == 0 && loader.timeout == 0 && loader.answer == LoaderAnswer
      && (initialized <==> available.Some?)
    }

    ghost function Snapshot(): Snap
      reads this, loader
    {
      Snap(initialized, available, url, resources, callsWaiting, pending, ran, gets, log, events,
           loader.isCached, loader.cachedResult, loader.cachedResultContext, loader.waitingList,
           loader.forwarded, loader.delivered)
    }

    /** `new neo4j.Service(db)`: uninitialised, availability unknown, no resources, nothing waiting. */
    constructor()
      ensures Valid() && fresh(loader)
      ensures Snapshot() == Snap(false, None, Undefined, Null, [], [], [], [], [], [],
                                 false, [], Null, [], [], [])
    {
      initialized := false;
      available := None;
      url := Undefined;
      resources := Null;
      callsWaiting := [];
      pending := [];
      ran := [];
      gets := [];
      log := [];
      events := [];
      loader := new CachedFunction.CachedFunction(0, 0, LoaderAnswer);
    }

    /** `serviceMethodPreflight(callback, args)`; `thrown` is the error it throws. */
    method Preflight(c: WaitingCall) returns (thrown: Option<string>)
      requires Valid()
      modifies this, loader
      ensures Valid()
      ensures (Snapshot(), thrown) == PreflightSpec(old(Snapshot()), c)
    {
      if available == Some(false) {
        return Some(NotAvailableMessage);
      } else if !initialized {
        callsWaiting := callsWaiting + [c];
        return None;
      }
      thrown := None;
      if resources != Null {
        ran := ran + [c];
      } else {
        var k := |pending|;
        pending := pending + [c];
        var wasCached := loader.isCached;
        assert CachedFunction.Forward([Fn(k)], 0, LoaderAnswer) == [LoaderAnswer];
        loader.Call([Fn(k)]);
        if wasCached {
          ran := ran + [c];
          assert (Snapshot(), thrown) == PreflightSpec(old(Snapshot()), c);
        } else if |loader.waitingList| == 1 {
          gets := gets + [ToText(url) + "/"];
          assert Snapshot().waiting == [Fn(k)];
          assert Snapshot().forwarded == old(Snapshot()).forwarded + [[LoaderAnswer]];
          assert Snapshot() == PreflightSpec(old(Snapshot()), c).0;
        } else {
          assert old(loader.waitingList) != [];
          assert Snapshot().waiting == old(Snapshot()).waiting + [Fn(k)];
          assert Snapshot().forwarded == old(Snapshot()).forwarded;
          assert Snapshot().delivered == old(Snapshot()).delivered;
          assert Snapshot().pending == old(Snapshot()).pending + [c];
          assert (Snapshot(), thrown) == PreflightSpec(old(Snapshot()), c);
        }
      }
    }

    /** `handleWaitingCalls`: replay every waiting call, logging what it throws; the queue is kept. */
    method HandleWaitingCalls()
      requires Valid() && initialized
      modifies this, loader
      ensures Valid()
      ensures Snapshot() == Drained(old(Snapshot()), old(callsWaiting))
    {
      var i := 0;
      var l := |callsWaiting|;
      while i < l
        invariant 0 <= i <= l && Valid() && initialized
        invariant callsWaiting == old(callsWaiting) && l == |callsWaiting|
        invariant Snapshot() == Drained(old(Snapshot()), old(callsWaiting)[..i])
      {
        ghost var calls := old(callsWaiting)[..i + 1];
        assert calls[..i] == old(callsWaiting)[..i];
        ReplayOne(callsWaiting[i]);
        DrainKeepsQueue(old(Snapshot()), calls);
        i := i + 1;
      }
      assert old(callsWaiting)[..i] == old(callsWaiting);
    }

    /** One turn of the replay: preflight the call and log what it throws. */
    method ReplayOne(c: WaitingCall)
      requires Valid()
      modifies this, loader
      ensures Valid()
      ensures Snapshot() == DrainStep(old(Snapshot()), c)
    {
      var thrown := Preflight(c);
      if thrown.Some? {
        log := log + [thrown.value];
      }
    }

    /** `makeAvailable(url)`: initialised, available, at `url`; then the replay. */
    method MakeAvailable(u: Value)
      requires Valid()
      modifies this, loader
      ensures Valid()
      ensures Snapshot() == Drained(old(Snapshot()).(initialized := true, available := Some(true), url := u), old(callsWaiting))
    {
      initialized := true;
      available := Some(true);
      url := u;
      HandleWaitingCalls();
    }

    /** `setNotAvailable()`: initialised and unavailable; then the replay, in which every call throws. */
    method SetNotAvailable()
      requires Valid()
      modifies this, loader
      ensures Valid()
      ensures Snapshot() == Drained(old(Snapshot()).(initialized := true, available := Some(false)), old(callsWaiting))
    {
      initialized := true;
      available := Some(false);
      HandleWaitingCalls();
    }

    /** The `services.loaded` hook: a service nobody initialised is not available. */
    method ServicesLoaded()
      requires Valid()
      modifies this, loader
      ensures Valid()
      ensures old(initialized) ==> Snapshot() == old(Snapshot())
      ensures !old(initialized) ==>
                Snapshot() == old(Snapshot()).(initialized := true, available := Some(false),
                                               log := old(log) + Repeat(NotAvailableMessage, |old(callsWaiting)|))
    {
      if !initialized {
        DrainNotAvailable(Snapshot().(initialized := true, available := Some(false)), callsWaiting);
        SetNotAvailable();
      }
    }

    /**
     * The definition GET answers with `data`: store `data.resources`,
     * trigger `service.definition.loaded`, answer the loader, which hands
     * the answer to every waiting continuation, each of which runs its call.
     */
    method DefinitionArrives(data: Value)
      requires Valid() && loader.waitingList != []
      modifies this, loader
      ensures Valid()
      ensures Snapshot() == ArrivedSpec(old(Snapshot()), data)
    {
      resources := Field(data, "resources");
      events := events + [("service.definition.loaded", data)];
      var waiting := loader.waitingList;
      loader.Answer(Undefined, [data]);
      Resume(waiting);
    }

    /** The delivery loop of the cache, seen from the service: each continuation runs its call. */
    method Resume(waiting: seq<Value>)
      modifies this
      ensures Snapshot() == old(Snapshot()).(ran := old(ran) + Resumed(pending, waiting))
    {
      var i := 0;
      while i < |waiting|
        invariant 0 <= i <= |waiting|
        invariant Snapshot() == old(Snapshot()).(ran := old(ran) + Resumed(pending, waiting[..i]))
      {
        assert waiting[..i + 1][..i] == waiting[..i];
        var cb := waiting[i];
        if cb.Fn? && cb.id < |pending| {
          ran := ran + [pending[cb.id]];
        }
        i := i + 1;
      }
      assert waiting[..i] == waiting;
    }
  }

  /**
   * The definition GET answers with `data`: store `data.resources`,
   * trigger `service.definition.loaded`, answer the loader, which hands
   * the answer to every waiting continuation, each of which runs its call.
   */
  function ArrivedSpec(s: Snap, data: Value): (r: Snap)
    ensures r.ran == s.ran + Resumed(s.pending, s.waiting)
    ensures r.cached && r.waiting == [] && r.resources == Field(data, "resources")
    ensures r.delivered == s.delivered + CachedFunction.Deliveries(s.waiting, Undefined, [data])
  {
    s.(resources := Field(data, "resources"),
       events := s.events + [("service.definition.loaded", data)],
       cached := true, cachedResult := [data], cachedContext := Undefined, waiting := [],
       delivered := s.delivered + CachedFunction.Deliveries(s.waiting, Undefined, [data]),
       ran := s.ran + Resumed(s.pending, s.waiting))
  }

  /** Every call handed to the loader runs once the definition arrives, in the order they were handed over. */
  lemma {:induction false} ResumedInOrder(pending: seq<WaitingCall>, from: nat, n: nat)
    requires from + n <= |pending|
    ensures Resumed(pending, Continuations(from, n)) == pending[from..from + n]
  {
    if n > 0 {
      var cs := Continuations(from, n);
      assert cs[..n - 1] == Continuations(from, n - 1);
      ResumedInOrder(pending, from, n - 1);
      assert pending[from..from + n] == pending[from..from + n - 1] + [pending[from + n - 1]];
    }
  }

  // ------------------------------------------------------ generated resource methods

  /** The description `resourceFactory` is given: the resource name, the HTTP method and the URL placeholders. */
  datatype Resource = Resource(resource: string, verb: string, urlArgs: seq<string>)

  /** The callbacks a resource function hands to `ajax`: one for `after`, one for `errorHandler`. */
  const AfterClosure: Value := Fn(1)
  const ErrorClosure: Value := Fn(2)

  /** `arguments[i]`, `undefined` past the end. */
  function ArgAt(args: seq<Value>, i: nat): Value
  {
    if i < |args| then args[i] else Undefined
  }

  /** The `replace` map after the first `n` placeholders have been assigned, a later duplicate name overwriting. */
  function Placeholders(names: seq<string>, args: seq<Value>, n: nat): (m: OrderedMaps.Entries<Value>)
    requires n <= |names|
    ensures OrderedMaps.Keys(m) == [] <==> n == 0
  {
    if n == 0 then []
    else
      var m := Placeholders(names, args, n - 1);
      OrderedMaps.PutKeys(m, names[n - 1], ArgAt(args, n - 1));
      OrderedMaps.Put(m, names[n - 1], ArgAt(args, n - 1))
  }

  /** The loop that fills `replace[urlArgs[i]] = arguments[i]`. */
  method BuildPlaceholders(names: seq<string>, args: seq<Value>) returns (m: OrderedMaps.Entries<Value>)
    ensures m == Placeholders(names, args, |names|)
  {
    m := [];
    var i := 0;
    while i < |names|
      invariant 0 <= i <= |names| && m == Placeholders(names, args, i)
    {
      m := OrderedMaps.Put(m, names[i], ArgAt(args, i));
      i := i + 1;
    }
  }

  /** Each placeholder gets the argument at its own position (the last one, for a repeated name). */
  lemma {:induction false} PlaceholderValue(names: seq<string>, args: seq<Value>, n: nat, i: nat)
    requires i < n <= |names| && forall j | i < j < n :: names[j] != names[i]
    ensures OrderedMaps.Get(Placeholders(names, args, n), names[i]) == Some(ArgAt(args, i))
  {
    var before := Placeholders(names, args, n - 1);
    var last, v := names[n - 1], ArgAt(args, n - 1);
    assert Placeholders(names, args, n) == OrderedMaps.Put(before, last, v);
    OrderedMaps.PutGet(before, last, v, names[i]);
    if i < n - 1 {
      assert OrderedMaps.Get(OrderedMaps.Put(before, last, v), names[i]) == OrderedMaps.Get(before, names[i]);
      PlaceholderValue(names, args, n - 1, i);
    } else {
      assert OrderedMaps.Get(OrderedMaps.Put(before, last, v), names[i]) == Some(v);
    }
  }

  /**
   * The extra arguments after the `n` URL arguments: with more than `n`, a
   * function in last position is the callback; with at least `n + 2`, the
   * second to last is the data.
   */
  function ExtraArguments(n: nat, args: seq<Value>): (r: (Value, Option<Value>))
    ensures r.1.Some? <==> |args| > n && IsFunction(args[|args| - 1])
    ensures r.1.Some? ==> r.1.value == args[|args| - 1]
    ensures |args| >= n + 2 ==> r.0 == args[|args| - 2]
    ensures |args| < n + 2 ==> r.0 == Null
  {
    var callback := if |args| > n && IsFunction(args[|args| - 1]) then Some(args[|args| - 1]) else None;
    var data := if |args| > n + 1 then args[|args| - 2] else Null;
    (data, callback)
  }

  /** A call made as `urlArgs..., data, callback` splits back into exactly those parts. */
  lemma ExtraArgumentsRoundTrip(urlValues: seq<Value>, data: Value, callback: Value)
    requires IsFunction(callback)
    ensures ExtraArguments(|urlValues|, urlValues + [data, callback]) == (data, Some(callback))
    ensures ExtraArguments(|urlValues|, urlValues + [callback]) == (Null, Some(callback))
    ensures ExtraArguments(|urlValues|, urlValues) == (Null, None)
  {
  }

  /** The URL of a resource call: the resource's URL template with the placeholders filled in. */
  function ResourceUrl(r: Resource, resources: Value, args: seq<Value>): (u: Result<Value, string>)
    ensures |r.urlArgs| == 0 ==> u == Success(Field(resources, r.resource))
    ensures |r.urlArgs| > 0 && Field(resources, r.resource).Str? ==>
              u == Success(Str(WebOld.ReplaceAll(Field(resources, r.resource).s, Placeholders(r.urlArgs, args, |r.urlArgs|))))
  {
    var template := Field(resources, r.resource);
    if |r.urlArgs| == 0 then Success(template)
    else if template.Str? then Success(Str(WebOld.ReplaceAll(template.s, Placeholders(r.urlArgs, args, |r.urlArgs|))))
    else Failure("TypeError")
  }

  /**
   * The generated resource function: fill the URL, split off data and
   * callback, and call `ajax` with the data only when there is some; the
   * request `ajax` makes of it carries the data exactly when it is not
   * `null` and not a function.
   */
  method ResourceFunction(r: Resource, resources: Value, args: seq<Value>)
    returns (req: Result<WebOld.AjaxArgs, string>, callback: Option<Value>)
    ensures req.Failure? <==> ResourceUrl(r, resources, args).Failure?
    ensures callback == ExtraArguments(|r.urlArgs|, args).1
    ensures req.Success? ==>
              var data := ExtraArguments(|r.urlArgs|, args).0;
              req.value.verb == Str(r.verb) && req.value.url == ResourceUrl(r, resources, args).value
              && (!IsFunction(data) ==> req.value.data == data
                                        && req.value.success == WebOld.User(AfterClosure)
                                        && req.value.failure == WebOld.User(ErrorClosure))
  {
    var u: Value;
    if |r.urlArgs| > 0 {
      var placeholders := BuildPlaceholders(r.urlArgs, args);
      var template := Field(resources, r.resource);
      if !template.Str? {
        return Failure("TypeError"), ExtraArguments(|r.urlArgs|, args).1;
      }
      var s := WebOld.Replace(template.s, placeholders);
      u := Str(s);
    } else {
      u := Field(resources, r.resource);
    }
    var data, cb := ExtraArguments(|r.urlArgs|, args).0, ExtraArguments(|r.urlArgs|, args).1;
    callback := cb;
    var a;
    if data != Null {
      a := WebOld.ProcessAjaxArguments([Str(r.verb), u, data, AfterClosure, ErrorClosure]);
    } else {
      a := WebOld.ProcessAjaxArguments([Str(r.verb), u, AfterClosure, ErrorClosure]);
    }
    req := Success(a);
  }

  /** The default `errorHandler`: the callback gets a fixed message and the error. */
  function DefaultErrorArgument(error: Value): (v: Value)
    ensures Field(v, "error") == error
    ensures Field(v, "message") == Str("An error occurred, please see attached error object.")
  {
    Obj([("message", Str("An error occurred, please see attached error object.")), ("error", error)])
  }

  // ------------------------------------------------------ scenarios

  /**
   * A call made before the service is known waits; `makeAvailable` issues
   * the one definition GET, and the call runs when the definition arrives.
   */
  method LazyDefinition(c: WaitingCall, definition: Value) returns (s: Service)
    ensures s.gets == ["http://localhost:7474/db/manage/server/jmx/"]
    ensures s.ran == [c] && s.callsWaiting == [c]
    ensures s.resources == Field(definition, "resources")
  {
    s := new Service();
    var thrown := s.Preflight(c);
    assert s.callsWaiting == [c];
    ghost var before := s.Snapshot().(initialized := true, available := Some(true), url := Str("http://localhost:7474/db/manage/server/jmx"));
    DrainLoadsOnce(before, [c]);
    s.MakeAvailable(Str("http://localhost:7474/db/manage/server/jmx"));
    assert [c][..0] == [];
    assert s.loader.waitingList == [Fn(0)];
    assert s.gets == [ToText(Str("http://localhost:7474/db/manage/server/jmx")) + "/"];
    assert "http://localhost:7474/db/manage/server/jmx" + "/" == "http://localhost:7474/db/manage/server/jmx/";
    s.DefinitionArrives(definition);
    assert Resumed(s.pending, [Fn(0)]) == [c];
  }

  /** A service nobody made available turns unavailable when the services are loaded, and then a call throws. */
  method UnavailableAfterLoad(c: WaitingCall) returns (thrown: Option<string>)
    ensures thrown == Some(NotAvailableMessage)
  {
    var s := new Service();
    s.ServicesLoaded();
    thrown := s.Preflight(c);
  }
}
