/**
 * `neo4j.GraphDatabaseManager` (src revision): the management services of
 * one database, and the discovery that tells each of them whether, and
 * at which URL, the server offers it. The service objects are
 * `Service.Service` gateways; the manager drives their transitions.
 */
module GraphDatabaseManager {
  import opened Wrappers
  import opened JsValue
  import OrderedMaps
  import Service

  /** The manager's attributes that hold a service. */
  const ServiceAttributes: seq<string> :=
    ["backup", "config", "importing", "exporting", "console", "jmx", "lifecycle", "monitor"]

  const NotLoadedMessage: string := "Service definition has not been loaded yet."

  /** What the manager does that others see, in order. */
  datatype Action = MakeAvailable(name: string, url: Value) | Trigger(event: string) | Log(message: string)

  /** `for (k in v)` over the advertised services: the keys of an object, nothing otherwise. */
  function Advertised(services: Value): OrderedMaps.Entries<Value>
  {
    if services.Obj? then services.fields else []
  }

  /** The `makeAvailable` calls of the discovery loop: one per advertised name that is a service, in order. */
  function Discovered(advertised: OrderedMaps.Entries<Value>, attributes: set<string>): (r: seq<Action>)
    ensures forall a | a in r :: a.MakeAvailable? && a.name in attributes && (a.name, a.url) in advertised
  {
    if advertised == [] then []
    else
      var last := advertised[|advertised| - 1];
      Discovered(advertised[..|advertised| - 1], attributes)
        + (if last.0 in attributes then [MakeAvailable(last.0, last.1)] else [])
  }

  /** A service's state after `makeAvailable(url)`. */
  function AfterMakeAvailable(s: Service.Snap, url: Value): Service.Snap
  {
    Service.Drained(s.(initialized := true, available := Some(true), url := url), s.callsWaiting)
  }

  /** A service's state after discovery: made available at its advertised URL, or untouched. */
  function AfterDiscovery(s: Service.Snap, url: Option<Value>): Service.Snap
  {
    match url
    case Some(u) => AfterMakeAvailable(s, u)
    case None => s
  }

  /** The service objects, one per name, all distinct. */
  method NewServices(names: seq<string>) returns (m: map<string, Service.Service>)
    ensures m.Keys == set i | 0 <= i < |names| :: names[i]
    ensures forall n | n in m :: fresh(m[n]) && fresh(m[n].loader) && m[n].Valid()
    ensures forall a, b | a in m && b in m && a != b :: m[a] != m[b] && m[a].loader != m[b].loader
  {
    m := map[];
    var i := 0;
    while i < |names|
      invariant 0 <= i <= |names|
      invariant m.Keys == set j | 0 <= j < i :: names[j]
      invariant forall n | n in m :: fresh(m[n]) && fresh(m[n].loader) && m[n].Valid()
      invariant forall a, b | a in m && b in m && a != b :: m[a] != m[b] && m[a].loader != m[b].loader
    {
      var s := new Service.Service();
      m := m[names[i] := s];
      i := i + 1;
    }
  }

  class Manager {
    /** The service attributes: `backup`, `config`, and so on. */
    const attributes: map<string, Service.Service>
    /** `this.services`: the advertised services, `undefined` until discovery. */
    var services: Value
    /** `this.serviceNames`. */
    var serviceNames: Option<seq<string>>
    var trace: seq<Action>

    /** The services and their loaders. */
    ghost const Repr: set<object>

    ghost predicate Valid()
      reads this, Repr
    {
      (forall n | n in attributes :: attributes[n] in Repr && attributes[n].loader in Repr && attributes[n].Valid())
      && (forall a, b | a in attributes && b in attributes && a != b ::
            attributes[a] != attributes[b] && attributes[a].loader != attributes[b].loader)
    }

    /** `new GraphDatabaseManager(db)`: one fresh service per attribute; nothing loaded. */
    constructor()
      ensures Valid() && attributes.Keys == set i | 0 <= i < |ServiceAttributes| :: ServiceAttributes[i]
      ensures services == Undefined && serviceNames == None && trace == []
    {
      var m := NewServices(ServiceAttributes);
      attributes := m;
      Repr := (set n | n in m :: m[n] as object) + (set n | n in m :: m[n].loader as object);
      services := Undefined;
      serviceNames := None;
      trace := [];
    }

    /** `servicesLoaded()`. */
    function ServicesLoaded(): (r: bool)
      reads this
      ensures r <==> Truthy(services)
    {
      Truthy(services)
    }

    /**
     * `availableServices()`: an error before the services are loaded;
     * otherwise the advertised names, listed on the first call and the same
     * list on every later call.
     */
    method AvailableServices() returns (r: Result<seq<string>, string>)
      modifies this
      ensures services == old(services) && trace == old(trace)
      ensures !Truthy(services) ==> r == Failure(NotLoadedMessage) && serviceNames == old(serviceNames)
      ensures Truthy(services) && old(serviceNames).Some? ==>
                r == Success(old(serviceNames.value)) && serviceNames == old(serviceNames)
      ensures Truthy(services) && old(serviceNames).None? ==>
                r == Success(OrderedMaps.Keys(Advertised(services))) && serviceNames == Some(r.value)
    {
      if !Truthy(services) {
        return Failure(NotLoadedMessage);
      }
      if serviceNames.None? {
        var names := [];
        var e := Advertised(services);
        var i := 0;
        while i < |e|
          invariant 0 <= i <= |e|
          invariant names == OrderedMaps.Keys(e[..i])
          invariant services == old(services) && trace == old(trace)
        {
          assert e[..i + 1] == e[..i] + [e[i]];
          KeysSnoc(e[..i], e[i]);
          names := names + [e[i].0];
          i := i + 1;
        }
        assert e[..i] == e;
        serviceNames := Some(names);
      }
      r := Success(serviceNames.value);
    }

    /**
     * The success callback of `discoverServices`: store the advertised
     * services, make available each one the manager has, in the order the
     * server lists them, and only then trigger `services.loaded`. A JSON
     * object lists each name once.
     */
    method ServicesArrive(definition: Value)
      requires Valid()
      requires OrderedMaps.UniqueKeys(Advertised(Field(definition, "services")))
      modifies this, Repr
      ensures Valid() && services == Field(definition, "services") && serviceNames == old(serviceNames)
      ensures trace == old(trace) + Discovered(Advertised(services), attributes.Keys) + [Trigger("services.loaded")]
      ensures forall n | n in attributes ::
                attributes[n].Snapshot()
                  == AfterDiscovery(old(attributes[n].Snapshot()), OrderedMaps.Get(Advertised(services), n))
    {
      services := Field(definition, "services");
      DiscoverAll(Advertised(services));
      trace := trace + [Trigger("services.loaded")];
    }

    /** The discovery loop: `for (name in services) if (this[name]) this[name].makeAvailable(services[name])`. */
    method DiscoverAll(e: OrderedMaps.Entries<Value>)
      requires Valid() && OrderedMaps.UniqueKeys(e)
      modifies this, Repr
      ensures Valid() && services == old(services) && serviceNames == old(serviceNames)
      ensures trace == old(trace) + Discovered(e, attributes.Keys)
      ensures forall n | n in attributes ::
                attributes[n].Snapshot() == AfterDiscovery(old(attributes[n].Snapshot()), OrderedMaps.Get(e, n))
    {
      ghost var before := map n | n in attributes :: attributes[n].Snapshot();
      var i := 0;
      while i < |e|
        invariant 0 <= i <= |e|
        invariant Valid() && services == old(services) && serviceNames == old(serviceNames)
        invariant trace == old(trace) + Discovered(e[..i], attributes.Keys)
        invariant forall n | n in attributes :: attributes[n].Snapshot() == AfterDiscovery(before[n], OrderedMaps.Get(e[..i], n))
      {
        Discover(e, i, before, old(trace));
        i := i + 1;
      }
      assert e[..i] == e;
    }

    /**
     * One round of the discovery loop, `if (this[name]) this[name].makeAvailable(url)`
     * for the entry `e[i]`: the states and the trace move from the first `i`
     * entries to the first `i + 1`.
     */
    method Discover(e: OrderedMaps.Entries<Value>, i: nat, ghost before: map<string, Service.Snap>, ghost t0: seq<Action>)
      requires Valid() && OrderedMaps.UniqueKeys(e) && i < |e| && attributes.Keys <= before.Keys
      requires trace == t0 + Discovered(e[..i], attributes.Keys)
      requires forall n | n in attributes :: attributes[n].Snapshot() == AfterDiscovery(before[n], OrderedMaps.Get(e[..i], n))
      modifies this, Repr
      ensures Valid() && services == old(services) && serviceNames == old(serviceNames)
      ensures trace == t0 + Discovered(e[..i + 1], attributes.Keys)
      ensures forall n | n in attributes ::
                attributes[n].Snapshot() == AfterDiscovery(before[n], OrderedMaps.Get(e[..i + 1], n))
    {
      DiscoverStep(e, i, attributes.Keys);
      ghost var mid := map n | n in attributes :: attributes[n].Snapshot();
      MakeAvailableIfService(e[i].0, e[i].1);
      forall n | n in attributes
        ensures attributes[n].Snapshot() == AfterDiscovery(before[n], OrderedMaps.Get(e[..i + 1], n))
      {
        assert mid[n] == AfterDiscovery(before[n], OrderedMaps.Get(e[..i], n));
      }
    }

    /** `if (this[name]) this[name].makeAvailable(url)`: only the service called `name` changes. */
    method MakeAvailableIfService(name: string, url: Value)
      requires Valid()
      modifies this, Repr
      ensures Valid() && services == old(services) && serviceNames == old(serviceNames)
      ensures trace == old(trace) + (if name in attributes then [MakeAvailable(name, url)] else [])
      ensures forall n | n in attributes ::
                attributes[n].Snapshot()
                  == if n == name then AfterMakeAvailable(old(attributes[n].Snapshot()), url) else old(attributes[n].Snapshot())
    {
      if name in attributes {
        attributes[name].MakeAvailable(url);
        trace := trace + [MakeAvailable(name, url)];
      }
    }

    /** The failure callback of `discoverServices`: log, and change no service. */
    method ServicesUnavailable(server: string)
      modifies this
      ensures services == old(services) && serviceNames == old(serviceNames)
      ensures trace == old(trace) + [Log("Unable to fetch service descriptions for server " + server
                                         + ". Server management will be unavailable.")]
    {
      trace := trace + [Log("Unable to fetch service descriptions for server " + server
                            + ". Server management will be unavailable.")];
    }
  }

  /** One more entry of a JSON object: its name answers its URL, the others what they answered before. */
  lemma DiscoverStep(e: OrderedMaps.Entries<Value>, i: nat, attributes: set<string>)
    requires OrderedMaps.UniqueKeys(e) && i < |e|
    ensures forall n :: OrderedMaps.Get(e[..i + 1], n) == if n == e[i].0 then Some(e[i].1) else OrderedMaps.Get(e[..i], n)
    ensures OrderedMaps.Get(e[..i], e[i].0).None?
    ensures Discovered(e[..i + 1], attributes)
              == Discovered(e[..i], attributes) + (if e[i].0 in attributes then [MakeAvailable(e[i].0, e[i].1)] else [])
  {
    var name := e[i].0;
    assert e[..i + 1] == e[..i] + [e[i]];
    assert e[..i + 1][..i] == e[..i];
    assert !OrderedMaps.HasKey(e[..i], name) by {
      var ks := OrderedMaps.Keys(e[..i]);
      forall j | 0 <= j < |ks| ensures ks[j] != name {
        assert ks[j] == e[j].0;
      }
    }
    assert e[..i + 1] == e[..i] + [(name, e[i].1)];
    assert OrderedMaps.Get(e[..i], name).None?;
    forall n ensures OrderedMaps.Get(e[..i + 1], n) == if n == name then Some(e[i].1) else OrderedMaps.Get(e[..i], n) {
      OrderedMaps.GetSnoc(e[..i], name, e[i].1, n);
    }
  }

  /** The keys of a list of entries grow by the key of the appended entry. */
  lemma KeysSnoc(e: OrderedMaps.Entries<Value>, p: (string, Value))
    ensures OrderedMaps.Keys(e + [p]) == OrderedMaps.Keys(e) + [p.0]
  {
  }
}
