/**
 * `neo4j.GraphDatabase` of the lib revision: the memoised discovery
 * document and service definition, the URL logic built on them, and the
 * choice `node` and `relationship` make between fetching and creating.
 *
 * The database's promises live in a `Promises.PromiseHeap`; the closures
 * the database hands to `then` are the heap's program (`Program`), known by
 * the tags below; a GET is a `FetchRequest` in the heap's log, answered by
 * `PromiseHeap.Reply`.
 */
module GraphDatabase {
  import opened Wrappers
  import opened Strings
  import opened JsValue
  import opened Promises

  // ------------------------------------------------------ URL logic

  /** `isUrl(v)`: never for an object; otherwise the text of `v` contains "://". */
  function IsUrl(v: Value): (r: bool)
    ensures r <==> !IsObjectType(v) && exists i :: At(ToText(v), "://", i)
  {
    IndexOfFound(ToText(v), "://");
    !IsObjectType(v) && IndexOf(ToText(v), "://") != -1
  }

  /** `undefined` is no URL: its text "undefined" holds no "://". */
  lemma UndefinedIsNoUrl()
    ensures !IsUrl(Undefined)
  {
    var t := ToText(Undefined);
    assert ':' !in t;
    forall i ensures !At(t, "://", i) {
      if 0 <= i && i + 3 <= |t| {
        assert t[i..i + 3][0] == t[i];
      }
    }
  }

  /**
   * `stripUrlBase(url)`, with the database's REST URL `dbUrl` and its
   * management URL `manageUrl` (a string, `null` or `undefined`). An
   * `undefined` URL or one without "://" is returned as it is; a URL under
   * the REST URL or the management URL loses that prefix; any other URL is
   * cut at the first "/" from index 8 on (see `StripHost`). An array has
   * `indexOf` too: it is returned as it is unless one of its elements is
   * "://", and then `substring`, which arrays lack, throws. `indexOf` on any
   * other value that is not a string, and `.length` of a `null` or
   * `undefined` management URL, throw a `TypeError`.
   */
  function StripUrlBase(dbUrl: string, manageUrl: Value, url: Value): (r: Result<Value, string>)
    requires manageUrl.Str? || manageUrl.Null? || manageUrl.Undefined?
    ensures url.Undefined? ==> r == Success(url)
    ensures !url.Undefined? && !url.Str? && !url.Arr? ==> r == Failure("TypeError")
    ensures url.Arr? && Str("://") !in url.items ==> r == Success(url)
    ensures url.Arr? && Str("://") in url.items ==> r == Failure("TypeError")
    ensures url.Str? && (forall i :: !At(url.s, "://", i)) ==> r == Success(url)
    ensures url.Str? && (exists i :: At(url.s, "://", i)) && dbUrl <= url.s ==>
              r == Success(Str(url.s[|dbUrl|..]))
    ensures url.Str? && (exists i :: At(url.s, "://", i)) && !(dbUrl <= url.s) && manageUrl.Str? && manageUrl.s <= url.s ==>
              r == Success(Str(url.s[|manageUrl.s|..]))
    ensures url.Str? && (exists i :: At(url.s, "://", i)) && !(dbUrl <= url.s) && !manageUrl.Str? && ToText(manageUrl) <= url.s ==>
              r == Failure("TypeError")
  {
    match url
    case Undefined => Success(url)
    case Str(u) =>
      IndexOfFound(u, "://");
      IndexOfZeroIffPrefix(u, dbUrl);
      IndexOfZeroIffPrefix(u, ToText(manageUrl));
      if IndexOf(u, "://") == -1 then Success(url)
      else if IndexOf(u, dbUrl) == 0 then Success(Str(Substring(u, |dbUrl|)))
      else if IndexOf(u, ToText(manageUrl)) == 0 then
        (if manageUrl.Str? then Success(Str(Substring(u, |manageUrl.s|))) else Failure("TypeError"))
      else Success(Str(Substring(u, IndexOfStartingAt(u, "/", 8))))
    case Arr(items) => if Str("://") in items then Failure("TypeError") else Success(url)
    case _ => Failure("TypeError")
  }

  /**
   * A URL under neither base loses its host: it is cut at the first "/"
   * at index 8 or later; when there is none, `indexOf` answers -1 and
   * `substring(-1)` keeps the whole URL.
   */
  lemma StripHost(dbUrl: string, manageUrl: Value, u: string)
    requires manageUrl.Str? || manageUrl.Null? || manageUrl.Undefined?
    requires exists i :: At(u, "://", i)
    requires !(dbUrl <= u) && !(ToText(manageUrl) <= u)
    ensures (forall j | 8 <= j < |u| :: u[j] != '/') ==> StripUrlBase(dbUrl, manageUrl, Str(u)) == Success(Str(u))
    ensures forall k | 8 <= k < |u| && u[k] == '/' && (forall j | 8 <= j < k :: u[j] != '/') ::
              StripUrlBase(dbUrl, manageUrl, Str(u)) == Success(Str(u[k..]))
  {
    var r := IndexOfStartingAt(u, "/", 8);
    assert StripUrlBase(dbUrl, manageUrl, Str(u)) == Success(Str(Substring(u, r))) by {
      IndexOfFound(u, "://");
      IndexOfZeroIffPrefix(u, dbUrl);
      IndexOfZeroIffPrefix(u, ToText(manageUrl));
    }
    if r != -1 {
      AtChar(u, '/', r);
    }
    forall j | 8 <= j < |u| && (r == -1 || j < r) ensures u[j] != '/' {
      AtChar(u, '/', j);
    }
  }

  /** `/^[0-9]+$/.test(id)`: the text of `id` is a non-empty run of digits. */
  predicate IsId(id: Value)
  {
    var t := ToText(id);
    |t| > 0 && AllDigits(t)
  }

  /** The callback of `nodeUri`: an id names a node under the service definition's `node` URL. */
  function NodeUrlFor(definition: Value, id: Value): (r: Value)
    ensures IsId(id) ==> r == Str(ToText(Field(definition, "node")) + "/" + ToText(id))
    ensures !IsId(id) ==> r == id
  {
    if IsId(id) then Str(ToText(Field(definition, "node")) + "/" + ToText(id)) else id
  }

  /** The callback of `relUri`: an id names a relationship under the discovery document's `data` URL. */
  function RelUrlFor(discovery: Value, id: Value): (r: Value)
    ensures IsId(id) ==> r == Str(ToText(Field(discovery, "data")) + "relationship/" + ToText(id))
    ensures !IsId(id) ==> r == id
  {
    if IsId(id) then Str(ToText(Field(discovery, "data")) + "relationship/" + ToText(id)) else id
  }

  /** Under a discovery document whose `data` is a URL, every relationship URL `relUri` builds from an id is a URL. */
  lemma RelUrlIsUrl(discovery: Value, id: Value)
    requires IsId(id) && IsUrl(Field(discovery, "data"))
    ensures IsUrl(RelUrlFor(discovery, id))
  {
    var data := ToText(Field(discovery, "data"));
    var i :| At(data, "://", i);
    AtAppend(data, "relationship/" + ToText(id), "://", i);
    assert data + "relationship/" + ToText(id) == data + ("relationship/" + ToText(id));
  }

  /** The callback of `isNodeUrl`: the URL starts with the service definition's `node` URL. */
  function IsNodeUrlOf(definition: Value, url: string): (r: bool)
    ensures r <==> ToText(Field(definition, "node")) <= url
  {
    IndexOfZeroIffPrefix(url, ToText(Field(definition, "node")));
    IndexOf(url, ToText(Field(definition, "node"))) == 0
  }

  /** Every node URL `nodeUri` builds from an id is one `isNodeUrl` recognises. */
  lemma NodeUrlIsNodeUrl(definition: Value, id: Value)
    requires IsId(id)
    ensures NodeUrlFor(definition, id).Str?
    ensures IsNodeUrlOf(definition, NodeUrlFor(definition, id).s)
  {
    var node := ToText(Field(definition, "node"));
    assert NodeUrlFor(definition, id).s == node + ("/" + ToText(id));
  }

  /** The callback of `getReferenceNodeUrl`: the `reference_node` URL when the definition has one, a failure otherwise. */
  function ReferenceNodeOutcome(definition: Value): (o: Outcome)
    ensures o.Fulfilled? <==> Field(definition, "reference_node") != Undefined
    ensures o.Fulfilled? ==> o.value == Field(definition, "reference_node")
    ensures o.Failed? ==> o.error == Undefined
  {
    if Field(definition, "reference_node") != Undefined then Fulfilled(Field(definition, "reference_node"))
    else Failed(Undefined)
  }

  // ------------------------------------------------------ the closures given to `then`

  const NodeUriTag: nat := 0
  const RelUriTag: nat := 1
  const IsNodeUrlTag: nat := 2
  const ReferenceNodeTag: nat := 3
  /** `getReferenceNodeUrl`'s failure handler, which only logs. */
  const LogErrorTag: nat := 4

  /** What each closure does with what it captured and the value it is called with. */
  function Program(tag: nat, captured: Value, arg: Value): Option<Outcome>
  {
    if tag == NodeUriTag then Some(Fulfilled(NodeUrlFor(arg, captured)))
    else if tag == RelUriTag then Some(Fulfilled(RelUrlFor(arg, captured)))
    else if tag == IsNodeUrlTag then Some(Fulfilled(Bool(IsNodeUrlOf(arg, ToText(captured)))))
    else if tag == ReferenceNodeTag then Some(ReferenceNodeOutcome(arg))
    else None
  }

  /** The handler `getServiceDefinition` adds to the discovery promise for its promise `p`. */
  function DefinitionHandler(p: nat): Handler
  {
    Handler(ThenFulfilled(p, Fetch("data")), ThenFailed(p, Absent))
  }

  /** The outcome of the memoised promise `memo`, if there is one and it is complete. */
  function OutcomeOf(cells: seq<Cell>, memo: Option<nat>): Option<Outcome>
  {
    if memo.Some? && memo.value < |cells| then cells[memo.value].outcome else None
  }

  /** Whether the memoised promise `memo` has failed. */
  predicate FailedMemo(cells: seq<Cell>, memo: Option<nat>)
  {
    var o := OutcomeOf(cells, memo);
    o.Some? && o.value.Failed?
  }

  /**
   * The promises after the first `getServiceDefinition()` when the discovery
   * document has not failed: the definition promise is the last one, still
   * pending, and it waits on the discovery promise unless that is fulfilled.
   */
  function DefinitionCells(cs: seq<Cell>, discovery: Option<nat>): (r: seq<Cell>)
    requires discovery.Some? ==> discovery.value < |cs|
    ensures |cs| < |r| && r[|r| - 1] == Fresh()
  {
    if discovery.None? then cs + [Fresh().(handlers := [DefinitionHandler(|cs| + 1)]), Fresh()]
    else if cs[discovery.value].outcome.None? then
      (cs + [Fresh()])[discovery.value := cs[discovery.value].(handlers := cs[discovery.value].handlers + [DefinitionHandler(|cs|)])]
    else cs + [Fresh()]
  }

  /**
   * The GETs the first `getServiceDefinition()` issues: the database URL when
   * nothing was discovered yet, the document's `data` URL when it is already
   * there, and none while the document is on its way.
   */
  function DefinitionFetches(cs: seq<Cell>, discovery: Option<nat>, url: string): seq<FetchRequest>
    requires discovery.Some? ==> discovery.value < |cs|
  {
    if discovery.None? then [FetchRequest(url, |cs|)]
    else match cs[discovery.value].outcome
      case Some(Fulfilled(doc)) => [FetchRequest(ToText(Field(doc, "data")), |cs|)]
      case _ => []
  }

  /** The promises after `source.then(closure)` on a pending `source`: the closure waits on `source` for the new promise. */
  function Derived(cs: seq<Cell>, source: nat, tag: nat, captured: Value, onBroken: Reaction): (r: seq<Cell>)
    requires source < |cs|
    ensures |r| == |cs| + 1 && r[|cs|] == Fresh()
    ensures r[source].handlers == cs[source].handlers + [Handler(ThenFulfilled(|cs|, Callback(tag, captured)), ThenFailed(|cs|, onBroken))]
    ensures forall x | 0 <= x < |cs| && x != source :: r[x] == cs[x]
  {
    var h := Handler(ThenFulfilled(|cs|, Callback(tag, captured)), ThenFailed(|cs|, onBroken));
    (cs + [Fresh()])[source := cs[source].(handlers := cs[source].handlers + [h])]
  }

  /** An argument of `nodeUri`/`relUri`: a model object with `getSelf`, or anything else. */
  datatype Ref = Model(self: Value) | Id(v: Value)

  class GraphDatabase {
    const url: string
    const heap: PromiseHeap
    /** `_discoveryDocumentPromise`. */
    var discovery: Option<nat>
    /** `_serviceDefinitionPromise`. */
    var serviceDefinition: Option<nat>

    ghost predicate Valid()
      reads this, heap
    {
      heap.Valid() && heap.program == Program
      && (discovery.Some? ==> Attachable(discovery.value, heap.cells))
      && (serviceDefinition.Some? ==> Attachable(serviceDefinition.value, heap.cells))
      && (serviceDefinition.Some? ==> discovery.Some?)
    }

    constructor(url: string)
      ensures Valid() && fresh(heap)
      ensures this.url == url && discovery.None? && serviceDefinition.None?
      ensures heap.cells == [] && heap.fetches == [] && heap.calls == [] && heap.dispatches == []
    {
      this.url := url;
      heap := new PromiseHeap(Program);
      discovery := None;
      serviceDefinition := None;
    }

    /** `getDiscoveryDocument()`: the first call GETs the database URL, every later one answers the same promise. */
    method GetDiscoveryDocument() returns (p: nat)
      requires Valid()
      modifies this, heap
      ensures Valid() && discovery == Some(p) && serviceDefinition == old(serviceDefinition)
      ensures Extends(old(heap.cells), heap.cells)
      ensures old(discovery).Some? ==> p == old(discovery.value) && unchanged(heap)
      ensures old(discovery).None? ==>
                p == |old(heap.cells)| && heap.cells == old(heap.cells) + [Fresh()]
                && heap.fetches == old(heap.fetches) + [FetchRequest(url, p)]
                && heap.dispatches == old(heap.dispatches) && heap.calls == old(heap.calls)
    {
      if discovery.None? {
        var d := heap.NewRequest(url);
        discovery := Some(d);
      }
      p := discovery.value;
    }

    /**
     * `getServiceDefinition()`: the first call chains on the discovery
     * promise a GET of the document's `data` URL, issued only once that
     * promise is fulfilled; every later call answers the same promise.
     */
    method GetServiceDefinition() returns (p: nat)
      requires Valid()
      modifies this, heap
      ensures Valid() && serviceDefinition == Some(p) && discovery.Some?
      ensures Extends(old(heap.cells), heap.cells)
      ensures old(serviceDefinition).Some? ==>
                p == old(serviceDefinition.value) && unchanged(heap) && discovery == old(discovery)
      ensures old(serviceDefinition).None? && old(discovery).None? ==>
                var d := |old(heap.cells)|;
                discovery == Some(d) && p == d + 1
                && heap.fetches == old(heap.fetches) + [FetchRequest(url, d)]
                && heap.cells == old(heap.cells) + [Fresh().(handlers := [DefinitionHandler(p)]), Fresh()]
      ensures old(serviceDefinition).None? && old(discovery).Some? ==>
                discovery == old(discovery) && p == |old(heap.cells)|
      ensures old(serviceDefinition).None? && old(discovery).Some? && OutcomeOf(old(heap.cells), old(discovery)).None? ==>
                var d := old(discovery.value);
                heap.fetches == old(heap.fetches)
                && heap.cells == (old(heap.cells) + [Fresh()])[d := old(heap.cells[d]).(handlers := old(heap.cells[d].handlers) + [DefinitionHandler(p)])]
      ensures old(serviceDefinition).None? ==>
                var o := OutcomeOf(old(heap.cells), old(discovery));
                o.Some? && o.value.Fulfilled? ==>
                  heap.fetches == old(heap.fetches) + [FetchRequest(ToText(Field(o.value.value, "data")), p)]
                  && heap.cells == old(heap.cells) + [Fresh()]
      ensures old(serviceDefinition).None? ==>
                var o := OutcomeOf(old(heap.cells), old(discovery));
                o.Some? && o.value.Failed? ==> SettledAs(heap.cells, p, o.value)
      ensures old(serviceDefinition).None? && !FailedMemo(old(heap.cells), old(discovery)) ==>
                heap.cells == DefinitionCells(old(heap.cells), old(discovery)) && p == |heap.cells| - 1
                && heap.fetches == old(heap.fetches) + DefinitionFetches(old(heap.cells), old(discovery), url)
    {
      if serviceDefinition.Some? {
        p := serviceDefinition.value;
        return;
      }
      var d := GetDiscoveryDocument();
      assert OutcomeOf(heap.cells, discovery) == OutcomeOf(old(heap.cells), old(discovery));
      ghost var c1 := heap.cells;
      p := heap.Then(d, Fetch("data"), Absent);
      serviceDefinition := Some(p);
      assert Attachable(d, heap.cells);
      if old(discovery).None? {
        assert c1 == old(heap.cells) + [Fresh()] && c1[d] == Fresh();
        assert c1[d].handlers + [DefinitionHandler(p)] == [DefinitionHandler(p)];
        assert heap.cells == (c1 + [Fresh()])[d := c1[d].(handlers := c1[d].handlers + [DefinitionHandler(p)])];
        assert (c1 + [Fresh()])[d := Fresh().(handlers := [DefinitionHandler(p)])]
            == old(heap.cells) + [Fresh().(handlers := [DefinitionHandler(p)]), Fresh()];
      }
    }

    /** `forceRediscovery()`: forget both memoised promises. */
    method ForceRediscovery()
      requires Valid()
      modifies this
      ensures Valid() && discovery.None? && serviceDefinition.None?
    {
      discovery := None;
      serviceDefinition := None;
    }

    /**
     * `source.then(closure)` for the closure `tag` holding `captured`;
     * a failure of `source` passes through (`onBroken` absent) or is only
     * logged (`LogErrorTag`), leaving the promise pending.
     */
    method Derive(source: nat, tag: nat, captured: Value, onBroken: Reaction) returns (t: nat)
      requires Valid() && Attachable(source, heap.cells)
      requires onBroken == Absent || onBroken == Callback(LogErrorTag, Undefined)
      modifies heap
      ensures Valid() && Extends(old(heap.cells), heap.cells)
      ensures t == |old(heap.cells)| && t < |heap.cells|
      ensures old(heap.cells[source].outcome).None? ==>
                heap.cells == Derived(old(heap.cells), source, tag, captured, onBroken) && heap.fetches == old(heap.fetches)
      ensures var o := old(heap.cells[source].outcome);
              o.Some? && o.value.Fulfilled? && Program(tag, captured, o.value.value).Some? ==>
                SettledAs(heap.cells, t, Program(tag, captured, o.value.value).value)
      ensures var o := old(heap.cells[source].outcome);
              o.Some? && o.value.Failed? ==>
                (onBroken.Absent? ==> SettledAs(heap.cells, t, o.value))
                && (onBroken.Callback? ==> heap.cells[t] == Fresh())
    {
      t := heap.Then(source, Callback(tag, captured), onBroken);
      assert discovery.Some? ==> Attachable(discovery.value, heap.cells);
      assert serviceDefinition.Some? ==> Attachable(serviceDefinition.value, heap.cells);
    }

    /** `neo4j.Promise.wrap(v)` of a value that is no promise: a new promise, already fulfilled with it. */
    method WrapValue(v: Value) returns (p: nat)
      requires Valid()
      modifies heap
      ensures Valid() && Extends(old(heap.cells), heap.cells)
      ensures SettledAs(heap.cells, p, Fulfilled(v))
    {
      p := heap.Wrap(Plain(v));
      assert discovery.Some? ==> Attachable(discovery.value, heap.cells);
      assert serviceDefinition.Some? ==> Attachable(serviceDefinition.value, heap.cells);
    }

    /**
     * `nodeUri(id)`: a model's own URL at once; otherwise, once the service
     * definition is known, `NodeUrlFor` of it. `id.getSelf` on `null` or
     * `undefined` throws.
     */
    method NodeUri(id: Ref) returns (r: Result<nat, string>)
      requires Valid()
      modifies this, heap
      ensures Valid() && Extends(old(heap.cells), heap.cells)
      ensures r.Failure? <==> id.Id? && (id.v.Null? || id.v.Undefined?)
      ensures id.Model? ==> r.Success? && SettledAs(heap.cells, r.value, Fulfilled(id.self))
      ensures id.Id? && r.Success? ==>
                var o := OutcomeOf(old(heap.cells), old(serviceDefinition));
                o.Some? && o.value.Fulfilled? ==> SettledAs(heap.cells, r.value, Fulfilled(NodeUrlFor(o.value.value, id.v)))
      ensures id.Id? && r.Success? && old(serviceDefinition).Some? && OutcomeOf(old(heap.cells), old(serviceDefinition)).None? ==>
                heap.cells == Derived(old(heap.cells), old(serviceDefinition.value), NodeUriTag, id.v, Absent)
                && r.value == |old(heap.cells)| && heap.fetches == old(heap.fetches)
      ensures id.Id? && r.Success? ==>
                var o := OutcomeOf(old(heap.cells), old(serviceDefinition));
                o.Some? && o.value.Failed? ==> SettledAs(heap.cells, r.value, o.value)
      ensures id.Id? && r.Success? && old(serviceDefinition).None? && FailedMemo(old(heap.cells), old(discovery)) ==>
                SettledAs(heap.cells, r.value, OutcomeOf(old(heap.cells), old(discovery)).value)
      ensures id.Id? && r.Success? && old(serviceDefinition).None? && !FailedMemo(old(heap.cells), old(discovery)) ==>
                var c := DefinitionCells(old(heap.cells), old(discovery));
                serviceDefinition == Some(|c| - 1) && r.value == |c|
                && heap.cells == Derived(c, |c| - 1, NodeUriTag, id.v, Absent)
                && heap.fetches == old(heap.fetches) + DefinitionFetches(old(heap.cells), old(discovery), url)
    {
      match id
      case Model(self) =>
        var p := WrapValue(self);
        r := Success(p);
      case Id(v) =>
        if v.Null? || v.Undefined? {
          return Failure("TypeError");
        }
        var sd := GetServiceDefinition();
        ghost var o := OutcomeOf(old(heap.cells), old(serviceDefinition));
        assert o.Some? ==> heap.cells[sd].outcome == o;
        var t := Derive(sd, NodeUriTag, v, Absent);
        r := Success(t);
    }

    /**
     * `relUri(id)`: a model's own URL at once; otherwise, once the discovery
     * document is known, `RelUrlFor` of it.
     */
    method RelUri(id: Ref) returns (r: Result<nat, string>)
      requires Valid()
      modifies this, heap
      ensures Valid() && Extends(old(heap.cells), heap.cells)
      ensures r.Failure? <==> id.Id? && (id.v.Null? || id.v.Undefined?)
      ensures id.Model? ==> r.Success? && SettledAs(heap.cells, r.value, Fulfilled(id.self))
      ensures id.Id? && r.Success? ==>
                var o := OutcomeOf(old(heap.cells), old(discovery));
                o.Some? && o.value.Fulfilled? ==> SettledAs(heap.cells, r.value, Fulfilled(RelUrlFor(o.value.value, id.v)))
      ensures id.Id? && r.Success? && old(discovery).Some? && OutcomeOf(old(heap.cells), old(discovery)).None? ==>
                heap.cells == Derived(old(heap.cells), old(discovery.value), RelUriTag, id.v, Absent)
                && r.value == |old(heap.cells)| && heap.fetches == old(heap.fetches)
      ensures id.Id? && r.Success? ==>
                var o := OutcomeOf(old(heap.cells), old(discovery));
                o.Some? && o.value.Failed? ==> SettledAs(heap.cells, r.value, o.value)
      ensures id.Id? && r.Success? && old(discovery).None? ==>
                var d := |old(heap.cells)|;
                discovery == Some(d) && r.value == d + 1
                && heap.cells == Derived(old(heap.cells) + [Fresh()], d, RelUriTag, id.v, Absent)
                && heap.fetches == old(heap.fetches) + [FetchRequest(url, d)]
    {
      match id
      case Model(self) =>
        var p := WrapValue(self);
        r := Success(p);
      case Id(v) =>
        if v.Null? || v.Undefined? {
          return Failure("TypeError");
        }
        var d := GetDiscoveryDocument();
        ghost var o := OutcomeOf(old(heap.cells), old(discovery));
        assert o.Some? ==> heap.cells[d].outcome == o;
        var t := Derive(d, RelUriTag, v, Absent);
        r := Success(t);
    }

    /** `isNodeUrl(url)`: once the service definition is known, whether `url` is under its `node` URL. */
    method IsNodeUrl(url: string) returns (t: nat)
      requires Valid()
      modifies this, heap
      ensures Valid() && Extends(old(heap.cells), heap.cells) && t < |heap.cells|
      ensures var o := OutcomeOf(old(heap.cells), old(serviceDefinition));
              o.Some? && o.value.Fulfilled? ==> SettledAs(heap.cells, t, Fulfilled(Bool(IsNodeUrlOf(o.value.value, url))))
      ensures old(serviceDefinition).Some? && OutcomeOf(old(heap.cells), old(serviceDefinition)).None? ==>
                heap.cells == Derived(old(heap.cells), old(serviceDefinition.value), IsNodeUrlTag, Str(url), Absent)
                && t == |old(heap.cells)| && heap.fetches == old(heap.fetches)
      ensures var o := OutcomeOf(old(heap.cells), old(serviceDefinition));
              o.Some? && o.value.Failed? ==> SettledAs(heap.cells, t, o.value)
      ensures old(serviceDefinition).None? && FailedMemo(old(heap.cells), old(discovery)) ==>
                SettledAs(heap.cells, t, OutcomeOf(old(heap.cells), old(discovery)).value)
      ensures old(serviceDefinition).None? && !FailedMemo(old(heap.cells), old(discovery)) ==>
                var c := DefinitionCells(old(heap.cells), old(discovery));
                serviceDefinition == Some(|c| - 1) && t == |c|
                && heap.cells == Derived(c, |c| - 1, IsNodeUrlTag, Str(url), Absent)
                && heap.fetches == old(heap.fetches) + DefinitionFetches(old(heap.cells), old(discovery), this.url)
    {
      var sd := GetServiceDefinition();
      ghost var o := OutcomeOf(old(heap.cells), old(serviceDefinition));
      assert o.Some? ==> heap.cells[sd].outcome == o;
      t := Derive(sd, IsNodeUrlTag, Str(url), Absent);
    }

    /**
     * `getReferenceNodeUrl()`: once the service definition is known, its
     * `reference_node` or a failure; a failed definition is only logged and
     * the promise never completes.
     */
    method GetReferenceNodeUrl() returns (t: nat)
      requires Valid()
      modifies this, heap
      ensures Valid() && Extends(old(heap.cells), heap.cells) && t < |heap.cells|
      ensures var o := OutcomeOf(old(heap.cells), old(serviceDefinition));
              o.Some? && o.value.Fulfilled? ==> SettledAs(heap.cells, t, ReferenceNodeOutcome(o.value.value))
      ensures var o := OutcomeOf(old(heap.cells), old(serviceDefinition));
              o.Some? && o.value.Failed? ==> heap.cells[t].outcome.None?
      ensures old(serviceDefinition).Some? && OutcomeOf(old(heap.cells), old(serviceDefinition)).None? ==>
                heap.cells == Derived(old(heap.cells), old(serviceDefinition.value), ReferenceNodeTag, Undefined, Callback(LogErrorTag, Undefined))
                && t == |old(heap.cells)| && heap.fetches == old(heap.fetches)
      ensures old(serviceDefinition).None? && FailedMemo(old(heap.cells), old(discovery)) ==> heap.cells[t].outcome.None?
      ensures old(serviceDefinition).None? && !FailedMemo(old(heap.cells), old(discovery)) ==>
                var c := DefinitionCells(old(heap.cells), old(discovery));
                serviceDefinition == Some(|c| - 1) && t == |c|
                && heap.cells == Derived(c, |c| - 1, ReferenceNodeTag, Undefined, Callback(LogErrorTag, Undefined))
                && heap.fetches == old(heap.fetches) + DefinitionFetches(old(heap.cells), old(discovery), url)
    {
      var sd := GetServiceDefinition();
      ghost var o := OutcomeOf(old(heap.cells), old(serviceDefinition));
      assert o.Some? ==> heap.cells[sd].outcome == o;
      t := Derive(sd, ReferenceNodeTag, Undefined, Callback(LogErrorTag, Undefined));
    }

    /**
     * `promiseNodeOrNodeUrl(unknown)`: an object or a URL is wrapped as it
     * is; anything else is taken for an id and goes through `nodeUri`.
     */
    method PromiseNodeOrNodeUrl(unknown: Value) returns (r: Result<nat, string>)
      requires Valid()
      modifies this, heap
      ensures Valid() && Extends(old(heap.cells), heap.cells)
      ensures IsObjectType(unknown) || IsUrl(unknown) ==> r.Success? && SettledAs(heap.cells, r.value, Fulfilled(unknown))
      ensures r.Failure? <==> unknown.Undefined?
      ensures !IsObjectType(unknown) && !IsUrl(unknown) && r.Success? ==>
                var o := OutcomeOf(old(heap.cells), old(serviceDefinition));
                o.Some? && o.value.Fulfilled? ==> SettledAs(heap.cells, r.value, Fulfilled(NodeUrlFor(o.value.value, unknown)))
      ensures !IsObjectType(unknown) && !IsUrl(unknown) && r.Success? ==>
                var o := OutcomeOf(old(heap.cells), old(serviceDefinition));
                o.Some? && o.value.Failed? ==> SettledAs(heap.cells, r.value, o.value)
      ensures !IsObjectType(unknown) && !IsUrl(unknown) && r.Success? && old(serviceDefinition).Some? && OutcomeOf(old(heap.cells), old(serviceDefinition)).None? ==>
                heap.cells == Derived(old(heap.cells), old(serviceDefinition.value), NodeUriTag, unknown, Absent)
                && r.value == |old(heap.cells)| && heap.fetches == old(heap.fetches)
      ensures !IsObjectType(unknown) && !IsUrl(unknown) && r.Success? && old(serviceDefinition).None? && FailedMemo(old(heap.cells), old(discovery)) ==>
                SettledAs(heap.cells, r.value, OutcomeOf(old(heap.cells), old(discovery)).value)
      ensures !IsObjectType(unknown) && !IsUrl(unknown) && r.Success? && old(serviceDefinition).None? && !FailedMemo(old(heap.cells), old(discovery)) ==>
                var c := DefinitionCells(old(heap.cells), old(discovery));
                serviceDefinition == Some(|c| - 1) && r.value == |c|
                && heap.cells == Derived(c, |c| - 1, NodeUriTag, unknown, Absent)
                && heap.fetches == old(heap.fetches) + DefinitionFetches(old(heap.cells), old(discovery), url)
    {
      if IsObjectType(unknown) || IsUrl(unknown) {
        UndefinedIsNoUrl();
        var p := WrapValue(unknown);
        r := Success(p);
      } else {
        r := NodeUri(Id(unknown));
      }
    }
  }

  // ------------------------------------------------------ node and relationship dispatch

  /** What `node(arg)` does with a (resolved) argument. */
  datatype NodeRequest = CreateNode(data: Value) | FetchNode(ref: Value)

  /** `node(arg)`: an object is the data of a node to create; anything else names a node to fetch. */
  function NodeDispatch(arg: Value): (r: NodeRequest)
    ensures r.CreateNode? <==> IsObjectType(arg)
    ensures r.CreateNode? ==> r.data == arg
    ensures r.FetchNode? ==> r.ref == arg
  {
    if IsObjectType(arg) then CreateNode(arg) else FetchNode(arg)
  }

  /** What `relationship(from, type, to, data)` does. */
  datatype RelationshipRequest =
    | FetchRelationship(ref: Value)
    | CreateRelationship(from: Value, to: Value, relType: Value, data: Value)

  /**
   * `relationship(from, type, to, data)`: without a type, `from` names a
   * relationship to fetch; with one, the four promised parts are joined in
   * the order from, to, type, data (missing data counting as `{}`) and a
   * relationship is created from them.
   */
  function RelationshipDispatch(from: Value, relType: Value, to: Value, data: Value): (r: RelationshipRequest)
    ensures r.FetchRelationship? <==> relType.Undefined?
    ensures r.FetchRelationship? ==> r.ref == from
    ensures r.CreateRelationship? ==> r.from == from && r.to == to && r.relType == relType
    ensures r.CreateRelationship? && Truthy(data) ==> r.data == data
    ensures r.CreateRelationship? && !Truthy(data) ==> r.data == Obj([])
  {
    if relType.Undefined? then FetchRelationship(from)
    else CreateRelationship(from, to, relType, Or(data, Obj([])))
  }

  // ------------------------------------------------------ scenarios

  /** A second request reuses the discovery document; after `forceRediscovery` it is fetched again. */
  method Rediscovery(url: string) returns (fetched: seq<FetchRequest>)
    ensures fetched == [FetchRequest(url, 0), FetchRequest(url, 1)]
  {
    var db := new GraphDatabase(url);
    var p := db.GetDiscoveryDocument();
    var q := db.GetDiscoveryDocument();
    assert q == p;
    db.ForceRediscovery();
    var r := db.GetDiscoveryDocument();
    fetched := db.heap.fetches;
  }

  /** The service definition is fetched from the discovery document's `data` URL once that document has arrived. */
  method DefinitionAfterDiscovery(url: string, data: string) returns (first: FetchRequest, last: FetchRequest, definition: nat)
    ensures first == FetchRequest(url, 0)
    ensures last == FetchRequest(data, definition)
  {
    var db := new GraphDatabase(url);
    var d := db.GetDiscoveryDocument();
    first := db.heap.fetches[0];
    var doc := Obj([("data", Str(data))]);
    db.heap.Reply(0, Fulfilled(doc));
    assert db.discovery == Some(0) && Attachable(0, db.heap.cells);
    assert OutcomeOf(db.heap.cells, db.discovery) == Some(Fulfilled(doc));
    assert ToText(Field(doc, "data")) == data;
    definition := db.GetServiceDefinition();
    last := db.heap.fetches[|db.heap.fetches| - 1];
  }

  /**
   * `getServiceDefinition()` before the discovery document has arrived,
   * then the document's arrival: the definition is requested from the
   * document's `data` URL and is still pending.
   */
  method DefinitionRequested(url: string, data: string) returns (db: GraphDatabase)
    ensures fresh(db) && fresh(db.heap) && db.Valid() && db.url == url
    ensures db.serviceDefinition == Some(1) && 2 <= |db.heap.cells| && db.heap.cells[1] == Fresh()
    ensures db.heap.fetches == [FetchRequest(url, 0), FetchRequest(data, 1)]
  {
    db := new GraphDatabase(url);
    var sd := db.GetServiceDefinition();
    var doc := Obj([("data", Str(data))]);
    ghost var c1 := db.heap.cells[0 := db.heap.cells[0].(outcome := Some(Fulfilled(doc)))];
    assert db.heap.cells[0].handlers == [DefinitionHandler(1)];
    assert Field(doc, "data") == Str(data);
    db.heap.Reply(0, Fulfilled(doc));
    assert QuietUpTo([DefinitionHandler(1)], 1, Fulfilled(doc), c1);
    assert db.heap.cells[1] == c1[1];
  }

  /** The promises of a new database after its first call that derives a promise from the service definition. */
  lemma FirstDerived(tag: nat, captured: Value, onBroken: Reaction)
    ensures !FailedMemo([], None)
    ensures Derived(DefinitionCells([], None), 1, tag, captured, onBroken)
         == [Fresh().(handlers := [DefinitionHandler(1)]),
             Fresh().(handlers := [Handler(ThenFulfilled(2, Callback(tag, captured)), ThenFailed(2, onBroken))]),
             Fresh()]
  {
    var c := DefinitionCells([], None);
    var h := Handler(ThenFulfilled(2, Callback(tag, captured)), ThenFailed(2, onBroken));
    assert c == [Fresh().(handlers := [DefinitionHandler(1)]), Fresh()];
    assert c[1].handlers + [h] == [h];
    assert (c + [Fresh()])[1 := Fresh().(handlers := [h])] == [c[0], Fresh().(handlers := [h]), Fresh()];
  }

  /**
   * The discovery document arriving after a first call that hung promise
   * `2` on the definition with handler `h`: the definition is requested from
   * the document's `data` URL and `h` still waits on it.
   */
  method DiscoveryArrives(db: GraphDatabase, data: string, h: Handler)
    requires db.Valid()
    requires db.heap.cells == [Fresh().(handlers := [DefinitionHandler(1)]), Fresh().(handlers := [h]), Fresh()]
    requires db.heap.fetches == [FetchRequest(db.url, 0)]
    modifies db.heap
    ensures db.heap.Valid() && db.heap.program == Program
    ensures 2 < |db.heap.cells| && db.heap.cells[1] == Fresh().(handlers := [h]) && db.heap.cells[2] == Fresh()
    ensures db.heap.fetches == [FetchRequest(db.url, 0), FetchRequest(data, 1)]
  {
    var doc := Obj([("data", Str(data))]);
    ghost var c1 := db.heap.cells[0 := db.heap.cells[0].(outcome := Some(Fulfilled(doc)))];
    assert Field(doc, "data") == Str(data);
    db.heap.Reply(0, Fulfilled(doc));
    assert QuietUpTo([DefinitionHandler(1)], 1, Fulfilled(doc), c1);
    assert db.heap.cells[1] == c1[1] && db.heap.cells[2] == c1[2];
  }

  /** `nodeUri(5)` as the first call on a new database, then the discovery document's arrival. */
  method NodeUriPending(url: string, data: string) returns (db: GraphDatabase, t: nat)
    ensures fresh(db.heap) && db.heap.Valid() && db.heap.program == Program
    ensures 1 < t < |db.heap.cells| && db.heap.cells[t] == Fresh()
    ensures db.heap.cells[1] == Cell(None, [Handler(ThenFulfilled(t, Callback(NodeUriTag, Num(5))), ThenFailed(t, Absent))], None, false)
    ensures |db.heap.fetches| == 2 && db.heap.fetches[1] == FetchRequest(data, 1)
  {
    db := new GraphDatabase(url);
    var r := db.NodeUri(Id(Num(5)));
    t := r.value;
    FirstDerived(NodeUriTag, Num(5), Absent);
    DiscoveryArrives(db, data, Handler(ThenFulfilled(t, Callback(NodeUriTag, Num(5))), ThenFailed(t, Absent)));
  }

  /** The node URL of id 5 under a definition whose `node` URL is `node`. */
  lemma NodeUrlOfFive(node: string)
    ensures NodeUrlFor(Obj([("node", Str(node))]), Num(5)) == Str(node + "/5")
  {
    assert ToText(Num(5)) == "5";
    assert Field(Obj([("node", Str(node))]), "node") == Str(node);
  }

  /** `nodeUri(5)` called before either GET is answered: the two answers decide the node URL. */
  method NodeUriLater(url: string, data: string, node: string) returns (got: Option<Outcome>)
    ensures got == Some(Fulfilled(Str(node + "/5")))
  {
    var db, t := NodeUriPending(url, data);
    var definition := Obj([("node", Str(node))]);
    var h := Handler(ThenFulfilled(t, Callback(NodeUriTag, Num(5))), ThenFailed(t, Absent));
    ghost var c1 := db.heap.cells[1 := db.heap.cells[1].(outcome := Some(Fulfilled(definition)))];
    db.heap.Reply(1, Fulfilled(definition));
    HandlerAchieved(Program, c1, db.heap.cells, [h], Fulfilled(definition), 0);
    NodeUrlOfFive(node);
    got := db.heap.cells[t].outcome;
  }

  /** `isNodeUrl(candidate)` as the first call on a new database, then the discovery document's arrival. */
  method IsNodeUrlPending(url: string, data: string, candidate: string) returns (db: GraphDatabase, t: nat)
    ensures fresh(db.heap) && db.heap.Valid() && db.heap.program == Program
    ensures 1 < t < |db.heap.cells| && db.heap.cells[t] == Fresh()
    ensures db.heap.cells[1] == Cell(None, [Handler(ThenFulfilled(t, Callback(IsNodeUrlTag, Str(candidate))), ThenFailed(t, Absent))], None, false)
    ensures |db.heap.fetches| == 2 && db.heap.fetches[1] == FetchRequest(data, 1)
  {
    db := new GraphDatabase(url);
    t := db.IsNodeUrl(candidate);
    FirstDerived(IsNodeUrlTag, Str(candidate), Absent);
    DiscoveryArrives(db, data, Handler(ThenFulfilled(t, Callback(IsNodeUrlTag, Str(candidate))), ThenFailed(t, Absent)));
  }

  /** `isNodeUrl(node + "/7")` called before either GET is answered: the two answers make it true. */
  method IsNodeUrlLater(url: string, data: string, node: string) returns (got: Option<Outcome>)
    ensures got == Some(Fulfilled(Bool(true)))
  {
    var db, t := IsNodeUrlPending(url, data, node + "/7");
    var definition := Obj([("node", Str(node))]);
    var h := Handler(ThenFulfilled(t, Callback(IsNodeUrlTag, Str(node + "/7"))), ThenFailed(t, Absent));
    ghost var c1 := db.heap.cells[1 := db.heap.cells[1].(outcome := Some(Fulfilled(definition)))];
    db.heap.Reply(1, Fulfilled(definition));
    HandlerAchieved(Program, c1, db.heap.cells, [h], Fulfilled(definition), 0);
    assert Field(definition, "node") == Str(node);
    got := db.heap.cells[t].outcome;
  }

  /** `getReferenceNodeUrl()` as the first call on a new database, then the discovery document's arrival. */
  method ReferenceNodePending(url: string, data: string) returns (db: GraphDatabase, t: nat)
    ensures fresh(db.heap) && db.heap.Valid() && db.heap.program == Program
    ensures 1 < t < |db.heap.cells| && db.heap.cells[t] == Fresh()
    ensures db.heap.cells[1]
         == Cell(None, [Handler(ThenFulfilled(t, Callback(ReferenceNodeTag, Undefined)), ThenFailed(t, Callback(LogErrorTag, Undefined)))], None, false)
    ensures |db.heap.fetches| == 2 && db.heap.fetches[1] == FetchRequest(data, 1)
  {
    db := new GraphDatabase(url);
    t := db.GetReferenceNodeUrl();
    FirstDerived(ReferenceNodeTag, Undefined, Callback(LogErrorTag, Undefined));
    DiscoveryArrives(db, data, Handler(ThenFulfilled(t, Callback(ReferenceNodeTag, Undefined)), ThenFailed(t, Callback(LogErrorTag, Undefined))));
  }

  /** `getReferenceNodeUrl()` called before either GET is answered: the two answers give the `reference_node` URL. */
  method ReferenceNodeLater(url: string, data: string, reference: string) returns (got: Option<Outcome>)
    ensures got == Some(Fulfilled(Str(reference)))
  {
    var db, t := ReferenceNodePending(url, data);
    var definition := Obj([("reference_node", Str(reference))]);
    var h := Handler(ThenFulfilled(t, Callback(ReferenceNodeTag, Undefined)), ThenFailed(t, Callback(LogErrorTag, Undefined)));
    ghost var c1 := db.heap.cells[1 := db.heap.cells[1].(outcome := Some(Fulfilled(definition)))];
    db.heap.Reply(1, Fulfilled(definition));
    HandlerAchieved(Program, c1, db.heap.cells, [h], Fulfilled(definition), 0);
    assert Field(definition, "reference_node") == Str(reference);
    got := db.heap.cells[t].outcome;
  }

  /** `relUri(5)` as the first call on a new database. */
  method RelUriPending(url: string) returns (db: GraphDatabase, t: nat)
    ensures fresh(db.heap) && db.heap.Valid() && db.heap.program == Program
    ensures 0 < t < |db.heap.cells| && db.heap.cells[t] == Fresh()
    ensures db.heap.cells[0] == Cell(None, [Handler(ThenFulfilled(t, Callback(RelUriTag, Num(5))), ThenFailed(t, Absent))], None, false)
    ensures db.heap.fetches == [FetchRequest(url, 0)]
  {
    db := new GraphDatabase(url);
    var r := db.RelUri(Id(Num(5)));
    t := r.value;
  }

  /** The URL of relationship 5 under a discovery document whose `data` URL is `data`. */
  lemma RelUrlOfFive(data: string)
    ensures RelUrlFor(Obj([("data", Str(data))]), Num(5)) == Str(data + "relationship/5")
  {
    assert ToText(Num(5)) == "5";
    assert Field(Obj([("data", Str(data))]), "data") == Str(data);
  }

  /** `relUri(5)` before the discovery document has arrived: its arrival decides the relationship URL. */
  method RelUriLater(url: string, data: string) returns (got: Option<Outcome>)
    ensures got == Some(Fulfilled(Str(data + "relationship/5")))
  {
    var db, t := RelUriPending(url);
    var doc := Obj([("data", Str(data))]);
    var h := Handler(ThenFulfilled(t, Callback(RelUriTag, Num(5))), ThenFailed(t, Absent));
    ghost var c1 := db.heap.cells[0 := db.heap.cells[0].(outcome := Some(Fulfilled(doc)))];
    db.heap.Reply(0, Fulfilled(doc));
    HandlerAchieved(Program, c1, db.heap.cells, [h], Fulfilled(doc), 0);
    RelUrlOfFive(data);
    got := db.heap.cells[t].outcome;
  }

  /** The id 5 is neither an object nor a URL: its text "5" holds no "://". */
  lemma FiveIsNoUrl()
    ensures !IsObjectType(Num(5)) && !IsUrl(Num(5))
  {
    var t := ToText(Num(5));
    assert t == "5";
    assert |t| < 3;
  }

  /** `promiseNodeOrNodeUrl(5)` called before either GET is answered: the id goes through `nodeUri`, and the answers decide the URL. */
  method PromiseNodeOrNodeUrlLater(url: string, data: string, node: string) returns (got: Option<Outcome>)
    ensures got == Some(Fulfilled(Str(node + "/5")))
  {
    var db := new GraphDatabase(url);
    FiveIsNoUrl();
    var r := db.PromiseNodeOrNodeUrl(Num(5));
    var t := r.value;
    var h := Handler(ThenFulfilled(t, Callback(NodeUriTag, Num(5))), ThenFailed(t, Absent));
    FirstDerived(NodeUriTag, Num(5), Absent);
    DiscoveryArrives(db, data, h);
    var definition := Obj([("node", Str(node))]);
    ghost var c1 := db.heap.cells[1 := db.heap.cells[1].(outcome := Some(Fulfilled(definition)))];
    db.heap.Reply(1, Fulfilled(definition));
    HandlerAchieved(Program, c1, db.heap.cells, [h], Fulfilled(definition), 0);
    NodeUrlOfFive(node);
    got := db.heap.cells[t].outcome;
  }
}
