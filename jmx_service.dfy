/**
 * `neo4j.services.JmxService` (the `lib` revision): the JMX beans the
 * server exposes. The client finds the kernel instance behind the REST
 * server (cached for two seconds), maps the magic domain `neo4j` onto it
 * when fetching a bean, and wraps the server's bean records as `JMXBean`s.
 *
 * The host's `escape` is a parameter: only the strings handed to it and
 * the places its answers go are modelled.
 */
module JmxService {
  import opened Wrappers
  import opened Strings
  import opened JsValue
  import JmxBean
  import CachedFunction
  import Service

  const GetDomainsResource := Service.Resource("domains", "GET", [])
  const GetDomainResource := Service.Resource("domain", "GET", ["domain"])
  const GetBeanResource := Service.Resource("bean", "GET", ["domain", "objectName"])
  const QueryResource := Service.Resource("query", "POST", [])

  /** `kernelInstance` is cached for this many milliseconds. */
  const KernelInstanceTimeout := 2000

  /** The answer function the cache hands to `kernelInstance`; only its identity matters. */
  const KernelInstanceAnswer: Value := Fn(1)

  /** The function `kernelInstance` passes through the preflight; only its identity matters. */
  const KernelQuery: nat := 1

  // ------------------------------------------------------ the kernel instance

  /**
   * The kernel query's answer, `data ? data.split(":")[1].split(",")[0] :
   * null`: the text between the first `:` and the next `,`. A truthy
   * answer that is no string, or a string without `:`, makes it throw.
   */
  function KernelInstanceOf(data: Value): (r: Result<Value, string>)
    ensures r == Success(Null) <==> !Truthy(data)
    ensures Truthy(data) ==> (r.Success? <==> data.Str? && ':' in data.s)
    ensures Truthy(data) && r.Success? ==> r.value.Str? && ',' !in r.value.s
  {
    if !Truthy(data) then Success(Null)
    else if !data.Str? then Failure("TypeError: data.split is not a function")
    else
      JmxBean.SplitInTwo(data.s, ':');
      var segments := Split(data.s, ':');
      if |segments| < 2 then Failure("TypeError: Cannot call method 'split' of undefined")
      else Success(Str(Split(segments[1], ',')[0]))
  }

  /**
   * A kernel query `domain:instance,rest` names the instance `instance`,
   * whatever the rest holds: `org.neo4j:instance=kernel#0,name=*` gives
   * `instance=kernel#0`.
   */
  lemma KernelInstanceSegment(domain: string, instance: string, rest: string)
    requires ':' !in domain && ':' !in instance && ',' !in instance
    ensures KernelInstanceOf(Str(domain + ":" + instance + "," + rest)) == Success(Str(instance))
  {
    var s := domain + ":" + instance + "," + rest;
    assert s == domain + [':'] + (instance + "," + rest);
    SplitFirst(domain, ':', instance + "," + rest);
    var tail := Split(rest, ':')[0];
    assert instance + "," + rest == instance + ([','] + rest);
    SplitHead(instance + ",", ':', rest);
    assert (instance + ",") + rest == instance + "," + rest;
    assert Split(s, ':')[1] == instance + [','] + tail;
    SplitFirst(instance, ',', tail);
  }

  // ------------------------------------------------------ getBean

  /** `escape(v)`: the host escapes the string `v` turns into. */
  function Escaped(escape: string -> string, v: Value): Value
  {
    Str(escape(ToText(v)))
  }

  /**
   * `args` after `args[0] = escape(args[0]); args[1] = escape(args[1])` on
   * an `arguments` object: the two first arguments escaped, the others
   * untouched, and the length kept (writing past it is not seen by
   * `apply`).
   */
  predicate EscapedInPlace(before: seq<Value>, after: seq<Value>, escape: string -> string)
  {
    && |after| == |before|
    && (|before| > 0 ==> after[0] == Escaped(escape, before[0]))
    && (|before| > 1 ==> after[1] == Escaped(escape, before[1]))
    && forall i | 2 <= i < |before| :: after[i] == before[i]
  }

  /** What `getBean`'s before-hook does next. */
  datatype BeanRequest =
    /** Ask `kernelInstance`, remembering the object name and the callback. */
    | AwaitKernelInstance(name: Value, callback: Value)
    /** Call the resource method with these arguments. */
    | CallResource(args: seq<Value>)

  /**
   * `getBean`'s before-hook: for the domain `neo4j` (strict equality) wait
   * for the kernel instance and leave `args` alone; for any other domain
   * escape the domain and the object name in place and call the resource.
   */
  method GetBeanBefore(args: array<Value>, escape: string -> string) returns (next: BeanRequest)
    modifies args
    ensures old(Service.ArgAt(args[..], 0)) == Str("neo4j") ==>
              args[..] == old(args[..])
              && next == AwaitKernelInstance(old(Service.ArgAt(args[..], 1)), old(Service.ArgAt(args[..], 2)))
    ensures old(Service.ArgAt(args[..], 0)) != Str("neo4j") ==>
              EscapedInPlace(old(args[..]), args[..], escape) && next == CallResource(args[..])
  {
    if Service.ArgAt(args[..], 0) == Str("neo4j") {
      next := AwaitKernelInstance(Service.ArgAt(args[..], 1), Service.ArgAt(args[..], 2));
      return;
    }
    if args.Length > 0 {
      args[0] := Escaped(escape, args[0]);
    }
    if args.Length > 1 {
      args[1] := Escaped(escape, args[1]);
    }
    next := CallResource(args[..]);
  }

  /** `["org.neo4j", escape(instanceName + ",name=" + name), callback]`: the call once the instance is known. */
  function KernelBeanArgs(escape: string -> string, instanceName: Value, name: Value, callback: Value): seq<Value>
  {
    [Str("org.neo4j"), Str(escape(ToText(instanceName) + ",name=" + ToText(name))), callback]
  }

  /**
   * A bean of the domain `neo4j` is fetched from `org.neo4j`, under the
   * object name `instance,name=<name>` escaped, where `instance` is what the
   * kernel query names, and with the caller's callback.
   */
  lemma Neo4jBeanRequest(escape: string -> string, domain: string, instance: string, rest: string, name: Value, callback: Value)
    requires ':' !in domain && ':' !in instance && ',' !in instance
    ensures var found := KernelInstanceOf(Str(domain + ":" + instance + "," + rest));
      && found.Success?
      && KernelBeanArgs(escape, found.value, name, callback)
         == [Str("org.neo4j"), Str(escape(instance + ",name=" + ToText(name))), callback]
  {
    KernelInstanceSegment(domain, instance, rest);
  }

  /** `data[i]` for `i < data.length`: an array's elements, or a string's characters. */
  function Elements(data: Value): (r: seq<Value>)
    ensures data.Arr? ==> r == data.items
    ensures data.Str? ==> |r| == |data.s| && forall i | 0 <= i < |r| :: r[i] == Str([data.s[i]])
    ensures !data.Arr? && !data.Str? ==> r == []
  {
    match data
    case Arr(items) => items
    case Str(s) => seq(|s|, i requires 0 <= i < |s| => Str([s[i]]))
    case _ => []
  }

  /** The answer's length can be read: `null` and `undefined` have none. */
  predicate Readable(data: Value)
  {
    !data.Null? && !data.Undefined?
  }

  /**
   * `getBean`'s after-hook: what its callback is handed, a bean built from
   * the first element or `null` (`None`) for an empty answer; a failure is
   * the error thrown instead.
   */
  function GetBeanAfter(data: Value): (r: Result<Option<JmxBean.Bean>, string>)
    ensures (r.Success? && r.value.None?) <==> Readable(data) && Elements(data) == []
    ensures Readable(data) && Elements(data) != [] ==>
              (r.Success? <==> JmxBean.Parse(Elements(data)[0]).Success?)
              && (r.Success? ==> r.value == Some(JmxBean.Parse(Elements(data)[0]).value))
  {
    if !Readable(data) then Failure("TypeError: Cannot read property 'length' of " + ToText(data))
    else if Elements(data) == [] then Success(None)
    else
      match JmxBean.Parse(Elements(data)[0])
      case Success(bean) => Success(Some(bean))
      case Failure(e) => Failure(e)
  }

  /**
   * Only the first element of the answer matters: the bean keeps that
   * element's JMX name and its domain is the name's first segment.
   */
  lemma GetBeanAfterFirstOnly(first: Value, rest: seq<Value>)
    requires Field(first, "name").Str? && ':' in Field(first, "name").s
    ensures GetBeanAfter(Arr([first] + rest)) == GetBeanAfter(Arr([first]))
    ensures var r := GetBeanAfter(Arr([first] + rest));
      && r.Success? && r.value.Some?
      && r.value.value.jmxName == Field(first, "name")
      && r.value.value.domain == Str(JmxBean.DomainOf(Field(first, "name").s))
  {
    var all, one := Arr([first] + rest), Arr([first]);
    assert Elements(all)[0] == first && Elements(one)[0] == first;
    assert JmxBean.Parse(first).Success?;
  }

  // ------------------------------------------------------ getDomain

  /** What `getDomain`'s callback is handed: the answer `data`, its `beans` replaced by these beans. */
  datatype DomainAnswer = DomainAnswer(data: Value, beans: seq<JmxBean.Bean>)

  /**
   * The rounds of `for (i = 0, l = data.beans; i < l; i++)`: `i < l`
   * compares with `Number(data.beans)`, and NaN ends the loop at once.
   */
  function RoundsAsWritten(beans: Value): nat
  {
    match ToNumber(beans)
    case Some(n) => if n > 0 then n else 0
    case None => 0
  }

  /** `beans[i]`: an element or a character, `undefined` past the end. */
  function ElementAt(beans: Value, i: nat): Value
  {
    if i < |Elements(beans)| then Elements(beans)[i] else Undefined
  }

  /**
   * `getDomain`'s after-hook as written: the loop runs `RoundsAsWritten`
   * times, building a bean from `data.beans[i]` each time; building stops
   * with the error of the first element that throws.
   */
  method GetDomainAfterAsWritten(data: Value) returns (r: Result<DomainAnswer, string>)
    ensures r.Success? <==> Readable(data) && forall j | 0 <= j < RoundsAsWritten(Field(data, "beans")) ::
                                               JmxBean.Parse(ElementAt(Field(data, "beans"), j)).Success?
    ensures r.Success? ==> r.value.data == data && |r.value.beans| == RoundsAsWritten(Field(data, "beans"))
                           && forall j | 0 <= j < |r.value.beans| ::
                                r.value.beans[j] == JmxBean.Parse(ElementAt(Field(data, "beans"), j)).value
  {
    if !Readable(data) {
      return Failure("TypeError: Cannot read property 'beans' of " + ToText(data));
    }
    var list := Field(data, "beans");
    var rounds := RoundsAsWritten(list);
    var beans: seq<JmxBean.Bean> := [];
    var i := 0;
    while i < rounds
      invariant 0 <= i <= rounds && |beans| == i
      invariant forall j | 0 <= j < i :: JmxBean.Parse(ElementAt(list, j)) == Success(beans[j])
    {
      var bean := JmxBean.Parse(ElementAt(list, i));
      if bean.Failure? {
        assert !JmxBean.Parse(ElementAt(list, i)).Success?;
        return Failure(bean.error);
      }
      var next := beans + [bean.value];
      forall j | 0 <= j < i + 1 ensures JmxBean.Parse(ElementAt(list, j)) == Success(next[j]) {
        if j < i {
          assert next[j] == beans[j];
        }
      }
      beans := next;
      i := i + 1;
    }
    r := Success(DomainAnswer(data, beans));
  }

  /**
   * As written, an answer listing bean objects comes back with no beans at
   * all: `Number` of such a list is NaN, so the loop never runs.
   */
  method DomainBeansLostAsWritten(data: Value) returns (r: Result<DomainAnswer, string>)
    requires Readable(data) && Field(data, "beans").Arr? && Field(data, "beans").items != []
    requires forall j | 0 <= j < |Field(data, "beans").items| :: Field(data, "beans").items[j].Obj?
    ensures r == Success(DomainAnswer(data, []))
  {
    var items := Field(data, "beans").items;
    assert |items| == 1 ==> items[0].Obj?;
    r := GetDomainAfterAsWritten(data);
  }

  /**
   * `getDomain`'s after-hook as intended, bounded by `data.beans.length`:
   * every bean of the answer built, in order.
   */
  method GetDomainAfter(data: Value) returns (r: Result<DomainAnswer, string>)
    ensures r.Success? <==> Readable(data) && Readable(Field(data, "beans"))
                            && forall i | 0 <= i < |Elements(Field(data, "beans"))| ::
                                 JmxBean.Parse(Elements(Field(data, "beans"))[i]).Success?
    ensures r.Success? ==> r.value.data == data && |r.value.beans| == |Elements(Field(data, "beans"))|
                           && forall i | 0 <= i < |r.value.beans| ::
                                r.value.beans[i] == JmxBean.Parse(Elements(Field(data, "beans"))[i]).value
  {
    if !Readable(data) {
      return Failure("TypeError: Cannot read property 'beans' of " + ToText(data));
    }
    var built := QueryAfter(Field(data, "beans"));
    match built
    case Success(beans) => r := Success(DomainAnswer(data, beans));
    case Failure(e) => r := Failure(e);
  }

  /** As intended, an answer listing named bean objects keeps every one of its beans. */
  method DomainBeansKept(data: Value) returns (r: Result<DomainAnswer, string>)
    requires Readable(data) && Field(data, "beans").Arr?
    requires forall j | 0 <= j < |Field(data, "beans").items| ::
               Field(Field(data, "beans").items[j], "name").Str? && ':' in Field(Field(data, "beans").items[j], "name").s
    ensures r.Success? && |r.value.beans| == |Field(data, "beans").items|
  {
    r := GetDomainAfter(data);
  }

  // ------------------------------------------------------ query

  /**
   * The loop of `query`'s after-hook over the answer's elements, with the
   * bean constructor as `build`: every element built, in order; building
   * stops with the error of the first element that throws.
   */
  method BuildEach(elements: seq<Value>, build: Value -> Result<JmxBean.Bean, string>)
    returns (r: Result<seq<JmxBean.Bean>, string>)
    ensures r.Success? <==> forall i | 0 <= i < |elements| :: build(elements[i]).Success?
    ensures r.Success? ==> |r.value| == |elements| && forall i | 0 <= i < |r.value| :: r.value[i] == build(elements[i]).value
    ensures r.Failure? ==>
              exists i | 0 <= i < |elements| ::
                build(elements[i]) == Failure(r.error) && forall j | 0 <= j < i :: build(elements[j]).Success?
  {
    var beans: seq<JmxBean.Bean> := [];
    var i := 0;
    while i < |elements|
      invariant 0 <= i <= |elements| && |beans| == i
      invariant forall j | 0 <= j < i :: build(elements[j]) == Success(beans[j])
    {
      var bean := build(elements[i]);
      if bean.Failure? {
        return Failure(bean.error);
      }
      var next := beans + [bean.value];
      forall j | 0 <= j < i + 1 ensures build(elements[j]) == Success(next[j]) {
        if j < i {
          assert next[j] == beans[j];
        }
      }
      beans := next;
      i := i + 1;
    }
    r := Success(beans);
  }

  /**
   * `query`'s after-hook: every element of the answer built into a bean, in
   * order; building stops with the error of the first element that throws.
   */
  method QueryAfter(data: Value) returns (r: Result<seq<JmxBean.Bean>, string>)
    ensures r.Success? <==> Readable(data) && forall i | 0 <= i < |Elements(data)| :: JmxBean.Parse(Elements(data)[i]).Success?
    ensures r.Success? ==> |r.value| == |Elements(data)|
                           && forall i | 0 <= i < |r.value| :: r.value[i] == JmxBean.Parse(Elements(data)[i]).value
    ensures r.Failure? && Readable(data) ==>
              exists i | 0 <= i < |Elements(data)| ::
                JmxBean.Parse(Elements(data)[i]) == Failure(r.error)
                && forall j | 0 <= j < i :: JmxBean.Parse(Elements(data)[j]).Success?
  {
    if !Readable(data) {
      return Failure("TypeError: Cannot read property 'length' of " + ToText(data));
    }
    r := BuildEach(Elements(data), JmxBean.Parse);
  }

  // ------------------------------------------------------ the service

  class JmxService {
    const service: Service.Service
    /** `this.kernelInstance`, replaced by `cachedFunction(this.kernelInstance, 0, 2000)`. */
    const kernelInstance: CachedFunction.CachedFunction

    ghost predicate Valid()
      reads this, service, service.loader, kernelInstance
    {
      service.Valid() && kernelInstance.Valid() && kernelInstance != service.loader
      && kernelInstance.callbackArg == 0 && kernelInstance.timeout == KernelInstanceTimeout
      && kernelInstance.answer == KernelInstanceAnswer
    }

    /** `new JmxService(db)`: a fresh service gateway and an empty kernel instance cache. */
    constructor()
      ensures Valid() && fresh(service) && fresh(service.loader) && fresh(kernelInstance)
      ensures service.Snapshot() == Service.Snap(false, None, Undefined, Null, [], [], [], [], [], [],
                                                 false, [], Null, [], [], [])
      ensures !kernelInstance.isCached && kernelInstance.waitingList == [] && kernelInstance.forwarded == []
    {
      service := new Service.Service();
      kernelInstance := new CachedFunction.CachedFunction(0, KernelInstanceTimeout, KernelInstanceAnswer);
    }

    /**
     * `this.kernelInstance(callback)`: through the cache; only a call the
     * cache forwards reaches the service, and it does so through the
     * preflight gate, with the cache's answer function as its callback.
     */
    method KernelInstance(callback: Value) returns (thrown: Option<string>)
      requires Valid()
      modifies service, service.loader, kernelInstance
      ensures Valid()
      ensures old(!kernelInstance.isCached && kernelInstance.waitingList == []) ==>
                (service.Snapshot(), thrown)
                == Service.PreflightSpec(old(service.Snapshot()), Service.WaitingCall(KernelQuery, [KernelInstanceAnswer]))
      ensures !old(!kernelInstance.isCached && kernelInstance.waitingList == []) ==>
                thrown == None && service.Snapshot() == old(service.Snapshot())
      ensures kernelInstance.waitingList == old(kernelInstance.waitingList) + (if old(kernelInstance.isCached) then [] else [callback])
    {
      var forwards := !kernelInstance.isCached && kernelInstance.waitingList == [];
      kernelInstance.Call([callback]);
      if forwards {
        thrown := service.Preflight(Service.WaitingCall(KernelQuery, [KernelInstanceAnswer]));
      } else {
        thrown := None;
      }
    }
  }
}
