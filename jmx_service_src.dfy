/**
 * `neo4j.services.JmxService` (the `src` revision). The kernel instance is
 * found, cached and gated as in the `lib` revision (`JmxService`); here the
 * domain and object name of `getBean` are rewritten inside the caller's own
 * `arguments`, also for the magic domain `neo4j`, and `getDomain` and
 * `query` hand the server's answer on unchanged.
 */
module JmxServiceSrc {
  import opened JsValue
  import Service
  import JmxService

  const GetDomainsResource := Service.Resource("domains", "GET", [])
  const GetDomainResource := Service.Resource("domain", "GET", ["domain"])
  const GetBeanResource := Service.Resource("bean", "GET", ["domain", "objectName"])
  const QueryResource := Service.Resource("query", "POST", [])

  /** What `getBean`'s wrap does next. */
  datatype WrapStep =
    /** Ask `kernelInstance`; its answer rewrites the same `args`. */
    | AwaitKernelInstance
    /** Call the resource method with these arguments. */
    | CallResource(args: seq<Value>)

  /**
   * `getBean`'s wrap: for the domain `neo4j` (strict equality) wait for the
   * kernel instance, `args` untouched so far; for any other domain escape
   * the domain and the object name in place and call the resource.
   */
  method GetBeanWrap(args: array<Value>, escape: string -> string) returns (next: WrapStep)
    modifies args
    ensures old(Service.ArgAt(args[..], 0)) == Str("neo4j") ==> args[..] == old(args[..]) && next == AwaitKernelInstance
    ensures old(Service.ArgAt(args[..], 0)) != Str("neo4j") ==>
              JmxService.EscapedInPlace(old(args[..]), args[..], escape) && next == CallResource(args[..])
  {
    if Service.ArgAt(args[..], 0) == Str("neo4j") {
      return AwaitKernelInstance;
    }
    if args.Length > 0 {
      args[0] := JmxService.Escaped(escape, args[0]);
    }
    if args.Length > 1 {
      args[1] := JmxService.Escaped(escape, args[1]);
    }
    next := CallResource(args[..]);
  }

  /**
   * The `arguments` after `args[0] = "org.neo4j"; args[1] =
   * escape(instanceName + ",name=" + args[1])`: the two first positions
   * rewritten, every other argument kept in its place, the length kept.
   */
  function RewrittenForKernel(before: seq<Value>, instanceName: Value, escape: string -> string): (after: seq<Value>)
    ensures |after| == |before|
    ensures |before| > 0 ==> after[0] == Str("org.neo4j")
    ensures |before| > 1 ==> after[1] == Str(escape(ToText(instanceName) + ",name=" + ToText(before[1])))
    ensures forall i | 2 <= i < |before| :: after[i] == before[i]
  {
    var first := if |before| > 0 then before[0 := Str("org.neo4j")] else before;
    if |before| > 1 then first[1 := Str(escape(ToText(instanceName) + ",name=" + ToText(before[1])))] else first
  }

  /** The kernel instance arrives: the waiting `arguments` are rewritten in place and the resource is called with them. */
  method KernelInstanceArrives(args: array<Value>, instanceName: Value, escape: string -> string) returns (call: seq<Value>)
    modifies args
    ensures args[..] == RewrittenForKernel(old(args[..]), instanceName, escape)
    ensures call == args[..]
  {
    var name := Service.ArgAt(args[..], 1);
    if args.Length > 0 {
      args[0] := Str("org.neo4j");
    }
    if args.Length > 1 {
      args[1] := Str(escape(ToText(instanceName) + ",name=" + ToText(name)));
    }
    call := args[..];
  }

  /**
   * Called as `getBean("neo4j", name, callback)`, both revisions make the
   * same call; with more arguments the `src` revision passes the extra ones
   * on, where the `lib` revision drops them.
   */
  lemma RevisionsAgreeOnNeo4jBean(before: seq<Value>, instanceName: Value, escape: string -> string)
    requires |before| >= 3
    ensures RewrittenForKernel(before, instanceName, escape)[..3]
            == JmxService.KernelBeanArgs(escape, instanceName, before[1], before[2])
    ensures |before| == 3 ==> RewrittenForKernel(before, instanceName, escape)
                              == JmxService.KernelBeanArgs(escape, instanceName, before[1], before[2])
    ensures |before| > 3 ==> |RewrittenForKernel(before, instanceName, escape)| > |JmxService.KernelBeanArgs(escape, instanceName, before[1], before[2])|
  {
    var after := RewrittenForKernel(before, instanceName, escape);
    assert after[..3] == [after[0], after[1], after[2]];
  }

  /**
   * `getBean("neo4j", name, callback)` end to end: the wrap waits, the kernel
   * query `domain:instance,rest` names the instance, and the resource is
   * called for `org.neo4j` with the escaped `instance,name=<name>` and the
   * caller's callback.
   */
  method Neo4jBean(name: Value, callback: Value, domain: string, instance: string, rest: string, escape: string -> string)
    returns (call: seq<Value>)
    requires ':' !in domain && ':' !in instance && ',' !in instance
    ensures call == [Str("org.neo4j"), Str(escape(instance + ",name=" + ToText(name))), callback]
  {
    var args := new Value[3][Str("neo4j"), name, callback];
    var next := GetBeanWrap(args, escape);
    assert next == AwaitKernelInstance;
    JmxService.KernelInstanceSegment(domain, instance, rest);
    var found := JmxService.KernelInstanceOf(Str(domain + ":" + instance + "," + rest));
    call := KernelInstanceArrives(args, found.value, escape);
  }
}
