/**
 * `neo4j.models.JMXBean`: a server-side JMX bean, its domain and the
 * key/value properties read off its JMX name
 * (`some.domain:type=MemoryManager,name=CodeCacheManager`), its
 * attributes and description. A bean's fields are set once, when it is
 * built, so it is modelled as a value.
 */
module JmxBean {
  import opened Wrappers
  import opened Strings
  import opened JsValue
  import OrderedMaps

  /** `part.split("=")[0]`. */
  function PairKey(part: string): string
  {
    Split(part, '=')[0]
  }

  /** `part.split("=")[1]`: `undefined` when the part has no `=`. */
  function PairValue(part: string): (v: Value)
    ensures v.Undefined? <==> '=' !in part
  {
    var p := Split(part, '=');
    SplitInTwo(part, '=');
    if |p| > 1 then Str(p[1]) else Undefined
  }

  /** A string holding the separator splits into at least two parts. */
  lemma SplitHasTwo(s: string, c: char)
    requires c in s
    ensures |Split(s, c)| >= 2
  {
    var i :| 0 <= i < |s| && s[i] == c;
    while i > 0 && c in s[..i]
      invariant 0 <= i < |s| && s[i] == c
      decreases i
    {
      var j :| 0 <= j < i && s[j] == c;
      i := j;
    }
    assert s == s[..i] + [c] + s[i + 1..];
    SplitFirst(s[..i], c, s[i + 1..]);
  }

  /** A string splits into more than one part exactly when it holds the separator. */
  lemma SplitInTwo(s: string, c: char)
    ensures |Split(s, c)| >= 2 <==> c in s
  {
    if c in s { SplitHasTwo(s, c); } else { SplitAbsent(s, c); }
  }

  /** Each part read as a key and a value. */
  function Pairs(parts: seq<string>): (e: OrderedMaps.Entries<Value>)
    ensures |e| == |parts|
    ensures forall i | 0 <= i < |parts| :: e[i] == (PairKey(parts[i]), PairValue(parts[i]))
    decreases |parts|
  {
    if parts == [] then []
    else
      var last := parts[|parts| - 1];
      Pairs(parts[..|parts| - 1]) + [(PairKey(last), PairValue(last))]
  }

  /** The map the `parsed[part[0]] = part[1]` loop has built after the given parts. */
  function PairsMap(parts: seq<string>): OrderedMaps.Entries<Value>
  {
    OrderedMaps.Assign(Pairs(parts))
  }

  /**
   * `parseName(name)` as a value: the pairs of the second `:`-separated
   * segment, then `domain` set to the first segment. A name without `:`
   * has no second segment, and splitting `undefined` throws.
   */
  function NameMap(name: string): Result<OrderedMaps.Entries<Value>, string>
  {
    var segments := Split(name, ':');
    if |segments| < 2 then Failure("TypeError: Cannot call method 'split' of undefined")
    else Success(OrderedMaps.Put(PairsMap(Split(segments[1], ',')), "domain", Str(segments[0])))
  }

  /** `parseName(name)`. */
  method ParseName(name: string) returns (r: Result<OrderedMaps.Entries<Value>, string>)
    ensures r == NameMap(name)
  {
    var segments := Split(name, ':');
    if |segments| < 2 {
      return Failure("TypeError: Cannot call method 'split' of undefined");
    }
    var domain := segments[0];
    var parts := Split(segments[1], ',');
    var parsed: OrderedMaps.Entries<Value> := [];
    var i := 0;
    while i < |parts|
      invariant 0 <= i <= |parts|
      invariant parsed == PairsMap(parts[..i])
    {
      assert parts[..i + 1][..i] == parts[..i];
      assert Pairs(parts[..i + 1]) == Pairs(parts[..i]) + [(PairKey(parts[i]), PairValue(parts[i]))];
      parsed := OrderedMaps.Put(parsed, PairKey(parts[i]), PairValue(parts[i]));
      i := i + 1;
    }
    assert parts[..i] == parts;
    parsed := OrderedMaps.Put(parsed, "domain", Str(domain));
    r := Success(parsed);
  }

  /** `parts[i]` is the last pair with key `k`. */
  predicate LastPair(parts: seq<string>, k: string, i: int)
  {
    0 <= i < |parts| && PairKey(parts[i]) == k && forall j | i < j < |parts| :: PairKey(parts[j]) != k
  }

  /** A key of the pairs holds the value of its last pair, and a key no pair has is absent. */
  lemma PairsMapGet(parts: seq<string>, k: string)
    ensures OrderedMaps.Get(PairsMap(parts), k).None? <==> forall i | 0 <= i < |parts| :: PairKey(parts[i]) != k
    ensures OrderedMaps.Get(PairsMap(parts), k).Some? ==>
              exists i :: LastPair(parts, k, i) && OrderedMaps.Get(PairsMap(parts), k).value == PairValue(parts[i])
  {
    var e := Pairs(parts);
    OrderedMaps.AssignHas(e, k);
    OrderedMaps.AssignGet(e, k);
    if OrderedMaps.Get(PairsMap(parts), k).Some? {
      var i :| OrderedMaps.LastEntry(e, k, i) && OrderedMaps.Get(OrderedMaps.Assign(e), k).value == e[i].1;
      assert LastPair(parts, k, i);
    }
  }

  /** `parseName` fails exactly when the name has no `:`. */
  lemma NameMapFails(name: string)
    ensures NameMap(name).Failure? <==> ':' !in name
  {
    SplitInTwo(name, ':');
  }

  /** `domain` is assigned after the pairs, so it holds the first segment whatever the pairs say. */
  lemma NameMapDomain(d: string, rest: string)
    requires ':' !in d
    ensures NameMap(d + ":" + rest).Success?
    ensures OrderedMaps.Get(NameMap(d + ":" + rest).value, "domain") == Some(Str(d))
  {
    SplitFirst(d, ':', rest);
    OrderedMaps.PutGet(PairsMap(Split(Split(d + ":" + rest, ':')[1], ',')), "domain", Str(d), "domain");
  }

  /** Only the first two `:`-separated segments count: a third one changes nothing. */
  lemma NameMapIgnoresThirdSegment(d: string, pairs: string, rest: string)
    requires ':' !in d && ':' !in pairs
    ensures NameMap(d + ":" + pairs + ":" + rest) == NameMap(d + ":" + pairs)
  {
    SplitFirst(d, ':', pairs + ":" + rest);
    assert d + ":" + pairs + ":" + rest == d + [':'] + (pairs + ":" + rest);
    SplitFirst(pairs, ':', rest);
    assert pairs + ":" + rest == pairs + [':'] + rest;
    SplitFirst(d, ':', pairs);
    SplitAbsent(pairs, ':');
  }

  /** The first `:`-separated segment of a JMX name. */
  function DomainOf(name: string): string
  {
    Split(name, ':')[0]
  }

  /** The `,`-separated pairs of the second segment; none when there is no second segment. */
  function PairsOf(name: string): seq<string>
  {
    var segments := Split(name, ':');
    if |segments| >= 2 then Split(segments[1], ',') else []
  }

  /** What a bean is built with: fields read from the server's JSON. */
  datatype Bean = Bean(domain: Value, properties: OrderedMaps.Entries<Value>, attributes: Value, description: Value, jmxName: Value)

  /**
   * `parse(bean)`: the domain taken out of the parsed name and kept apart,
   * the other pairs as properties; a name that is not a string has no
   * `split`, so building the bean throws.
   */
  function Parse(bean: Value): (r: Result<Bean, string>)
    ensures r.Success? <==> Field(bean, "name").Str? && ':' in Field(bean, "name").s
    ensures r.Success? ==> !OrderedMaps.HasKey(r.value.properties, "domain")
    ensures r.Success? ==> r.value.domain == Str(DomainOf(Field(bean, "name").s))
    ensures r.Success? ==> forall k | k != "domain" ::
              OrderedMaps.Get(r.value.properties, k) == OrderedMaps.Get(PairsMap(PairsOf(Field(bean, "name").s)), k)
    ensures r.Success? ==> r.value.jmxName == Field(bean, "name") && r.value.attributes == Field(bean, "attributes")
                           && r.value.description == Field(bean, "description")
  {
    var name := Field(bean, "name");
    if !name.Str? then Failure("TypeError: name.split is not a function")
    else
      NameMapFails(name.s);
      match NameMap(name.s)
      case Failure(e) => Failure(e)
      case Success(m) =>
        var segments := Split(name.s, ':');
        var pairs := PairsMap(Split(segments[1], ','));
        OrderedMaps.PutGet(pairs, "domain", Str(segments[0]), "domain");
        OrderedMaps.DeleteGet(m, "domain", "domain");
        assert forall k | k != "domain" :: OrderedMaps.Get(OrderedMaps.Delete(m, "domain"), k) == OrderedMaps.Get(pairs, k) by {
          forall k | k != "domain" ensures OrderedMaps.Get(OrderedMaps.Delete(m, "domain"), k) == OrderedMaps.Get(pairs, k) {
            OrderedMaps.DeleteGet(m, "domain", k);
            OrderedMaps.PutGet(pairs, "domain", Str(segments[0]), k);
          }
        }
        Success(Bean(OrderedMaps.Get(m, "domain").value, OrderedMaps.Delete(m, "domain"),
                     Field(bean, "attributes"), Field(bean, "description"), name))
  }

  /**
   * `getName()`: a truthy `name` property, else the first property in
   * iteration order, else the raw JMX name.
   */
  function GetName(b: Bean): (r: Value)
    ensures Truthy(Field(Obj(b.properties), "name")) ==> r == Field(Obj(b.properties), "name")
    ensures !Truthy(Field(Obj(b.properties), "name")) && b.properties != [] ==> r == b.properties[0].1
    ensures !Truthy(Field(Obj(b.properties), "name")) && b.properties == [] ==> r == b.jmxName
  {
    var named := Field(Obj(b.properties), "name");
    if Truthy(named) then named
    else if b.properties != [] then b.properties[0].1
    else b.jmxName
  }

  /** A bean whose name's last `name=` pair carries a non-empty value is called by that value. */
  lemma GetNameOfNamedBean(bean: Value, b: Bean, i: nat)
    requires Parse(bean) == Success(b)
    requires LastPair(PairsOf(Field(bean, "name").s), "name", i) && Truthy(PairValue(PairsOf(Field(bean, "name").s)[i]))
    ensures GetName(b) == PairValue(PairsOf(Field(bean, "name").s)[i])
  {
    var parts := PairsOf(Field(bean, "name").s);
    PairsMapGet(parts, "name");
    assert OrderedMaps.Get(PairsMap(parts), "name").Some?;
    var k :| LastPair(parts, "name", k) && OrderedMaps.Get(PairsMap(parts), "name").value == PairValue(parts[k]);
    assert k == i;
  }

  /**
   * The attribute search: the first attribute whose name, lower-cased,
   * equals `search`; `null` when none does; an attribute whose name is no
   * string makes `toLowerCase` throw when the search reaches it.
   */
  function FindAttribute(attributes: seq<Value>, search: string): Result<Value, string>
    decreases |attributes|
  {
    if attributes == [] then Success(Null)
    else
      var n := Field(attributes[0], "name");
      if !n.Str? then Failure("TypeError: name.toLowerCase is not a function")
      else if ToLower(n.s) == search then Success(attributes[0])
      else FindAttribute(attributes[1..], search)
  }

  /** An attribute whose name, lower-cased, is the search. */
  predicate Matches(attribute: Value, search: string)
  {
    Field(attribute, "name").Str? && ToLower(Field(attribute, "name").s) == search
  }

  /** An attribute the search passes over: its name is a string and does not match. */
  predicate PassedOver(attribute: Value, search: string)
  {
    Field(attribute, "name").Str? && ToLower(Field(attribute, "name").s) != search
  }

  /**
   * The search answers with the first matching attribute, `null` when every
   * name is a string and none matches, and throws at the first name that
   * is no string when no match comes before it.
   */
  lemma {:induction false} FindAttributeFirst(attributes: seq<Value>, search: string)
    ensures var r := FindAttribute(attributes, search);
            && (r.Success? && r.value != Null ==>
                  exists i | 0 <= i < |attributes| :: r.value == attributes[i] && Matches(attributes[i], search)
                    && forall j | 0 <= j < i :: PassedOver(attributes[j], search))
            && (r == Success(Null) <==> forall j | 0 <= j < |attributes| :: PassedOver(attributes[j], search))
            && (r.Failure? ==>
                  exists i | 0 <= i < |attributes| :: !Field(attributes[i], "name").Str?
                    && forall j | 0 <= j < i :: PassedOver(attributes[j], search))
    decreases |attributes|
  {
    if attributes != [] {
      var n := Field(attributes[0], "name");
      if !n.Str? {
        assert !PassedOver(attributes[0], search);
      } else if ToLower(n.s) == search {
        assert Matches(attributes[0], search) && !PassedOver(attributes[0], search);
      } else {
        var tail := attributes[1..];
        FindAttributeFirst(tail, search);
        var r := FindAttribute(tail, search);
        assert PassedOver(attributes[0], search);
        if r.Success? && r.value != Null {
          var i :| 0 <= i < |tail| && r.value == tail[i] && Matches(tail[i], search)
                   && forall j | 0 <= j < i :: PassedOver(tail[j], search);
          PassedOverShift(attributes, search, i);
          assert tail[i] == attributes[i + 1];
        }
        if r.Failure? {
          var i :| 0 <= i < |tail| && !Field(tail[i], "name").Str?
                   && forall j | 0 <= j < i :: PassedOver(tail[j], search);
          PassedOverShift(attributes, search, i);
          assert tail[i] == attributes[i + 1];
        }
        if r == Success(Null) {
          PassedOverShift(attributes, search, |tail|);
        }
        if forall j | 0 <= j < |attributes| :: PassedOver(attributes[j], search) {
          assert forall j | 0 <= j < |tail| :: PassedOver(tail[j], search) by {
            forall j | 0 <= j < |tail| ensures PassedOver(tail[j], search) {
              assert tail[j] == attributes[j + 1];
            }
          }
        }
      }
    }
  }

  /** Passing over the head and then `i` elements of the tail is passing over the first `i + 1` elements. */
  lemma PassedOverShift(attributes: seq<Value>, search: string, i: nat)
    requires 0 < |attributes| && i < |attributes|
    requires PassedOver(attributes[0], search)
    requires forall j | 0 <= j < i :: PassedOver(attributes[1..][j], search)
    ensures forall j | 0 <= j < i + 1 :: PassedOver(attributes[j], search)
  {
    forall j | 0 <= j < i + 1 ensures PassedOver(attributes[j], search) {
      if j > 0 { assert attributes[j] == attributes[1..][j - 1]; }
    }
  }

  /**
   * `getAttribute(name)`: the search over the attribute array with the
   * name lower-cased. Without attributes (`undefined` or `null`) reading
   * their length throws; a value without elements has none to match.
   */
  function GetAttribute(b: Bean, name: string): (r: Result<Value, string>)
    ensures b.attributes.Arr? ==> r == FindAttribute(b.attributes.items, ToLower(name))
    ensures b.attributes.Undefined? || b.attributes.Null? ==> r.Failure?
  {
    match b.attributes
    case Arr(items) => FindAttribute(items, ToLower(name))
    case Undefined => Failure("TypeError: Cannot read property 'length' of undefined")
    case Null => Failure("TypeError: Cannot read property 'length' of null")
    case Str(s) => if s == "" then Success(Null) else Failure("TypeError: Cannot call method 'toLowerCase' of undefined")
    case _ => Success(Null)
  }

  lemma ToLowerTwice(s: string)
    ensures ToLower(ToLower(s)) == ToLower(s)
  {
    assert forall i | 0 <= i < |s| :: LowerChar(LowerChar(s[i])) == LowerChar(s[i]);
  }

  /** The lookup ignores the case of the name asked for. */
  lemma GetAttributeIgnoresCase(b: Bean, name: string)
    ensures GetAttribute(b, name) == GetAttribute(b, ToLower(name))
  {
    ToLowerTwice(name);
  }
}
