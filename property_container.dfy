/**
 * `neo4j.models.PropertyContainer`: what nodes and relationships share,
 * a self URL (`_self`, unset until saved) and a property map (`_data`)
 * that the setters update in place.
 */
module PropertyContainer {
  import opened Wrappers
  import opened Strings
  import opened JsValue
  import OrderedMaps
  import GraphDatabase

  /** `getSelf()` on a given `_self`: `null` while `_self` is unset. */
  function SelfOf(self: Value): (r: Value)
    ensures r != Undefined
    ensures self != Undefined ==> r == self
  {
    if self.Undefined? then Null else self
  }

  /**
   * `getId()` on a self URL: `null` for `null`, otherwise the text after
   * the last `/` (all of it when there is none). A self that is not a
   * string has no `lastIndexOf`, so the call throws.
   */
  function IdOf(url: Value): (r: Result<Value, string>)
    ensures url.Null? ==> r == Success(Null)
    ensures url.Str? ==> r.Success? && r.value.Str? && '/' !in r.value.s
    ensures url.Str? ==> exists k :: 0 <= k <= |url.s| && url.s == url.s[..k] + r.value.s && (k == 0 || url.s[k - 1] == '/')
    ensures !url.Null? && !url.Str? ==> r.Failure?
  {
    match url
    case Null => Success(Null)
    case Str(s) =>
      var k := LastIndexOf(s, '/') + 1;
      assert s == s[..k] + s[k..];
      Success(Str(Substring(s, k)))
    case _ => Failure("TypeError: url.lastIndexOf is not a function")
  }

  /** The id of a node URL made by `nodeUri` is the id it was made from. */
  lemma IdOfNodeUrl(definition: Value, id: Value)
    requires GraphDatabase.IsId(id)
    ensures IdOf(GraphDatabase.NodeUrlFor(definition, id)) == Success(Str(ToText(id)))
  {
    var base := ToText(Field(definition, "node"));
    var t := ToText(id);
    var s := base + "/" + t;
    assert '/' !in t by {
      forall i | 0 <= i < |t| ensures t[i] != '/' {
        assert IsDigit(t[i]);
      }
    }
    assert s[|base|] == '/';
    forall j | |base| < j < |s| ensures s[j] != '/' {
      assert s[j] == t[j - |base| - 1];
    }
    assert LastIndexOf(s, '/') == |base|;
    assert s[|base| + 1..] == t;
  }

  /** The id of a relationship URL made by `relUri` is the id it was made from. */
  lemma IdOfRelUrl(discovery: Value, id: Value)
    requires GraphDatabase.IsId(id)
    ensures IdOf(GraphDatabase.RelUrlFor(discovery, id)) == Success(Str(ToText(id)))
  {
    var base := ToText(Field(discovery, "data")) + "relationship";
    var t := ToText(id);
    var s := base + "/" + t;
    assert GraphDatabase.RelUrlFor(discovery, id) == Str(s);
    assert '/' !in t by {
      forall i | 0 <= i < |t| ensures t[i] != '/' {
        assert IsDigit(t[i]);
      }
    }
    assert s[|base|] == '/';
    forall j | |base| < j < |s| ensures s[j] != '/' {
      assert s[j] == t[j - |base| - 1];
    }
    assert LastIndexOf(s, '/') == |base|;
    assert s[|base| + 1..] == t;
  }

  /** `getProperty(key)`: the stored value when truthy, `null` otherwise (absent keys included). */
  function PropertyOf(data: OrderedMaps.Entries<Value>, key: string): (r: Value)
    ensures OrderedMaps.Get(data, key).Some? && Truthy(OrderedMaps.Get(data, key).value) ==> r == OrderedMaps.Get(data, key).value
    ensures OrderedMaps.Get(data, key).None? || !Truthy(OrderedMaps.Get(data, key).value) ==> r == Null
  {
    Or(Field(Obj(data), key), Null)
  }

  /** `_.extend(target, source)`: each key of the source assigned in order. */
  function Extend(target: OrderedMaps.Entries<Value>, source: OrderedMaps.Entries<Value>): OrderedMaps.Entries<Value>
    decreases |source|
  {
    if source == [] then target
    else Extend(OrderedMaps.Put(target, source[0].0, source[0].1), source[1..])
  }

  /** Setting then getting: the value when truthy, `null` for a falsy one, and the key is present either way. */
  lemma SetThenGet(data: OrderedMaps.Entries<Value>, key: string, value: Value)
    ensures PropertyOf(OrderedMaps.Put(data, key, value), key) == if Truthy(value) then value else Null
    ensures OrderedMaps.HasKey(OrderedMaps.Put(data, key, value), key)
  {
    OrderedMaps.PutGet(data, key, value, key);
  }

  /** `setProperties` overwrites the keys it is given and keeps every other key. */
  lemma {:induction false} ExtendGet(target: OrderedMaps.Entries<Value>, source: OrderedMaps.Entries<Value>, k: string)
    requires OrderedMaps.UniqueKeys(source)
    ensures OrderedMaps.Get(Extend(target, source), k)
              == if OrderedMaps.HasKey(source, k) then OrderedMaps.Get(source, k) else OrderedMaps.Get(target, k)
    decreases |source|
  {
    if source != [] {
      var rest := source[1..];
      assert OrderedMaps.UniqueKeys(rest) by {
        forall i, j | 0 <= i < j < |rest| ensures rest[i].0 != rest[j].0 {
          assert rest[i] == source[i + 1] && rest[j] == source[j + 1];
        }
      }
      ExtendGet(OrderedMaps.Put(target, source[0].0, source[0].1), rest, k);
      OrderedMaps.PutGet(target, source[0].0, source[0].1, k);
      assert OrderedMaps.Keys(source) == [source[0].0] + OrderedMaps.Keys(rest);
      if k == source[0].0 {
        assert !OrderedMaps.HasKey(rest, k) by {
          var ks := OrderedMaps.Keys(rest);
          forall j | 0 <= j < |ks| ensures ks[j] != k {
            assert ks[j] == rest[j].0 == source[j + 1].0;
          }
        }
      }
    }
  }

  /** The state nodes and relationships share. */
  class Container {
    /** `_self`: `undefined` until set. */
    var self: Value
    /** `_data`: the properties, in insertion order. */
    var data: OrderedMaps.Entries<Value>

    /** `PropertyContainer.call(this)` on a fresh object: no self URL, no properties. */
    constructor()
      ensures self == Undefined && data == []
    {
      self := Undefined;
      data := [];
    }

    function GetSelf(): Value
      reads this
    {
      SelfOf(self)
    }

    function GetId(): Result<Value, string>
      reads this
    {
      IdOf(GetSelf())
    }

    /** `exists()`: the object has a self URL. */
    function Exists(): (r: bool)
      reads this
      ensures r <==> !self.Undefined? && !self.Null?
    {
      GetSelf() != Null
    }

    /** `hasProperty(key)`: `key in this._data`, whatever the value. */
    function HasProperty(key: string): (r: bool)
      reads this
      ensures r <==> OrderedMaps.Get(data, key).Some?
    {
      OrderedMaps.HasKey(data, key)
    }

    function GetProperty(key: string): Value
      reads this
    {
      PropertyOf(data, key)
    }

    /** `setProperty(key, value)`: only `key` changes, and it now holds `value`. */
    method SetProperty(key: string, value: Value)
      modifies this
      ensures self == old(self) && data == OrderedMaps.Put(old(data), key, value)
      ensures GetProperty(key) == if Truthy(value) then value else Null
      ensures HasProperty(key)
      ensures forall k | k != key :: OrderedMaps.Get(data, k) == OrderedMaps.Get(old(data), k)
    {
      data := OrderedMaps.Put(data, key, value);
      SetThenGet(old(data), key, value);
      forall k | k != key ensures OrderedMaps.Get(data, k) == OrderedMaps.Get(old(data), k) {
        OrderedMaps.PutGet(old(data), key, value, k);
      }
    }

    /** `getProperties()`: the map itself, falsy values and key order included. */
    function GetProperties(): (r: OrderedMaps.Entries<Value>)
      reads this
      ensures OrderedMaps.Keys(r) == OrderedMaps.Keys(data)
      ensures forall k :: OrderedMaps.Get(r, k) == OrderedMaps.Get(data, k)
      ensures forall k :: PropertyOf(r, k) == GetProperty(k)
    {
      data
    }

    /** `setProperties(properties)`: `_.extend` of the map, key by key. */
    method SetProperties(properties: OrderedMaps.Entries<Value>)
      modifies this
      ensures self == old(self) && data == Extend(old(data), properties)
    {
      var i := 0;
      while i < |properties|
        invariant 0 <= i <= |properties|
        invariant self == old(self)
        invariant Extend(data, properties[i..]) == Extend(old(data), properties)
      {
        assert properties[i..][1..] == properties[i + 1..];
        data := OrderedMaps.Put(data, properties[i].0, properties[i].1);
        i := i + 1;
      }
    }

    /** `removeProperty(key)`: `key` is gone and every other key answers as before. */
    method RemoveProperty(key: string)
      modifies this
      ensures self == old(self) && data == OrderedMaps.Delete(old(data), key)
      ensures !HasProperty(key)
      ensures forall k | k != key :: OrderedMaps.Get(data, k) == OrderedMaps.Get(old(data), k)
    {
      data := OrderedMaps.Delete(data, key);
      OrderedMaps.DeleteGet(old(data), key, key);
      forall k | k != key ensures OrderedMaps.Get(data, k) == OrderedMaps.Get(old(data), k) {
        OrderedMaps.DeleteGet(old(data), key, k);
      }
    }
  }
}
