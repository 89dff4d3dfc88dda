/**
 * `neo4j.services.ConfigService`: the server's configuration properties.
 * The server lists them as an array of `{key, value, ...}` objects; the
 * client hands callers a map from key to property, and sends settings
 * back as such an array.
 */
module ConfigService {
  import opened Wrappers
  import opened Strings
  import opened JsValue
  import OrderedMaps
  import Service

  /** `getProperties` is a GET of the `properties` resource, `setProperties` a POST to it. */
  const GetPropertiesResource := Service.Resource("properties", "GET", [])
  const SetPropertiesResource := Service.Resource("properties", "POST", [])

  /** An array's elements under their index names. */
  function Indexed(items: seq<Value>): (e: OrderedMaps.Entries<Value>)
    ensures |e| == |items|
    ensures forall i | 0 <= i < |items| :: e[i] == (NatToString(i), items[i])
  {
    if items == [] then []
    else Indexed(items[..|items| - 1]) + [(NatToString(|items| - 1), items[|items| - 1])]
  }

  /** The `(name, v[name])` pairs `for (name in v)` visits: an object's members, an array's elements. */
  function ForIn(v: Value): OrderedMaps.Entries<Value>
  {
    match v
    case Obj(fields) => fields
    case Arr(items) => Indexed(items)
    case _ => []
  }

  /** `o.key` can be read: `null` and `undefined` have no members. */
  predicate Readable(o: Value)
  {
    !o.Null? && !o.Undefined?
  }

  /** The property name a server entry is filed under: its `key`, as a string. */
  function PropertyKey(entry: Value): string
  {
    ToText(Field(entry, "key"))
  }

  /** Each server entry paired with the name it is filed under. */
  function Keyed(e: OrderedMaps.Entries<Value>): (r: OrderedMaps.Entries<Value>)
    ensures |r| == |e|
    ensures forall i | 0 <= i < |e| :: r[i] == (PropertyKey(e[i].1), e[i].1)
  {
    if e == [] then []
    else Keyed(e[..|e| - 1]) + [(PropertyKey(e[|e| - 1].1), e[|e| - 1].1)]
  }

  /** The map `getProperties` hands its callback: `props[data[i].key] = data[i]` for each entry in turn. */
  function PropertiesOf(data: Value): OrderedMaps.Entries<Value>
  {
    OrderedMaps.Assign(Keyed(ForIn(data)))
  }

  /** The `for (i in data)` loop of `getProperties`' answer handler. */
  method ToPropertiesMap(data: Value) returns (props: OrderedMaps.Entries<Value>)
    requires forall p | p in ForIn(data) :: Readable(p.1)
    ensures props == PropertiesOf(data)
  {
    var entries := ForIn(data);
    props := [];
    var i := 0;
    while i < |entries|
      invariant 0 <= i <= |entries|
      invariant props == OrderedMaps.Assign(Keyed(entries[..i]))
    {
      assert entries[..i + 1][..i] == entries[..i];
      props := OrderedMaps.Put(props, PropertyKey(entries[i].1), entries[i].1);
      i := i + 1;
    }
    assert entries[..i] == entries;
  }

  /** `data[i]` is the last server entry filed under `k`. */
  predicate LastWithKey(e: OrderedMaps.Entries<Value>, k: string, i: int)
  {
    0 <= i < |e| && PropertyKey(e[i].1) == k && forall j | i < j < |e| :: PropertyKey(e[j].1) != k
  }

  /** In the map, a key no entry carries is absent, and a key holds the last entry carrying it. */
  lemma PropertiesGet(data: Value, k: string)
    ensures OrderedMaps.Get(PropertiesOf(data), k).None? <==>
              forall i | 0 <= i < |ForIn(data)| :: PropertyKey(ForIn(data)[i].1) != k
    ensures OrderedMaps.Get(PropertiesOf(data), k).Some? ==>
              exists i :: LastWithKey(ForIn(data), k, i) && OrderedMaps.Get(PropertiesOf(data), k).value == ForIn(data)[i].1
  {
    var e := Keyed(ForIn(data));
    OrderedMaps.AssignHas(e, k);
    OrderedMaps.AssignGet(e, k);
    if OrderedMaps.Get(PropertiesOf(data), k).Some? {
      var i :| OrderedMaps.LastEntry(e, k, i) && OrderedMaps.Get(OrderedMaps.Assign(e), k).value == e[i].1;
      assert LastWithKey(ForIn(data), k, i);
    }
  }

  /** `getProperty`'s search: the first member named `key` (`===`), else `null`. */
  function FirstWithKey(props: OrderedMaps.Entries<Value>, key: string): (r: Value)
  {
    if props == [] then Null
    else if props[0].0 == key then props[0].1
    else FirstWithKey(props[1..], key)
  }

  /** The search finds what looking the key up finds, and `null` for a missing key. */
  lemma {:induction false} FirstWithKeyIsLookup(props: OrderedMaps.Entries<Value>, key: string)
    ensures FirstWithKey(props, key) == OrderedMaps.Get(props, key).UnwrapOr(Null)
  {
    if props != [] && props[0].0 != key {
      FirstWithKeyIsLookup(props[1..], key);
    }
  }

  /** `getProperty(key, callback)`: what the callback is handed once the properties arrive. */
  function GetProperty(data: Value, key: string): Value
  {
    FirstWithKey(PropertiesOf(data), key)
  }

  /** `getProperty` yields the last server entry whose key is `key`, and `null` when there is none. */
  lemma GetPropertyFindsLast(data: Value, key: string)
    ensures (forall i | 0 <= i < |ForIn(data)| :: PropertyKey(ForIn(data)[i].1) != key) ==> GetProperty(data, key) == Null
    ensures (exists i | 0 <= i < |ForIn(data)| :: PropertyKey(ForIn(data)[i].1) == key) ==>
              exists i :: LastWithKey(ForIn(data), key, i) && GetProperty(data, key) == ForIn(data)[i].1
  {
    FirstWithKeyIsLookup(PropertiesOf(data), key);
    PropertiesGet(data, key);
  }

  /** `{key: key, value: value}`. */
  function PropertyObject(key: string, value: Value): Value
  {
    Obj([("key", Str(key)), ("value", value)])
  }

  /** The array `setProperties` sends: one `{key, value}` per setting, in iteration order. */
  function PropertyList(settings: OrderedMaps.Entries<Value>): (r: seq<Value>)
    ensures |r| == |settings|
    ensures forall i | 0 <= i < |settings| :: r[i] == PropertyObject(settings[i].0, settings[i].1)
  {
    if settings == [] then []
    else PropertyList(settings[..|settings| - 1]) + [PropertyObject(settings[|settings| - 1].0, settings[|settings| - 1].1)]
  }

  /**
   * `setProperties(settings, callback)`'s before-hook: the property list,
   * one `config.property.set` event per property carrying that property,
   * and the arguments the POST is called with.
   */
  method SetProperties(settings: Value, callback: Value) returns (callArgs: seq<Value>, events: seq<Value>)
    ensures callArgs == [Arr(PropertyList(ForIn(settings))), callback]
    ensures events == PropertyList(ForIn(settings))
  {
    var entries := ForIn(settings);
    var props: seq<Value> := [];
    events := [];
    var i := 0;
    while i < |entries|
      invariant 0 <= i <= |entries|
      invariant props == PropertyList(entries[..i]) && events == props
    {
      assert entries[..i + 1][..i] == entries[..i];
      var prop := PropertyObject(entries[i].0, entries[i].1);
      props := props + [prop];
      events := events + [prop];
      i := i + 1;
    }
    assert entries[..i] == entries;
    callArgs := [Arr(props), callback];
  }

  /** `props = {}; props[key] = value`. */
  function SingleSetting(key: Value, value: Value): Value
  {
    Obj(OrderedMaps.Put([], ToText(key), value))
  }

  /** `setProperty(key, value, callback)`: `setProperties` with the one setting. */
  method SetProperty(key: Value, value: Value, callback: Value) returns (callArgs: seq<Value>, events: seq<Value>)
    ensures callArgs == [Arr([PropertyObject(ToText(key), value)]), callback]
    ensures events == [PropertyObject(ToText(key), value)]
  {
    var settings := SingleSetting(key, value);
    assert ForIn(settings) == [(ToText(key), value)];
    assert PropertyList(ForIn(settings)) == [PropertyObject(ToText(key), value)];
    callArgs, events := SetProperties(settings, callback);
  }

  /** Distinct keys are left as they are by assigning entries in turn. */
  lemma {:induction false} AssignDistinct(e: OrderedMaps.Entries<Value>)
    requires OrderedMaps.UniqueKeys(e)
    ensures OrderedMaps.Assign(e) == e
    decreases |e|
  {
    if e != [] {
      var init := e[..|e| - 1];
      var last := e[|e| - 1];
      assert OrderedMaps.UniqueKeys(init);
      AssignDistinct(init);
      assert !OrderedMaps.HasKey(init, last.0) by {
        forall j | 0 <= j < |init| ensures init[j].0 != last.0 {
          assert init[j] == e[j];
        }
      }
      OrderedMaps.PutAbsent(init, last.0, last.1);
      assert init + [last] == e;
    }
  }

  /**
   * What `setProperties` sends reads back through `getProperties` as one
   * property per setting, in order, filed under the setting's own name and
   * carrying its value.
   */
  lemma SettingsRoundTrip(settings: OrderedMaps.Entries<Value>)
    requires OrderedMaps.UniqueKeys(settings)
    ensures var back := PropertiesOf(Arr(PropertyList(settings)));
      && |back| == |settings|
      && forall i | 0 <= i < |settings| :: back[i] == (settings[i].0, PropertyObject(settings[i].0, settings[i].1))
  {
    var list := PropertyList(settings);
    var keyed := Keyed(ForIn(Arr(list)));
    forall i | 0 <= i < |settings| ensures keyed[i] == (settings[i].0, list[i]) {
      assert Field(list[i], "key") == Str(settings[i].0);
    }
    assert OrderedMaps.UniqueKeys(keyed);
    AssignDistinct(keyed);
  }
}
