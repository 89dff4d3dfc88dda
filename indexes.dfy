/**
 * `neo4j.index.Indexes`: one local index object per index type and name,
 * kept in a cache so that every lookup of the same index answers with the
 * same object, plus the requests that list, create and remove indexes on
 * the server.
 */
module Indexes {
  import opened Wrappers
  import opened JsValue
  import OrderedMaps
  import Transport

  datatype IndexKind = NodeIndex | RelationshipIndex

  /** The class `_getOrCreateLocalIndexObject` instantiates for a type. */
  function KindFor(indexType: string): (k: IndexKind)
    ensures k == RelationshipIndex <==> indexType == "relationship_index"
  {
    if indexType == "relationship_index" then RelationshipIndex else NodeIndex
  }

  /** `if (config[key]) delete(config[key])`. */
  function DeleteIfTruthy(e: OrderedMaps.Entries<Value>, key: string): (r: OrderedMaps.Entries<Value>)
    ensures forall k :: OrderedMaps.Get(r, k) == if k == key && Truthy(Field(Obj(e), key)) then None else OrderedMaps.Get(e, k)
  {
    if Truthy(Field(Obj(e), key)) then
      assert forall k :: OrderedMaps.Get(OrderedMaps.Delete(e, key), k) == if k == key then None else OrderedMaps.Get(e, k) by {
        forall k { OrderedMaps.DeleteGet(e, key, k); }
      }
      OrderedMaps.Delete(e, key)
    else e
  }

  /**
   * The config after its `provider` and `template` have been deleted,
   * each only when truthy; a value that is not an object has no such
   * fields and stays as it is.
   */
  function StripConfig(config: Value): (r: Value)
    ensures !config.Obj? ==> r == config
    ensures config.Obj? ==> r.Obj?
    ensures Truthy(Field(config, "provider")) ==> Field(r, "provider") == Undefined
    ensures !Truthy(Field(config, "provider")) ==> Field(r, "provider") == Field(config, "provider")
    ensures Truthy(Field(config, "template")) ==> Field(r, "template") == Undefined
    ensures !Truthy(Field(config, "template")) ==> Field(r, "template") == Field(config, "template")
    ensures forall k | k != "provider" && k != "template" :: Field(r, k) == Field(config, k)
  {
    if config.Obj? then Obj(DeleteIfTruthy(DeleteIfTruthy(config.fields, "provider"), "template"))
    else config
  }

  /** `config || {provider: "lucene", type: "exact"}`, the config an index is created with. */
  function CreateConfig(config: Value): (r: Value)
    ensures Truthy(config) ==> r == config
    ensures !Truthy(config) ==> Field(r, "provider") == Str("lucene") && Field(r, "type") == Str("exact")
  {
    Or(config, Obj([("provider", Str("lucene")), ("type", Str("exact"))]))
  }

  /** `db.web.del(urls[type] + "/" + name)`: removing an index is one DELETE and touches no cache. */
  function RemoveRequest(urls: Value, indexType: string, name: string): (req: Transport.Request)
    ensures req.verb == "DELETE"
    ensures req.url == Str(ToText(Field(urls, indexType)) + "/" + name)
  {
    Transport.Delete(Str(ToText(Field(urls, indexType)) + "/" + name))
  }

  /** The names `_listAllIndexes` goes through: none for `null`, the keys of an object. */
  function IndexNames(indexMap: Value): (names: seq<string>)
    ensures indexMap.Null? ==> names == []
    ensures indexMap.Obj? ==> names == OrderedMaps.Keys(indexMap.fields)
  {
    if indexMap.Obj? then OrderedMaps.Keys(indexMap.fields) else []
  }

  /** A `NodeIndex` or `RelationshipIndex` object. */
  class IndexObject {
    const kind: IndexKind
    const name: string
    /** `provider`: set when a config names one. */
    var provider: Value
    /** The config last handed to `setConfig`; `undefined` until then. */
    var config: Value

    constructor(kind: IndexKind, name: string)
      ensures this.kind == kind && this.name == name
      ensures provider == Undefined && config == Undefined
    {
      this.kind := kind;
      this.name := name;
      provider := Undefined;
      config := Undefined;
    }
  }

  class Indexes {
    /** `_cache[type][name]`, keyed here by the pair. */
    var cache: map<(string, string), IndexObject>

    /** Every cached object is of the class its type asks for, carries its name, and is cached once. */
    ghost predicate Valid()
      reads this
    {
      && (forall key | key in cache :: cache[key].kind == KindFor(key.0) && cache[key].name == key.1)
      && (forall k1, k2 | k1 in cache && k2 in cache && k1 != k2 :: cache[k1] != cache[k2])
      && (forall key | key in cache :: cache[key] in Repr)
    }

    /** The index objects this cache has handed out. */
    ghost var Repr: set<object>

    constructor()
      ensures cache == map[] && Repr == {} && Valid()
    {
      cache := map[];
      Repr := {};
    }

    /** The cached object for `(type, name)`, or a new one of the class the type asks for. */
    method Lookup(indexType: string, name: string) returns (r: IndexObject)
      requires Valid()
      modifies this
      ensures Valid()
      ensures cache == old(cache)[(indexType, name) := r]
      ensures (indexType, name) in old(cache) ==> r == old(cache)[(indexType, name)]
      ensures (indexType, name) !in old(cache) ==> fresh(r) && r.provider == Undefined && r.config == Undefined
      ensures r.kind == KindFor(indexType) && r.name == name
      ensures Repr == old(Repr) + {r}
      ensures r in old(Repr) || fresh(r)
    {
      var key := (indexType, name);
      if key !in cache {
        var instance := new IndexObject(KindFor(indexType), name);
        cache := cache[key := instance];
        Repr := Repr + {instance};
      }
      r := cache[key];
    }

    /**
     * `_getOrCreateLocalIndexObject(type, name, config)`: the cached object,
     * or a new one of the class the type asks for; a truthy config moves a
     * truthy `provider` onto the object and is handed, stripped, to
     * `setConfig`. A falsy config leaves the object as it was.
     */
    method GetOrCreate(indexType: string, name: string, config: Value) returns (r: IndexObject)
      requires Valid()
      modifies this, Repr
      ensures Valid()
      ensures cache == old(cache)[(indexType, name) := r]
      ensures (indexType, name) in old(cache) ==> r == old(cache)[(indexType, name)]
      ensures (indexType, name) !in old(cache) ==> fresh(r)
      ensures r.kind == KindFor(indexType) && r.name == name
      ensures Repr == old(Repr) + {r}
      ensures r in old(Repr) || fresh(r)
      ensures !Truthy(config) ==> r.provider == old(if (indexType, name) in cache then cache[(indexType, name)].provider else Undefined)
      ensures !Truthy(config) ==> r.config == old(if (indexType, name) in cache then cache[(indexType, name)].config else Undefined)
      ensures Truthy(config) ==> r.config == StripConfig(config)
      ensures Truthy(config) && Truthy(Field(config, "provider")) ==> r.provider == Field(config, "provider")
      ensures Truthy(config) && !Truthy(Field(config, "provider")) ==>
                r.provider == old(if (indexType, name) in cache then cache[(indexType, name)].provider else Undefined)
      ensures forall key | key in old(cache) && key != (indexType, name) :: unchanged(old(cache)[key])
      ensures !Truthy(config) && (indexType, name) in old(cache) ==> unchanged(r)
    {
      r := Lookup(indexType, name);
      Configure(r, config);
    }

    /** `getNodeIndex(name)`. */
    method GetNodeIndex(name: string) returns (r: IndexObject)
      requires Valid()
      modifies this, Repr
      ensures Valid() && cache == old(cache)[("node_index", name) := r]
      ensures Repr == old(Repr) + {r}
      ensures r in old(Repr) || fresh(r)
      ensures ("node_index", name) in old(cache) ==> r == old(cache)[("node_index", name)] && unchanged(r)
      ensures ("node_index", name) !in old(cache) ==> r.provider == Undefined && r.config == Undefined
      ensures r.kind == NodeIndex && r.name == name
      ensures forall key | key in old(cache) && key != ("node_index", name) :: unchanged(old(cache)[key])
    {
      r := GetOrCreate("node_index", name, Undefined);
    }

    /** `getRelationshipIndex(name)`. */
    method GetRelationshipIndex(name: string) returns (r: IndexObject)
      requires Valid()
      modifies this, Repr
      ensures Valid() && cache == old(cache)[("relationship_index", name) := r]
      ensures Repr == old(Repr) + {r}
      ensures r in old(Repr) || fresh(r)
      ensures ("relationship_index", name) in old(cache) ==> r == old(cache)[("relationship_index", name)] && unchanged(r)
      ensures ("relationship_index", name) !in old(cache) ==> r.provider == Undefined && r.config == Undefined
      ensures r.kind == RelationshipIndex && r.name == name
      ensures forall key | key in old(cache) && key != ("relationship_index", name) :: unchanged(old(cache)[key])
    {
      r := GetOrCreate("relationship_index", name, Undefined);
    }

    /**
     * `_listAllIndexes(type)`: GET `urls[type]`; one index object per
     * name in the answer, each looked up (or created) with the config the
     * answer gives it; a failed GET fails with its error.
     */
    method ListAll(indexType: string, urls: Value, answer: Result<Value, Value>)
      returns (req: Transport.Request, r: Result<seq<IndexObject>, Value>)
      requires Valid()
      modifies this, Repr
      ensures Valid()
      ensures req == Transport.Get(Field(urls, indexType))
      ensures answer.Failure? ==> r == Failure(answer.error) && cache == old(cache)
      ensures answer.Success? ==> r.Success? && |r.value| == |IndexNames(answer.value)|
      ensures answer.Success? ==> forall i | 0 <= i < |r.value| ::
                var n := IndexNames(answer.value)[i];
                (indexType, n) in cache && r.value[i] == cache[(indexType, n)] && r.value[i].name == n
      ensures answer.Success? ==> forall key :: key in cache <==> key in old(cache) || (key.0 == indexType && key.1 in IndexNames(answer.value))
      ensures forall key | key in old(cache) :: key in cache && cache[key] == old(cache)[key]
      ensures answer.Failure? ==> forall key | key in old(cache) :: unchanged(old(cache)[key])
      ensures answer.Success? ==> forall key | key in old(cache) && !(key.0 == indexType && key.1 in IndexNames(answer.value)) ::
                unchanged(old(cache)[key])
    {
      req := Transport.Get(Field(urls, indexType));
      if answer.Failure? {
        return req, Failure(answer.error);
      }
      var names := IndexNames(answer.value);
      var list := ListEach(indexType, names, answer.value);
      assert names[..|names|] == names;
      r := Success(list);
    }

    /** The loop of `_listAllIndexes` over the names of the answer `indexMap`. */
    method ListEach(indexType: string, names: seq<string>, indexMap: Value) returns (list: seq<IndexObject>)
      requires Valid()
      modifies this, Repr
      ensures Valid() && |list| == |names| && Listed(cache, indexType, names, |names|, list, old(cache))
      ensures forall key | key in old(cache) && !(key.0 == indexType && key.1 in names) :: unchanged(old(cache)[key])
    {
      list := [];
      ghost var created: set<object> := {};
      var i := 0;
      while i < |names|
        invariant 0 <= i <= |names| && |list| == i
        invariant Valid() && Listed(cache, indexType, names, i, list, old(cache))
        invariant Repr <= old(Repr) + created
        invariant forall o | o in created :: fresh(o)
        invariant forall key | key in old(cache) && !(key.0 == indexType && key.1 in names[..i]) :: unchanged(old(cache)[key])
      {
        ghost var before := Repr;
        var index := ListOne(indexType, names, indexMap, i, list, old(cache));
        if index !in before {
          created := created + {index};
        }
        list := list + [index];
        i := i + 1;
      }
      assert names[..|names|] == names;
    }

    /** One turn of the `_listAllIndexes` loop: the object for `names[i]`, with the config the answer gives it. */
    method ListOne(indexType: string, names: seq<string>, indexMap: Value, i: nat, list: seq<IndexObject>,
                   ghost c0: map<(string, string), IndexObject>) returns (index: IndexObject)
      requires i < |names| && |list| == i
      requires Valid() && Listed(cache, indexType, names, i, list, c0)
      modifies this, Repr
      ensures Valid() && Listed(cache, indexType, names, i + 1, list + [index], c0)
      ensures Repr == old(Repr) + {index}
      ensures index in old(Repr) || fresh(index)
      ensures forall key | key in old(cache) && key != (indexType, names[i]) :: unchanged(old(cache)[key])
    {
      ghost var c := cache;
      index := Lookup(indexType, names[i]);
      assert forall key | key in c && key != (indexType, names[i]) :: c[key] != index;
      Configure(index, Field(indexMap, names[i]));
      ListedStep(c, indexType, names, i, list, c0, index);
    }

    /**
     * `_createIndex(type, name, config)`: POST `{name, config}` to
     * `urls[type]`, the config defaulted; on success the index object,
     * configured with that config.
     */
    method Create(indexType: string, name: string, config: Value, urls: Value, answer: Result<Value, Value>)
      returns (req: Transport.Request, r: Result<IndexObject, Value>)
      requires Valid()
      modifies this, Repr
      ensures Valid()
      ensures req == Transport.Post(Field(urls, indexType), Obj([("name", Str(name)), ("config", CreateConfig(config))]))
      ensures answer.Failure? ==> r == Failure(answer.error) && cache == old(cache)
      ensures answer.Failure? ==> forall key | key in old(cache) :: unchanged(old(cache)[key])
      ensures answer.Success? ==> r.Success? && cache == old(cache)[(indexType, name) := r.value]
      ensures forall key | key in old(cache) && key != (indexType, name) :: unchanged(old(cache)[key])
      ensures answer.Success? ==> r.value.kind == KindFor(indexType) && r.value.name == name
      ensures answer.Success? ==> r.value.config == StripConfig(CreateConfig(config))
      ensures answer.Success? && (indexType, name) in old(cache) ==> r.value == old(cache)[(indexType, name)]
      ensures answer.Success? ==>
                r.value.provider == if Truthy(Field(CreateConfig(config), "provider")) then Field(CreateConfig(config), "provider")
                                    else old(if (indexType, name) in cache then cache[(indexType, name)].provider else Undefined)
    {
      var c := CreateConfig(config);
      req := Transport.Post(Field(urls, indexType), Obj([("name", Str(name)), ("config", c)]));
      if answer.Failure? {
        return req, Failure(answer.error);
      }
      assert Truthy(c) by {
        if !Truthy(config) {
          assert c == Obj([("provider", Str("lucene")), ("type", Str("exact"))]);
        }
      }
      var index := GetOrCreate(indexType, name, c);
      r := Success(index);
    }
  }

  /** After `i` names: the objects listed so far, and how the cache grew from `c0` to `cache`. */
  ghost predicate Listed(cache: map<(string, string), IndexObject>, indexType: string, names: seq<string>, i: nat,
                         list: seq<IndexObject>, c0: map<(string, string), IndexObject>)
    requires i <= |names| && |list| == i
  {
    && (forall j | 0 <= j < i :: (indexType, names[j]) in cache && list[j] == cache[(indexType, names[j])] && list[j].name == names[j])
    && (forall key :: key in cache <==> key in c0 || (key.0 == indexType && key.1 in names[..i]))
    && (forall key | key in c0 :: key in cache && cache[key] == c0[key])
  }

  /** Looking up one more name keeps `Listed`. */
  lemma ListedStep(cache: map<(string, string), IndexObject>, indexType: string, names: seq<string>, i: nat,
                   list: seq<IndexObject>, c0: map<(string, string), IndexObject>, index: IndexObject)
    requires i < |names| && |list| == i
    requires Listed(cache, indexType, names, i, list, c0)
    requires (indexType, names[i]) in cache ==> index == cache[(indexType, names[i])]
    requires index.name == names[i]
    ensures Listed(cache[(indexType, names[i]) := index], indexType, names, i + 1, list + [index], c0)
  {
    assert names[..i + 1] == names[..i] + [names[i]];
  }

  /** The config step of `_getOrCreateLocalIndexObject`, for a config given or `undefined`. */
  method Configure(index: IndexObject, config: Value)
    modifies index
    ensures !Truthy(config) ==> unchanged(index)
    ensures Truthy(config) ==> index.config == StripConfig(config)
    ensures Truthy(config) ==> index.provider == if Truthy(Field(config, "provider")) then Field(config, "provider") else old(index.provider)
  {
    var c := Or(config, Null);
    if c != Null {
      if Truthy(Field(c, "provider")) {
        index.provider := Field(c, "provider");
      }
      index.config := StripConfig(c);
    }
  }

  /** Two lookups of one index answer with the same object. */
  method SameIndexTwice(indexes: Indexes, name: string) returns (first: IndexObject, second: IndexObject)
    requires indexes.Valid()
    modifies indexes, indexes.Repr
    ensures first == second && first.kind == NodeIndex
    ensures indexes.Valid()
  {
    first := indexes.GetNodeIndex(name);
    second := indexes.GetNodeIndex(name);
  }
}
