/**
 * `neo4j.models.Node`: a property container with the URLs the server
 * lists for a node, the choice of the URL to ask for relationships and
 * traversals, and what `save`, `fetch` and `remove` do with the answers
 * they get.
 */
module Node {
  import opened Wrappers
  import opened Strings
  import opened JsValue
  import OrderedMaps
  import WebOld
  import HttpException
  import PropertyContainer
  import Transport

  /** `Node.IN`, `Node.OUT`, `Node.ALL`. */
  const In: Value := Str("in")
  const Out: Value := Str("out")
  const All: Value := Str("all")

  /** The URL fields `_init` copies from a node's definition. */
  const UrlKeys: seq<string> := [
    "properties", "traverse", "create_relationship",
    "all_relationships", "all_typed_relationships",
    "incoming_relationships", "incoming_typed_relationships",
    "outgoing_relationships", "outgoing_typed_relationships"]

  /** The placeholder a typed relationship URL holds for the types. */
  const TypesPlaceholder: string := "-list|&|types"

  /** What a node or relationship promise ends with: the model itself, or an error. */
  datatype Settled = Done | Failed(error: Error)

  /** The errors the models raise themselves, and errors they pass on as they came. */
  datatype Error =
    | Raw(v: Value)
    | InvalidData                    // `new neo4j.exceptions.InvalidDataException()`
    | NotFound(url: Value)           // `new neo4j.exceptions.NotFoundException(url)`
    | StartNodeSameAsEnd(url: Value) // `new neo4j.exceptions.StartNodeSameAsEndNodeException(url)`

  /** One entry of the `_urls` object `_init` builds: `definition[k] || ""`. */
  function UrlOf(definition: Value, k: string): Value
  {
    Or(Field(definition, k), Str(""))
  }

  /** The `_urls` object `_init` builds: each of the nine URLs of the definition, in order. */
  function UrlTable(definition: Value): OrderedMaps.Entries<Value>
  {
    seq(|UrlKeys|, i requires 0 <= i < |UrlKeys| => (UrlKeys[i], UrlOf(definition, UrlKeys[i])))
  }

  /** No two of the nine URL keys are the same. */
  lemma UrlKeysDistinct()
    ensures forall a, b | 0 <= a < b < |UrlKeys| :: UrlKeys[a] != UrlKeys[b]
  {
  }

  /** Each of the nine URLs is the definition's, or `""` when it has none (or a falsy one). */
  lemma UrlsDefaulted(definition: Value)
    ensures OrderedMaps.Keys(UrlTable(definition)) == UrlKeys
    ensures forall k | k in UrlKeys :: Field(Obj(UrlTable(definition)), k) == Or(Field(definition, k), Str(""))
  {
    var table := UrlTable(definition);
    UrlKeysDistinct();
    forall k | k in UrlKeys ensures Field(Obj(table), k) == Or(Field(definition, k), Str("")) {
      var i :| 0 <= i < |UrlKeys| && UrlKeys[i] == k;
      OrderedMaps.GetFirst(table, i);
    }
  }

  /** `definition.data || {}`; a truthy `data` that is not an object is taken as no properties. */
  function DataOf(definition: Value): (d: OrderedMaps.Entries<Value>)
    ensures !Truthy(Field(definition, "data")) ==> d == []
    ensures Field(definition, "data").Obj? ==> d == Field(definition, "data").fields
  {
    var v := Or(Field(definition, "data"), Obj([]));
    if v.Obj? then v.fields else []
  }

  // ------------------------------------------------ relationship URLs

  /**
   * The URL field `getRelationships` reads: the incoming, outgoing or
   * (for any other, or no, direction) all family, typed exactly when
   * types are given.
   */
  function RelationshipsKey(dir: Value, types: Value): (key: string)
    ensures key in UrlKeys
    ensures key in {"incoming_relationships", "incoming_typed_relationships"} <==> Or(dir, All) == In
    ensures key in {"outgoing_relationships", "outgoing_typed_relationships"} <==> Or(dir, All) == Out
    ensures key in {"all_relationships", "all_typed_relationships"} <==> Or(dir, All) != In && Or(dir, All) != Out
    ensures key in {"incoming_typed_relationships", "outgoing_typed_relationships", "all_typed_relationships"} <==> Truthy(types)
  {
    var d := Or(dir, All);
    if d == In then (if Truthy(types) then "incoming_typed_relationships" else "incoming_relationships")
    else if d == Out then (if Truthy(types) then "outgoing_typed_relationships" else "outgoing_relationships")
    else (if Truthy(types) then "all_typed_relationships" else "all_relationships")
  }

  /** An element of an array as `join` prints it: `null` and `undefined` as nothing. */
  function JoinText(v: Value): string
  {
    if v.Null? || v.Undefined? then "" else ToText(v)
  }

  function JoinTexts(items: seq<Value>): (r: seq<string>)
    ensures |r| == |items|
    ensures forall i | 0 <= i < |items| :: r[i] == JoinText(items[i])
  {
    if items == [] then [] else [JoinText(items[0])] + JoinTexts(items[1..])
  }

  /** The types as substituted: an array joined with `&`, anything else as it is. */
  function TypesParameter(types: Value): (r: Value)
    ensures types.Arr? ==> r == Str(Join(JoinTexts(types.items), "&"))
    ensures !types.Arr? ==> r == types
  {
    if types.Arr? then Str(Join(JoinTexts(types.items), "&")) else types
  }

  /** The URL `getRelationships(dir, types)` sends its GET to. */
  function RelationshipsUrl(urls: OrderedMaps.Entries<Value>, dir: Value, types: Value): Value
  {
    var t := Or(types, Null);
    var url := Field(Obj(urls), RelationshipsKey(dir, t));
    if Truthy(t) then Str(WebOld.ReplaceAll(ToText(url), [(TypesPlaceholder, TypesParameter(t))])) else url
  }

  /** Without types the family's plain URL is used as it is. */
  lemma UntypedRelationshipsUrl(urls: OrderedMaps.Entries<Value>, dir: Value, types: Value)
    requires !Truthy(types)
    ensures RelationshipsUrl(urls, dir, types) == Field(Obj(urls), RelationshipsKey(dir, Null))
    ensures RelationshipsKey(dir, Null) in {"incoming_relationships", "outgoing_relationships", "all_relationships"}
  {
  }

  /** With types, the typed URL gets them in place of its `{-list|&|types}` placeholder. */
  lemma TypedRelationshipsUrl(urls: OrderedMaps.Entries<Value>, dir: Value, types: Value, a: string, b: string)
    requires Truthy(types) && '{' !in a
    requires Field(Obj(urls), RelationshipsKey(dir, types)) == Str(a + "{" + TypesPlaceholder + "}" + b)
    ensures RelationshipsUrl(urls, dir, types) == Str(a + Expand(ToText(TypesParameter(types)), "{" + TypesPlaceholder + "}", a, b) + b)
    ensures '$' !in ToText(TypesParameter(types)) ==> RelationshipsUrl(urls, dir, types) == Str(a + ToText(TypesParameter(types)) + b)
  {
    var s := a + "{" + TypesPlaceholder + "}" + b;
    forall j | 0 <= j < |a| ensures !At(s, "{" + TypesPlaceholder + "}", j) {
      assert s[j] == a[j];
      assert a[j] in a;
    }
    WebOld.ReplaceOne(a, TypesPlaceholder, b, TypesParameter(types));
  }

  /** An array of types is joined with `&`: `["KNOWS", "LIKES"]` gives `KNOWS&LIKES`. */
  lemma JoinedTypes()
    ensures TypesParameter(Arr([Str("KNOWS"), Str("LIKES")])) == Str("KNOWS&LIKES")
  {
    assert JoinTexts([Str("KNOWS"), Str("LIKES")]) == ["KNOWS", "LIKES"];
    assert Join(["KNOWS", "LIKES"], "&") == "KNOWS" + "&" + Join(["LIKES"], "&");
  }

  // ------------------------------------------------------- traversals

  /** `neo4j.traverse.RETURN_NODES`, `RETURN_RELATIONSHIPS` and `RETURN_PATHS`, whatever their values. */
  datatype ReturnTypes = ReturnTypes(nodes: Value, relationships: Value, paths: Value)

  datatype ModelClass = NodeModel | RelationshipModel | PathModel

  /** The model class `traverse` builds its results with, for a return type defaulting to nodes. */
  function TraverseClass(c: ReturnTypes, returnType: Value): (m: ModelClass)
    ensures m == RelationshipModel <==> Or(returnType, c.nodes) == c.relationships
    ensures m == PathModel <==> Or(returnType, c.nodes) == c.paths && Or(returnType, c.nodes) != c.relationships
  {
    var rt := Or(returnType, c.nodes);
    if rt == c.relationships then RelationshipModel
    else if rt == c.paths then PathModel
    else NodeModel
  }

  /** With no return type a traversal returns nodes, when the three constants differ. */
  lemma TraverseDefaultsToNodes(c: ReturnTypes, returnType: Value)
    requires c.nodes != c.relationships && c.nodes != c.paths
    requires !Truthy(returnType)
    ensures TraverseClass(c, returnType) == NodeModel
  {
  }

  /** The URL `traverse` posts to: the `traverse` URL with the return type in place of `{returnType}`. */
  function TraverseUrl(urls: OrderedMaps.Entries<Value>, c: ReturnTypes, returnType: Value): string
  {
    WebOld.ReplaceAll(ToText(Field(Obj(urls), "traverse")), [("returnType", Or(returnType, c.nodes))])
  }

  /**
   * A `traverse` URL with one `{returnType}` placeholder gets the return
   * type in its place (the nodes constant when none is given); nothing
   * else of the URL changes.
   */
  lemma TraverseUrlFilled(urls: OrderedMaps.Entries<Value>, c: ReturnTypes, returnType: Value, a: string, b: string)
    requires Field(Obj(urls), "traverse") == Str(a + "{returnType}" + b)
    requires forall j | 0 <= j < |a| :: !At(a + "{returnType}" + b, "{returnType}", j)
    requires '$' !in ToText(Or(returnType, c.nodes))
    ensures TraverseUrl(urls, c, returnType) == a + ToText(Or(returnType, c.nodes)) + b
    ensures !Truthy(returnType) ==> TraverseUrl(urls, c, returnType) == a + ToText(c.nodes) + b
  {
    assert "{" + "returnType" + "}" == "{returnType}";
    assert a + "{" + "returnType" + "}" + b == a + "{returnType}" + b;
    WebOld.ReplaceOne(a, "returnType", b, Or(returnType, c.nodes));
  }

  // ----------------------------------------------------------- remove

  /** The server's answer to one DELETE of the node. */
  datatype DeleteAnswer = Deleted | Refused(e: HttpException.HttpException)

  /** How a `remove` ends: removed, never settled, or out of answers. */
  datatype RemoveEnd = Removed | Pending | Unanswered

  /**
   * The DELETEs of the node a `remove` issues, against successive answers:
   * a 409 conflict while `guard` is clear deletes the relationships (not
   * modelled) and removes again, with the guard that call starts with;
   * any other refusal leaves the promise pending. `shared` says whether
   * the retry sees the guard set (`true`) or a fresh, clear one (`false`).
   */
  function RemoveAttempts(answers: seq<DeleteAnswer>, guard: bool, shared: bool): (r: (nat, RemoveEnd))
    ensures 1 <= r.0 <= |answers| || (r.0 == 0 && answers == [])
    decreases |answers|
  {
    if answers == [] then (0, Unanswered)
    else match answers[0]
      case Deleted => (1, Removed)
      case Refused(e) =>
        if HttpException.IsConflict(e) && !guard then
          var next := RemoveAttempts(answers[1..], shared, shared);
          (next.0 + 1, next.1)
        else (1, Pending)
  }

  /** `remove()` as written: `hasDeletedRelationships` is local to each call, so every retry starts clear. */
  function RemoveAsWritten(answers: seq<DeleteAnswer>): (nat, RemoveEnd)
  {
    RemoveAttempts(answers, false, false)
  }

  /** `remove()` as intended: after the relationships were deleted once, a second conflict is not retried. */
  function RemoveIntended(answers: seq<DeleteAnswer>): (nat, RemoveEnd)
  {
    RemoveAttempts(answers, false, true)
  }

  /** A 409 conflict. */
  function Conflict(): DeleteAnswer
  {
    Refused(HttpException.Create(Num(409), Null, Null, Null))
  }

  function Conflicts(n: nat): (r: seq<DeleteAnswer>)
    ensures |r| == n && forall i | 0 <= i < n :: r[i] == Conflict()
  {
    if n == 0 then [] else [Conflict()] + Conflicts(n - 1)
  }

  /** As written, a server that keeps answering 409 gets a DELETE of the node for every conflict. */
  lemma {:induction false} RemoveRetriesWithoutBound(n: nat)
    ensures RemoveAsWritten(Conflicts(n) + [Deleted]) == (n + 1, Removed)
  {
    if n > 0 {
      RemoveRetriesWithoutBound(n - 1);
      assert (Conflicts(n) + [Deleted])[1..] == Conflicts(n - 1) + [Deleted];
    }
  }

  /** As intended, the node is deleted at most twice, and a second conflict leaves the promise pending. */
  lemma RemoveIntendedAtMostTwice(answers: seq<DeleteAnswer>)
    ensures RemoveIntended(answers).0 <= 2
    ensures |answers| >= 2 && answers[0] == Conflict() && answers[1] == Conflict() ==> RemoveIntended(answers) == (2, Pending)
  {
    if |answers| >= 1 && answers[0].Refused? && HttpException.IsConflict(answers[0].e) {
      var rest := answers[1..];
      assert RemoveIntended(answers).0 == RemoveAttempts(rest, true, true).0 + 1;
    }
  }

  /** Both agree on the exchange the client expects: one conflict, the relationships go, the second DELETE succeeds. */
  lemma RemoveAfterOneConflict()
    ensures RemoveAsWritten([Conflict(), Deleted]) == (2, Removed)
    ensures RemoveIntended([Conflict(), Deleted]) == (2, Removed)
  {
    assert [Conflict(), Deleted][1..] == [Deleted];
  }

  /**
   * After the node is deleted: fulfil with `true` once the reference node
   * URL is known, having forced rediscovery when it was this node (`==`);
   * fail when the reference node URL cannot be had.
   */
  function AfterDelete(reference: Result<Value, Value>, nodeUrl: Value): (r: (bool, Settled))
    ensures reference.Success? ==> r.1 == Done && (r.0 <==> LooseEquals(reference.value, nodeUrl))
    ensures reference.Failure? ==> !r.0 && r.1 == Failed(Raw(reference.error))
  {
    match reference
    case Success(url) => (LooseEquals(url, nodeUrl), Done)
    case Failure(e) => (false, Failed(Raw(e)))
  }

  // ------------------------------------------------------------- Node

  class Node {
    /** The state shared with relationships: `_self` and `_data`. */
    const props: PropertyContainer.Container
    /** `_urls`. */
    var urls: OrderedMaps.Entries<Value>

    /** The state `_init(definition)` leaves. */
    ghost predicate InitializedFrom(definition: Value)
      reads this, props
    {
      props.self == Or(Field(definition, "self"), Null)
      && props.data == DataOf(definition)
      && urls == UrlTable(definition)
    }

    /** `new Node(arg, db)`. */
    constructor(arg: Value)
      ensures fresh(props) && InitializedFrom(arg)
    {
      props := new PropertyContainer.Container();
      urls := [];
      new;
      Init(arg);
    }

    /**
     * `_init(definition)`: `self` defaults to `null` (an unsaved node),
     * `data` to no properties, and each of the nine URLs to `""`.
     */
    method Init(definition: Value)
      modifies this, props
      ensures InitializedFrom(definition)
      ensures Truthy(Field(definition, "self")) <==> props.Exists()
      ensures Truthy(Field(definition, "self")) ==> props.GetSelf() == Field(definition, "self")
    {
      var self := Or(Field(definition, "self"), Null);
      assert Truthy(Field(definition, "self")) <==> !self.Undefined? && !self.Null?;
      props.self := self;
      props.data := DataOf(definition);
      urls := UrlTable(definition);
    }

    /** `getCreateRelationshipUrl()`: the URL once saved; an unsaved node throws. */
    function CreateRelationshipUrl(): (r: Result<Value, string>)
      reads this, props
      ensures r.Success? <==> props.Exists()
      ensures r.Success? ==> r.value == Field(Obj(urls), "create_relationship")
    {
      if props.Exists() then Success(Field(Obj(urls), "create_relationship"))
      else Failure("You can't get the create relationship url until you have saved the node!")
    }

    /** `getRelationships(dir, types)`: the GET it issues. */
    function RelationshipsRequest(dir: Value, types: Value): (req: Transport.Request)
      reads this
      ensures req.verb == "GET" && req.url == RelationshipsUrl(urls, dir, types)
    {
      Transport.Get(RelationshipsUrl(urls, dir, types))
    }

    /**
     * `save()`: an unsaved node is POSTed to the service definition's
     * `node` URL and initialised from the answer; a saved one PUTs its
     * properties to its `properties` URL and keeps its state.
     */
    method Save(definition: Value, answer: Result<Value, Value>) returns (req: Transport.Request, outcome: Settled)
      modifies this, props
      ensures !old(props.Exists()) ==> req == Transport.Post(Field(definition, "node"), Obj(old(props.data)))
      ensures old(props.Exists()) ==> req == Transport.Put(Field(Obj(old(urls)), "properties"), Obj(old(props.data)))
      ensures answer.Failure? ==> outcome == Failed(Raw(answer.error)) && unchanged(this, props)
      ensures answer.Success? ==> outcome == Done
      ensures answer.Success? && !old(props.Exists()) ==> InitializedFrom(Field(answer.value, "data"))
      ensures answer.Success? && old(props.Exists()) ==> unchanged(this, props)
    {
      if !props.Exists() {
        req := Transport.Post(Field(definition, "node"), Obj(props.data));
        match answer
        case Success(response) =>
          Init(Field(response, "data"));
          outcome := Done;
        case Failure(e) =>
          outcome := Failed(Raw(e));
      } else {
        req := Transport.Put(Field(Obj(urls), "properties"), Obj(props.data));
        outcome := match answer
          case Success(_) => Done
          case Failure(e) => Failed(Raw(e));
      }
    }

    /**
     * `fetch()`: GET the self URL; an answer with a `self` initialises the
     * node, any other answer is invalid data, and a failed GET means the
     * node was not found.
     */
    method Fetch(answer: Result<Value, Value>) returns (req: Transport.Request, outcome: Settled)
      modifies this, props
      ensures req == Transport.Get(old(props.self))
      ensures answer.Success? && Truthy(Field(Field(answer.value, "data"), "self")) ==>
                outcome == Done && InitializedFrom(Field(answer.value, "data"))
      ensures answer.Success? && !Truthy(Field(Field(answer.value, "data"), "self")) ==>
                outcome == Failed(InvalidData) && unchanged(this, props)
      ensures answer.Failure? ==> outcome == Failed(NotFound(old(props.self))) && unchanged(this, props)
    {
      req := Transport.Get(props.self);
      match answer
      case Success(response) =>
        var data := Field(response, "data");
        if Truthy(data) && Truthy(Field(data, "self")) {
          Init(data);
          outcome := Done;
        } else {
          outcome := Failed(InvalidData);
        }
      case Failure(_) =>
        outcome := Failed(NotFound(props.self));
    }
  }
}
