/**
 * `neo4j.models.Relationship`: a property container with a type, a
 * `properties` URL and the URLs of its start and end nodes, with the
 * node objects cached once known.
 */
module Relationship {
  import opened Wrappers
  import opened Strings
  import opened JsValue
  import OrderedMaps
  import PropertyContainer
  import Node
  import Transport

  /** A node object as a relationship sees it: its identity and its self URL (`getSelf()`). */
  datatype NodeRef = NodeRef(id: nat, self: Value)

  /** An argument that may be a Node object (`instanceof neo4j.models.Node`) or any other value. */
  datatype NodeOrUrl = NodeGiven(node: NodeRef) | UrlGiven(url: Value)

  datatype End = Start | Finish

  /** `start` or `end` of a server definition: absent when `undefined`, otherwise the URL. */
  function EndpointOf(definition: Value, key: string): (e: Option<NodeOrUrl>)
    ensures e.None? <==> Field(definition, key).Undefined?
    ensures e.Some? ==> e.value == UrlGiven(Field(definition, key))
  {
    var v := Field(definition, key);
    if v.Undefined? then None else Some(UrlGiven(v))
  }

  /** The text a node URL is searched for in an exception message (`indexOf` converts it). */
  ghost predicate Mentions(s: string, pat: string)
  {
    exists i :: At(s, pat, i)
  }

  /**
   * The error a failed creation ends with: the server's exception naming
   * a missing end node (or bad input mentioning the end URL) becomes
   * "not found", one naming the same start and end node becomes that
   * exception, and anything else is passed on as it came.
   */
  function SaveError(response: Value, endUrl: Value): (r: Node.Error)
    ensures var ex := Field(Field(Field(response, "error"), "data"), "exception");
            && (r == Node.NotFound(endUrl) <==>
                  ex.Str? && (Mentions(ex.s, "EndNodeNotFoundException")
                              || (Mentions(ex.s, "BadInputException") && Mentions(ex.s, ToText(endUrl)))))
            && (r == Node.StartNodeSameAsEnd(endUrl) <==>
                  ex.Str? && !Mentions(ex.s, "EndNodeNotFoundException")
                  && !(Mentions(ex.s, "BadInputException") && Mentions(ex.s, ToText(endUrl)))
                  && Mentions(ex.s, "StartNodeSameAsEndNodeException"))
            && (r.NotFound? || r.StartNodeSameAsEnd? || r == Node.Raw(response))
  {
    var ex := Field(Field(Field(response, "error"), "data"), "exception");
    if ex.Str? then
      var s := ex.s;
      IndexOfFound(s, "EndNodeNotFoundException");
      IndexOfFound(s, "BadInputException");
      IndexOfFound(s, ToText(endUrl));
      IndexOfFound(s, "StartNodeSameAsEndNodeException");
      if IndexOf(s, "EndNodeNotFoundException") > -1
         || (IndexOf(s, "BadInputException") > -1 && IndexOf(s, ToText(endUrl)) > -1)
      then Node.NotFound(endUrl)
      else if IndexOf(s, "StartNodeSameAsEndNodeException") > -1 then Node.StartNodeSameAsEnd(endUrl)
      else Node.Raw(response)
    else Node.Raw(response)
  }

  class Relationship {
    const props: PropertyContainer.Container
    /** `_type`. */
    var relType: Value
    /** `_urls`: only `properties`. */
    var urls: OrderedMaps.Entries<Value>
    /** `_startUrl`, `_endUrl`: `undefined` until given. */
    var startUrl: Value
    var endUrl: Value
    /** `_startNode`, `_endNode`: the node objects, once known. */
    var startNode: Option<NodeRef>
    var endNode: Option<NodeRef>

    /** `new Relationship(arg, db)`, with `arg.start` and `arg.end` given separately. */
    constructor(definition: Value, start: Option<NodeOrUrl>, end: Option<NodeOrUrl>)
      ensures fresh(props)
      ensures props.self == Or(Field(definition, "self"), Null) && props.data == Node.DataOf(definition)
      ensures relType == Or(Field(definition, "type"), Null)
      ensures startUrl == (match start case None => Undefined case Some(NodeGiven(n)) => n.self case Some(UrlGiven(u)) => u)
      ensures endUrl == (match end case None => Undefined case Some(NodeGiven(n)) => n.self case Some(UrlGiven(u)) => u)
      ensures startNode == (if start.Some? && start.value.NodeGiven? then Some(start.value.node) else None)
      ensures endNode == (if end.Some? && end.value.NodeGiven? then Some(end.value.node) else None)
    {
      props := new PropertyContainer.Container();
      relType := Null;
      urls := [];
      startUrl := Undefined;
      endUrl := Undefined;
      startNode := None;
      endNode := None;
      new;
      Init(definition, start, end);
    }

    /**
     * `_init(definition)`: self, data and type default as for nodes; a
     * start or end given as a node caches the node and takes its self URL,
     * given otherwise it only sets the URL, and an absent one changes
     * nothing of what was known.
     */
    method Init(definition: Value, start: Option<NodeOrUrl>, end: Option<NodeOrUrl>)
      modifies this, props
      ensures props.self == Or(Field(definition, "self"), Null) && props.data == Node.DataOf(definition)
      ensures relType == Or(Field(definition, "type"), Null)
      ensures urls == [("properties", Or(Field(definition, "properties"), Str("")))]
      ensures start.None? ==> startUrl == old(startUrl) && startNode == old(startNode)
      ensures start.Some? && start.value.NodeGiven? ==> startNode == Some(start.value.node) && startUrl == start.value.node.self
      ensures start.Some? && start.value.UrlGiven? ==> startNode == old(startNode) && startUrl == start.value.url
      ensures end.None? ==> endUrl == old(endUrl) && endNode == old(endNode)
      ensures end.Some? && end.value.NodeGiven? ==> endNode == Some(end.value.node) && endUrl == end.value.node.self
      ensures end.Some? && end.value.UrlGiven? ==> endNode == old(endNode) && endUrl == end.value.url
    {
      props.self := Or(Field(definition, "self"), Null);
      props.data := Node.DataOf(definition);
      relType := Or(Field(definition, "type"), Null);
      urls := [("properties", Or(Field(definition, "properties"), Str("")))];
      match start {
        case None =>
        case Some(NodeGiven(n)) => startNode := Some(n); startUrl := n.self;
        case Some(UrlGiven(u)) => startUrl := u;
      }
      match end {
        case None =>
        case Some(NodeGiven(n)) => endNode := Some(n); endUrl := n.self;
        case Some(UrlGiven(u)) => endUrl := u;
      }
    }

    /** `getType()`: `null` when no type is set. */
    function GetType(): (r: Value)
      reads this
      ensures Truthy(relType) ==> r == relType
      ensures !Truthy(relType) ==> r == Null
    {
      Or(relType, Null)
    }

    /** `isStartNode(node)`: the start URL is strictly equal to the node's self URL, or to the value given. */
    predicate IsStartNode(n: NodeOrUrl)
      reads this
    {
      match n
      case NodeGiven(x) => startUrl == x.self
      case UrlGiven(u) => startUrl == u
    }

    /** `isEndNode(node)`. */
    predicate IsEndNode(n: NodeOrUrl)
      reads this
    {
      match n
      case NodeGiven(x) => endUrl == x.self
      case UrlGiven(u) => endUrl == u
    }

    /** `getOtherNodeUrl(node)`: the end URL for the start node, the start URL for anything else. */
    function OtherNodeUrl(n: NodeOrUrl): (r: Value)
      reads this
      ensures IsStartNode(n) ==> r == endUrl
      ensures !IsStartNode(n) ==> r == startUrl
    {
      if IsStartNode(n) then endUrl else startUrl
    }

    /**
     * `getStartNode()` / `getEndNode()`: the cached node without a request;
     * otherwise the database is asked for the node at the stored URL, and
     * the node it answers with is cached.
     */
    method GetNode(which: End, answer: Result<NodeRef, Value>) returns (req: Option<Value>, r: Result<NodeRef, Value>)
      modifies this
      ensures var cached := if which == Start then old(startNode) else old(endNode);
              && (cached.Some? ==> req.None? && r == Success(cached.value) && unchanged(this))
              && (cached.None? ==> req == Some(if which == Start then old(startUrl) else old(endUrl)) && r == answer)
      ensures startUrl == old(startUrl) && endUrl == old(endUrl) && relType == old(relType) && urls == old(urls)
      ensures which == Start && old(startNode).None? ==>
                endNode == old(endNode) && startNode == (if answer.Success? then Some(answer.value) else None)
      ensures which == Finish && old(endNode).None? ==>
                startNode == old(startNode) && endNode == (if answer.Success? then Some(answer.value) else None)
    {
      var cached := if which == Start then startNode else endNode;
      if cached.Some? {
        req, r := None, Success(cached.value);
      } else {
        req := Some(if which == Start then startUrl else endUrl);
        r := answer;
        if answer.Success? {
          if which == Start { startNode := Some(answer.value); } else { endNode := Some(answer.value); }
        }
      }
    }

    /**
     * `fetch()`: GET the self URL; an answer with `self`, `start` and `end`
     * initialises the relationship, any other answer is invalid data, and
     * a failed GET fails with the error as it came.
     */
    method Fetch(answer: Result<Value, Value>) returns (req: Transport.Request, outcome: Node.Settled)
      modifies this, props
      ensures req == Transport.Get(old(props.self))
      ensures var d := if answer.Success? then Field(answer.value, "data") else Undefined;
              answer.Success? && Truthy(d) && Truthy(Field(d, "self")) && Truthy(Field(d, "start")) && Truthy(Field(d, "end")) ==>
                outcome == Node.Done && props.self == Field(d, "self") && props.data == Node.DataOf(d)
                && startUrl == Field(d, "start") && endUrl == Field(d, "end") && relType == Or(Field(d, "type"), Null)
                && urls == [("properties", Or(Field(d, "properties"), Str("")))]
                && startNode == old(startNode) && endNode == old(endNode)
      ensures var d := if answer.Success? then Field(answer.value, "data") else Undefined;
              answer.Success? && !(Truthy(d) && Truthy(Field(d, "self")) && Truthy(Field(d, "start")) && Truthy(Field(d, "end"))) ==>
                outcome == Node.Failed(Node.InvalidData) && unchanged(this, props)
      ensures answer.Failure? ==> outcome == Node.Failed(Node.Raw(answer.error)) && unchanged(this, props)
    {
      req := Transport.Get(props.self);
      match answer
      case Success(response) =>
        var d := Field(response, "data");
        if Truthy(d) && Truthy(Field(d, "self")) && Truthy(Field(d, "start")) && Truthy(Field(d, "end")) {
          Init(d, EndpointOf(d, "start"), EndpointOf(d, "end"));
          outcome := Node.Done;
        } else {
          outcome := Node.Failed(Node.InvalidData);
        }
      case Failure(e) =>
        outcome := Node.Failed(Node.Raw(e));
    }

    /**
     * `save()`: an unsaved relationship is POSTed, as `{to, type, data}`, to
     * the create-relationship URL of its start node and initialised from
     * the answer, a refusal mapped by `SaveError`; a saved one PUTs its
     * properties.
     */
    method Save(createUrl: Value, answer: Result<Value, Value>) returns (req: Transport.Request, outcome: Node.Settled)
      modifies this, props
      ensures !old(props.Exists()) ==>
                req == Transport.Post(createUrl, Obj([("to", old(endUrl)), ("type", old(GetType())), ("data", Obj(old(props.data)))]))
      ensures !old(props.Exists()) && answer.Failure? ==>
                outcome == Node.Failed(SaveError(answer.error, old(endUrl))) && unchanged(this, props)
      ensures var d := if answer.Success? then Field(answer.value, "data") else Undefined;
              !old(props.Exists()) && answer.Success? ==>
                outcome == Node.Done && props.self == Or(Field(d, "self"), Null) && props.data == Node.DataOf(d)
                && relType == Or(Field(d, "type"), Null) && urls == [("properties", Or(Field(d, "properties"), Str("")))]
                && startUrl == (if Field(d, "start").Undefined? then old(startUrl) else Field(d, "start"))
                && endUrl == (if Field(d, "end").Undefined? then old(endUrl) else Field(d, "end"))
                && startNode == old(startNode) && endNode == old(endNode)
      ensures old(props.Exists()) ==> req == Transport.Put(Field(Obj(old(urls)), "properties"), Obj(old(props.data)))
      ensures old(props.Exists()) ==> unchanged(this, props)
      ensures old(props.Exists()) ==> outcome == if answer.Success? then Node.Done else Node.Failed(Node.Raw(answer.error))
    {
      if !props.Exists() {
        req := Transport.Post(createUrl, Obj([("to", endUrl), ("type", GetType()), ("data", Obj(props.data))]));
        match answer
        case Success(response) =>
          var d := Field(response, "data");
          Init(d, EndpointOf(d, "start"), EndpointOf(d, "end"));
          outcome := Node.Done;
        case Failure(e) =>
          outcome := Node.Failed(SaveError(e, endUrl));
      } else {
        req := Transport.Put(Field(Obj(urls), "properties"), Obj(props.data));
        outcome := if answer.Success? then Node.Done else Node.Failed(Node.Raw(answer.error));
      }
    }

    /** `remove()`: the DELETE of the self URL; how its promise settles follows the answer and is not modelled. */
    function RemoveRequest(): (req: Transport.Request)
      reads this, props
      ensures req.verb == "DELETE" && req.url == props.GetSelf()
    {
      Transport.Delete(props.GetSelf())
    }
  }

  /** Asking twice for the start node asks the database once, and both answers are the same node. */
  method StartNodeTwice(r: Relationship, answer: NodeRef, other: NodeRef)
    returns (req1: Option<Value>, first: Result<NodeRef, Value>, req2: Option<Value>, second: Result<NodeRef, Value>)
    requires r.startNode.None?
    modifies r
    ensures req1 == Some(old(r.startUrl)) && req2.None?
    ensures first == second == Success(answer)
  {
    req1, first := r.GetNode(Start, Success(answer));
    req2, second := r.GetNode(Start, Success(other));
  }

  /** The start node's URL gives the end URL back; any other value, the start URL. */
  lemma OtherNodeUrlOfEnds(r: Relationship, n: NodeRef)
    requires r.startUrl == n.self
    ensures r.OtherNodeUrl(NodeGiven(n)) == r.endUrl
    ensures r.OtherNodeUrl(UrlGiven(n.self)) == r.endUrl
    ensures r.startUrl != r.endUrl ==> r.OtherNodeUrl(UrlGiven(r.endUrl)) == r.startUrl
  {
  }
}
