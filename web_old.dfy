/**
 * `neo4j.Web` of the lib revision and its jQuery provider: the argument
 * sorting of `ajax`, placeholder substitution in URLs, the cross-domain
 * test, how the provider turns an XHR outcome into a call of the success
 * or the failure callback, and the order in which `ajax` settles its
 * promise and calls the caller's callbacks.
 *
 * jQuery itself is not modelled: an exchange is the `Xhr` it ends with.
 * Callbacks are values; what they do when called is not modelled, only
 * that, in which order and with which arguments they are called.
 */
module WebOld {
  import opened Wrappers
  import opened Strings
  import opened JsValue
  import OrderedMaps
  import HttpException

  /** A thrown exception or a callback argument. */
  datatype Arg =
    | Val(v: Value)
    | ConnectionLost                              // `new neo4j.exceptions.ConnectionLostException()`
    | Http(e: HttpException.HttpException)

  /** A callback slot after `_processAjaxArguments`: the caller's function or the default `function() {}`. */
  datatype Callback = User(f: Value) | Nothing

  datatype AjaxArgs = AjaxArgs(verb: Value, url: Value, data: Value, success: Callback, failure: Callback)

  /**
   * How an XHR ended: its `status` (`undefined` when unreadable), the parse
   * of `responseText` (`None` when `JSON.parse` throws), and the request
   * object itself as a value.
   */
  datatype Xhr = Xhr(status: Value, parsed: Option<Value>, obj: Value)

  /** The provider's decision: call `success` with its arguments, or `failure` with one. */
  datatype Signal = ToSuccess(args: seq<Value>) | ToFailure(error: Arg)

  /** What happens, in order, after the exchange. */
  datatype Event =
    | Settle(fulfilled: bool, payload: Arg, args: seq<Arg>)  // `fulfill.call` / `fail.call` with `{data|error: arguments[0], args: arguments}`
    | Trigger(name: string, args: seq<Arg>)                    // `events.trigger(name, args)`
    | Invoke(callback: Callback, args: seq<Arg>)               // a callback of the caller

  /** The request body: `""`, the JSON text of a value, or a value jQuery turns into a query string. */
  datatype Body = Text(s: string) | Json(v: Value) | Query(v: Value)

  // ------------------------------------------------------ URL helpers

  /** One step of `replace`: the first `{key}` becomes the text of the value. */
  function ReplaceKey(url: string, key: string, value: Value): string
  {
    ReplaceFirst(url, "{" + key + "}", ToText(value))
  }

  /** `replace(url, map)`: every key of the map, in order, substituted once. */
  function ReplaceAll(url: string, placeholders: OrderedMaps.Entries<Value>): string
    decreases |placeholders|
  {
    if placeholders == [] then url
    else ReplaceAll(ReplaceKey(url, placeholders[0].0, placeholders[0].1), placeholders[1..])
  }

  /** `replace` as the loop that reassigns the URL key by key. */
  method Replace(url: string, placeholders: OrderedMaps.Entries<Value>) returns (out: string)
    ensures out == ReplaceAll(url, placeholders)
  {
    out := url;
    var i := 0;
    while i < |placeholders|
      invariant 0 <= i <= |placeholders|
      invariant ReplaceAll(out, placeholders[i..]) == ReplaceAll(url, placeholders)
    {
      assert placeholders[i..][1..] == placeholders[i + 1..];
      out := ReplaceKey(out, placeholders[i].0, placeholders[i].1);
      i := i + 1;
    }
  }

  /** A URL without `{` holds no placeholder: `replace` leaves it as it is, whatever the map. */
  lemma {:induction false} ReplaceNoBraces(url: string, placeholders: OrderedMaps.Entries<Value>)
    requires '{' !in url
    ensures ReplaceAll(url, placeholders) == url
    decreases |placeholders|
  {
    if placeholders != [] {
      var pat := "{" + placeholders[0].0 + "}";
      forall j ensures !At(url, pat, j) {
        if 0 <= j && j + |pat| <= |url| {
          assert url[j] in url;
          assert url[j..j + |pat|][0] == url[j] != pat[0];
        }
      }
      IndexOfFound(url, pat);
      ReplaceNoBraces(url, placeholders[1..]);
    }
  }

  /**
   * A URL with one `{key}` placeholder and a map of that one key gets the
   * value's text in its place, with its `$` patterns expanded; a text
   * without `$` goes in as it is.
   */
  lemma ReplaceOne(a: string, key: string, b: string, value: Value)
    requires forall j | 0 <= j < |a| :: !At(a + "{" + key + "}" + b, "{" + key + "}", j)
    ensures ReplaceAll(a + "{" + key + "}" + b, [(key, value)]) == a + Expand(ToText(value), "{" + key + "}", a, b) + b
    ensures '$' !in ToText(value) ==> ReplaceAll(a + "{" + key + "}" + b, [(key, value)]) == a + ToText(value) + b
  {
    var pat := "{" + key + "}";
    assert a + "{" + key + "}" + b == a + pat + b;
    ReplaceFirstAt(a, pat, b, ToText(value));
    assert [(key, value)][1..] == [];
    if '$' !in ToText(value) {
      ExpandPlain(ToText(value), pat, a, b);
    }
  }

  /** A value whose text is `$&` puts the placeholder itself back: `replace("/n/{id}", {id: "$&"})` is `/n/{id}`. */
  lemma DollarValueKeepsPlaceholder()
    ensures ReplaceAll("/n/{id}", [("id", Str("$&"))]) == "/n/{id}"
  {
    var a := "/n/";
    var pat := "{" + "id" + "}";
    var url := a + pat + "";
    assert pat == "{id}" && url == "/n/{id}";
    assert a + "{" + "id" + "}" + "" == url;
    forall j | 0 <= j < |a| ensures !At(url, pat, j) {
      assert url[j] == a[j] && a[j] != '{';
      assert url[j..j + |pat|][0] == url[j];
    }
    ReplaceOne(a, "id", "", Str("$&"));
    ExpandPatterns(pat, a, "");
  }

  /**
   * `isCrossDomain(url)` against the page's host: only a URL with `://`
   * at index 7 or before names a host, the text up to the next `/`.
   */
  function IsCrossDomain(url: string, host: Value): (r: bool)
    ensures r ==> 0 <= IndexOf(url, "://") <= 7
    ensures 0 <= IndexOf(url, "://") <= 7 ==>
              (r <==> Str(Split(Substring(url, IndexOf(url, "://") + 3), '/')[0]) != host)
  {
    if url == "" then false
    else
      var httpIndex := IndexOf(url, "://");
      if httpIndex == -1 || httpIndex > 7 then false
      else Str(Split(Substring(url, httpIndex + 3), '/')[0]) != host
  }

  /** A URL on the page's own host is not cross-domain, another host is. */
  lemma CrossDomainHosts(h: string, path: string, other: string)
    requires '/' !in h && '/' !in other && ':' !in h && h != other
    ensures !IsCrossDomain("http://" + h + "/" + path, Str(h))
    ensures IsCrossDomain("http://" + h + "/" + path, Str(other))
  {
    var url := "http://" + h + "/" + path;
    assert At(url, "://", 4);
    assert forall i | 0 <= i < 4 :: !At(url, "://", i) by {
      forall i | 0 <= i < 4 ensures !At(url, "://", i) {
        assert url[i] != ':';
        assert url[i..i + 3][0] == url[i];
      }
    }
    assert IndexOf(url, "://") == 4;
    assert Substring(url, 7) == h + "/" + path;
    SplitFirst(h, '/', path);
  }

  // ------------------------------------------------------ ajax arguments

  /** `args.shift()`: the first element, or `undefined` for an empty list. */
  method Shift(args: seq<Value>) returns (first: Value, rest: seq<Value>)
    ensures args == [] ==> first == Undefined && rest == []
    ensures args != [] ==> [first] + rest == args
  {
    if args == [] {
      first, rest := Undefined, [];
    } else {
      first, rest := args[0], args[1..];
    }
  }

  /** `_.isFunction(f) ? f : function() {}`. */
  function OrNothing(f: Value): (c: Callback)
    ensures c.User? <==> IsFunction(f)
  {
    if IsFunction(f) then User(f) else Nothing
  }

  /** `arguments[i]`, `undefined` past the end. */
  function ArgAt(args: seq<Value>, i: nat): Value
  {
    if i < |args| then args[i] else Undefined
  }

  /**
   * How `_processAjaxArguments` reads its arguments: method and URL first;
   * the next argument is the data unless it is a function; then success
   * and failure, each replaced by a no-op unless it is a function.
   */
  function Sorted(args: seq<Value>): AjaxArgs
  {
    var hasData := |args| > 2 && !IsFunction(args[2]);
    var k := if hasData then 3 else 2;
    AjaxArgs(ArgAt(args, 0), ArgAt(args, 1), if hasData then args[2] else Null,
             OrNothing(ArgAt(args, k)), OrNothing(ArgAt(args, k + 1)))
  }

  /** `_processAjaxArguments`, which shifts the arguments off one by one. */
  method ProcessAjaxArguments(args: seq<Value>) returns (r: AjaxArgs)
    ensures r.verb == ArgAt(args, 0) && r.url == ArgAt(args, 1)
    ensures var hasData := |args| > 2 && !IsFunction(args[2]);
            var k := if hasData then 3 else 2;
            r.data == (if hasData then args[2] else Null)
            && r.success == OrNothing(ArgAt(args, k))
            && r.failure == OrNothing(ArgAt(args, k + 1))
    ensures r == Sorted(args)
  {
    var rest := args;
    var verb, url, data, success, failure;
    verb, rest := Shift(rest);
    url, rest := Shift(rest);
    if |rest| > 0 && !IsFunction(rest[0]) {
      data, rest := Shift(rest);
    } else {
      data := Null;
    }
    if |rest| > 0 {
      success, rest := Shift(rest);
    } else {
      success := Null;
    }
    if |rest| > 0 {
      failure, rest := Shift(rest);
    } else {
      failure := Null;
    }
    r := AjaxArgs(verb, url, data, OrNothing(success), OrNothing(failure));
  }

  // ------------------------------------------------------ the provider

  /**
   * The provider's `errorHandler(req)`: status 200 is an empty successful
   * answer (`success(null)`), status 0 a lost connection, any other
   * status an `HttpException` with the parsed body, or with status -1 when
   * the body does not parse.
   */
  function ErrorHandler(req: Xhr): (s: Signal)
    ensures req.status == Num(200) <==> s == ToSuccess([Null])
    ensures req.status == Num(0) ==> s == ToFailure(ConnectionLost)
    ensures req.status != Num(200) && req.status != Num(0) && req.parsed.Some? ==>
              s == ToFailure(Http(HttpException.Create(req.status, req.parsed.value, req.obj, Undefined)))
    ensures req.status != Num(200) && req.status != Num(0) && req.parsed.None? ==>
              s == ToFailure(Http(HttpException.Create(Num(-1), Obj([]), req.obj, Undefined)))
  {
    if req.status == Num(200) then ToSuccess([Null])
    else if req.status == Num(0) then ToFailure(ConnectionLost)
    else match req.parsed
      case Some(error) => ToFailure(Http(HttpException.Create(req.status, error, req.obj, Undefined)))
      case None => ToFailure(Http(HttpException.Create(Num(-1), Obj([]), req.obj, Undefined)))
  }

  /**
   * The provider's `successHandler(data, status, xhr)`: jQuery's success
   * with status 0 is in truth a lost connection; otherwise the caller's
   * success gets all three arguments.
   */
  function SuccessHandler(data: Value, textStatus: Value, xhr: Xhr): (s: Signal)
    ensures xhr.status == Num(0) ==> s == ToFailure(ConnectionLost)
    ensures xhr.status != Num(0) ==> s == ToSuccess([data, textStatus, xhr.obj])
  {
    if xhr.status == Num(0) then ErrorHandler(xhr) else ToSuccess([data, textStatus, xhr.obj])
  }

  /** The body the provider sends: `null` and `"null"` become empty, other non-GET data is serialised to JSON. */
  function PrepareBody(data: Value, isGetRequest: bool): (b: Body)
    ensures (data == Null || data == Str("null")) <==> b == Text("")
    ensures !(data == Null || data == Str("null")) ==> (if isGetRequest then b == Query(data) else b == Json(data))
  {
    if data == Null || data == Str("null") then Text("")
    else if !isGetRequest then Json(data)
    else Query(data)
  }

  // ------------------------------------------------------ ajax

  /** `wrapFailureCallback(cb)` called with `args`: connection-lost events first, then always `cb`. */
  function WrappedFailure(cb: Callback, args: seq<Arg>): (es: seq<Event>)
    ensures |es| > 0 && es[|es| - 1] == Invoke(cb, args)
    ensures |args| > 0 && args[0] == ConnectionLost ==>
              es == [Trigger("web.connection_lost", args), Trigger("web.connection.failed", args), Invoke(cb, args)]
    ensures !(|args| > 0 && args[0] == ConnectionLost) ==> es == [Invoke(cb, args)]
  {
    if |args| > 0 && args[0] == ConnectionLost then
      [Trigger("web.connection_lost", args), Trigger("web.connection.failed", args), Invoke(cb, args)]
    else [Invoke(cb, args)]
  }

  /** `arguments[0]`: the first argument, `undefined` when there is none. */
  function First(args: seq<Arg>): Arg
  {
    if args != [] then args[0] else Val(Undefined)
  }

  /** The arguments of a call, as values. */
  function Vals(vs: seq<Value>): (r: seq<Arg>)
    ensures |r| == |vs| && forall i | 0 <= i < |vs| :: r[i] == Val(vs[i])
  {
    if vs == [] then [] else [Val(vs[0])] + Vals(vs[1..])
  }

  /** `ajax`'s success wrapper: fulfil the promise with `{data, args}`, then call the caller's success. */
  function OnSuccess(a: AjaxArgs, args: seq<Arg>): (es: seq<Event>)
    ensures |es| == 2 && es[0].Settle? && es[0].fulfilled && es[1] == Invoke(a.success, args)
  {
    [Settle(true, First(args), args), Invoke(a.success, args)]
  }

  /** `ajax`'s failure wrapper: fail the promise with `{error, args}`, then the wrapped failure callback. */
  function OnFailure(a: AjaxArgs, args: seq<Arg>): (es: seq<Event>)
    ensures |es| >= 2 && es[0].Settle? && !es[0].fulfilled && es[|es| - 1] == Invoke(a.failure, args)
  {
    [Settle(false, First(args), args)] + WrappedFailure(a.failure, args)
  }

  /**
   * The whole of `ajax(...)` once the exchange is over: sort the
   * arguments, then route the provider's signal (or the exception the
   * provider threw) through the wrappers.
   */
  method Ajax(args: seq<Value>, outcome: Result<Signal, Arg>) returns (events: seq<Event>)
    ensures |events| >= 2 && events[0].Settle?
    ensures events[0].fulfilled <==> outcome.Success? && outcome.value.ToSuccess?
    ensures outcome.Success? && outcome.value.ToSuccess? ==>
              var xs := Vals(outcome.value.args);
              events == [Settle(true, First(xs), xs), Invoke(Sorted(args).success, xs)]
    ensures var e := if outcome.Success? && outcome.value.ToFailure? then Some(outcome.value.error)
                     else if outcome.Failure? then Some(outcome.error) else None;
            e.Some? ==> events == [Settle(false, e.value, [e.value])] + WrappedFailure(Sorted(args).failure, [e.value])
  {
    var a := ProcessAjaxArguments(args);
    match outcome
    case Success(ToSuccess(vs)) =>
      events := OnSuccess(a, Vals(vs));
    case Success(ToFailure(error)) =>
      events := OnFailure(a, [error]);
    case Failure(thrown) =>
      events := OnFailure(a, [thrown]);
  }

  /** A lost connection reaches the caller's failure callback only after the promise failed and both events fired. */
  lemma LostConnectionOrder(a: AjaxArgs)
    ensures OnFailure(a, [ConnectionLost]) ==
              [Settle(false, ConnectionLost, [ConnectionLost]),
               Trigger("web.connection_lost", [ConnectionLost]),
               Trigger("web.connection.failed", [ConnectionLost]),
               Invoke(a.failure, [ConnectionLost])]
  {
  }
}
