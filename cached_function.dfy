/**
 * `neo4j.cachedFunction(func, callbackArg, timeout)`: a tiny cache around a
 * function that answers through a callback. The first caller's call goes
 * through to `func` with its callback replaced by an answer function; callers
 * arriving before the answer wait; the answer is handed to every waiting
 * callback and kept for later callers until the (optional) timeout expires.
 *
 * The closure variables of `wrap` are the fields of `CachedFunction`. The
 * wrapped function is known only by the argument lists it receives
 * (`forwarded`); its answer, whenever it comes, is the call `Answer`.
 * The expiry timer is the explicit event `Expire`.
 */
module CachedFunction {
  import opened JsValue

  /** One callback invocation: `callback.apply(context, result)`. */
  datatype Delivery = Delivery(callback: Value, context: Value, result: seq<Value>)

  /** `arguments[callbackArg]`: `undefined` past the end of the argument list. */
  function CallbackAt(args: seq<Value>, callbackArg: nat): (cb: Value)
    ensures callbackArg >= |args| ==> cb == Undefined
    ensures callbackArg < |args| ==> cb == args[callbackArg]
  {
    if callbackArg < |args| then args[callbackArg] else Undefined
  }

  /**
   * The arguments `func` receives after `arguments[callbackArg] = answer`.
   * Assigning past the end of an `arguments` object does not change its
   * length, so then `func` sees the arguments unchanged.
   */
  function Forward(args: seq<Value>, callbackArg: nat, answer: Value): (r: seq<Value>)
    ensures |r| == |args|
    ensures forall i | 0 <= i < |args| && i != callbackArg :: r[i] == args[i]
    ensures callbackArg < |args| ==> r[callbackArg] == answer
  {
    if callbackArg < |args| then args[callbackArg := answer] else args
  }

  /** The deliveries of the drain loop: every waiting callback, in order, with the same answer. */
  function Deliveries(waiting: seq<Value>, context: Value, result: seq<Value>): (ds: seq<Delivery>)
    ensures |ds| == |waiting|
    ensures forall i | 0 <= i < |ds| :: ds[i] == Delivery(waiting[i], context, result)
  {
    if waiting == [] then []
    else Deliveries(waiting[..|waiting| - 1], context, result) + [Delivery(waiting[|waiting| - 1], context, result)]
  }

  class CachedFunction {
    const callbackArg: nat
    /** `timeout || false`: the cache expires only when the timeout is truthy (non-zero). */
    const timeout: int
    /** The answer function handed to `func` in place of the first caller's callback. */
    const answer: Value

    var isCached: bool
    var cachedResult: seq<Value>
    var cachedResultContext: Value
    var waitingList: seq<Value>
    /** Argument lists `func` was called with, oldest first. */
    var forwarded: seq<seq<Value>>
    /** Every callback invocation made by the cache, oldest first. */
    var delivered: seq<Delivery>
    /** Expiry timers started and not yet fired. */
    var timers: nat

    /**
     * While a result is cached nobody waits, and somebody waits only while
     * a call of `func` is outstanding.
     */
    ghost predicate Valid()
      reads this
    {
      (isCached ==> waitingList == [])
      && (waitingList != [] ==> forwarded != [])
      && (timeout == 0 ==> timers == 0)
    }

    constructor(callbackArg: nat, timeout: int, answer: Value)
      ensures Valid()
      ensures this.callbackArg == callbackArg && this.timeout == timeout && this.answer == answer
      ensures !isCached && cachedResult == [] && cachedResultContext == Null
      ensures waitingList == [] && forwarded == [] && delivered == [] && timers == 0
    {
      this.callbackArg := callbackArg;
      this.timeout := timeout;
      this.answer := answer;
      isCached := false;
      cachedResult := [];
      cachedResultContext := Null;
      waitingList := [];
      forwarded := [];
      delivered := [];
      timers := 0;
    }

    /**
     * `wrap(...)`: answer at once from the cache, or wait; only the caller
     * that makes the waiting list one long calls `func`.
     */
    method Call(args: seq<Value>)
      requires Valid()
      modifies this
      ensures Valid()
      ensures isCached == old(isCached) && cachedResult == old(cachedResult)
      ensures cachedResultContext == old(cachedResultContext) && timers == old(timers)
      ensures old(isCached) ==>
                delivered == old(delivered) + [Delivery(CallbackAt(args, callbackArg), cachedResultContext, cachedResult)]
                && waitingList == old(waitingList) && forwarded == old(forwarded)
      ensures !old(isCached) ==>
                delivered == old(delivered)
                && waitingList == old(waitingList) + [CallbackAt(args, callbackArg)]
                && forwarded == old(forwarded) + (if old(waitingList) == [] then [Forward(args, callbackArg, answer)] else [])
    {
      var callback := CallbackAt(args, callbackArg);
      if isCached {
        delivered := delivered + [Delivery(callback, cachedResultContext, cachedResult)];
      } else {
        waitingList := waitingList + [callback];
        if |waitingList| == 1 {
          forwarded := forwarded + [Forward(args, callbackArg, answer)];
        }
      }
    }

    /**
     * The answer function called by `func` with `this` bound to `context`:
     * cache the answer, hand it to every waiting callback in order, empty
     * the waiting list and, with a timeout, start the expiry timer.
     */
    method Answer(context: Value, result: seq<Value>)
      requires Valid()
      modifies this
      ensures Valid()
      ensures isCached && cachedResult == result && cachedResultContext == context
      ensures waitingList == [] && forwarded == old(forwarded)
      ensures delivered == old(delivered) + Deliveries(old(waitingList), context, result)
      ensures timers == old(timers) + (if timeout != 0 then 1 else 0)
    {
      cachedResultContext := context;
      cachedResult := result;
      isCached := true;
      var i := 0;
      while i < |waitingList|
        invariant 0 <= i <= |waitingList| && waitingList == old(waitingList)
        invariant delivered == old(delivered) + Deliveries(waitingList[..i], context, result)
        invariant isCached && cachedResult == result && cachedResultContext == context
        invariant forwarded == old(forwarded) && timers == old(timers)
      {
        assert waitingList[..i + 1][..i] == waitingList[..i];
        delivered := delivered + [Delivery(waitingList[i], cachedResultContext, cachedResult)];
        i := i + 1;
      }
      assert waitingList[..i] == waitingList;
      waitingList := [];
      if timeout != 0 {
        timers := timers + 1;
      }
    }

    /** The expiry timer fires: only `isCached` is reset; the stale result stays. */
    method Expire()
      requires Valid() && timers > 0
      modifies this
      ensures Valid()
      ensures !isCached && timers == old(timers) - 1
      ensures cachedResult == old(cachedResult) && cachedResultContext == old(cachedResultContext)
      ensures waitingList == old(waitingList) && forwarded == old(forwarded) && delivered == old(delivered)
    {
      isCached := false;
      timers := timers - 1;
    }
  }

  // ------------------------------------------------------ scenarios

  /**
   * Two callers before the answer and one after it: `func` runs once, and
   * all three callbacks get the same answer, the waiting ones in arrival
   * order.
   */
  method ThreeCallers(a: Value, b: Value, c: Value, ctx: Value, result: seq<Value>)
    returns (calls: nat, got: seq<Delivery>)
    ensures calls == 1
    ensures got == [Delivery(a, ctx, result), Delivery(b, ctx, result), Delivery(c, ctx, result)]
  {
    var f := new CachedFunction(0, 0, Fn(0));
    f.Call([a]);
    f.Call([b]);
    f.Answer(ctx, result);
    f.Call([c]);
    calls := |f.forwarded|;
    got := f.delivered;
  }

  /** After the timeout the next caller calls `func` again, with its own callback replaced. */
  method CallAfterExpiry(a: Value, b: Value, ctx: Value, result: seq<Value>) returns (calls: seq<seq<Value>>)
    ensures calls == [[Fn(0)], [Fn(0)]]
  {
    var f := new CachedFunction(0, 2000, Fn(0));
    f.Call([a]);
    f.Answer(ctx, result);
    f.Expire();
    f.Call([b]);
    assert Forward([a], 0, Fn(0)) == [Fn(0)] && Forward([b], 0, Fn(0)) == [Fn(0)];
    calls := f.forwarded;
  }
}
