/**
 * The client's promise (`neo4j.Promise`): a result that arrives later,
 * with handlers that run when it does.
 *
 * Every promise of a program lives in one `PromiseHeap` and is named by its
 * index there. A handler is the closure JavaScript would store, written as
 * data (`Action`), so that completing a promise runs the same synchronous
 * cascade the source runs: handlers are called in registration order,
 * each of them may complete or fail further promises, and those run their
 * own handlers before the next handler of the first promise.
 *
 * Two promises the source creates and then drops (the promise returned by
 * the `then` inside `chain`, and the one returned by the `then` inside a
 * chained `fulfill`) are marked `detached`: no code can reach them, so they
 * never receive handlers.
 */
module Promises {
  import opened Wrappers
  import opened JsValue

  datatype Outcome = Fulfilled(value: Value) | Failed(error: Value)
  {
    /** The argument a handler receives. */
    function Payload(): Value
    {
      if Fulfilled? then value else error
    }
  }

  /** A callback given to `then`, seen from the promise `then` returns. */
  datatype Reaction =
    | Absent                                 // no callback: pass the outcome through
    | Callback(tag: nat, captured: Value)    // code of the program or of its caller
    | Fetch(urlField: string)                // `web.get(arg[urlField], fulfill, fail)`
    | SettleWith(other: nat, result: Outcome) // `other._fulfill(result)`, used by a chained fulfil
    | FailWithArg(other: nat)                // `other.fail(arg)`, used by `chain`

  /** The closures a handler record holds. */
  datatype Action =
    | NoOp                                   // the default `function() {}`
    | Notify(tag: nat)                       // a caller's function given to `addHandlers`
    | ThenFulfilled(target: nat, reaction: Reaction)   // `then`'s fulfilled wrapper
    | ThenFailed(target: nat, reaction: Reaction)      // `then`'s failed wrapper
    | JoinFail(target: nat)                  // `join` hooking the joined promise's `fail`
    | JoinNext(target: nat, rest: seq<nat>, acc: seq<Value>)  // `join`'s `waitForNextPromise` step

  datatype Handler = Handler(onFulfilled: Action, onFailed: Action)

  /** One promise object: `_complete`/`_fulfilled`/results folded into `outcome`. */
  datatype Cell = Cell(outcome: Option<Outcome>, handlers: seq<Handler>, chained: Option<nat>, detached: bool)

  /** A handler invocation: `slot` is the handler's index in `_handlers`, or -1 for one called on registration. */
  datatype Dispatch = Dispatch(promise: nat, slot: int, outcome: Outcome)

  /** A call of caller-supplied code. */
  datatype Call = Call(tag: nat, arg: Value)

  /** A GET request whose answer completes promise `replyTo`. */
  datatype FetchRequest = FetchRequest(url: string, replyTo: nat)

  /** An argument of `wrap`: a promise, or any other value. */
  datatype Thenable = IsPromise(p: nat) | Plain(v: Value)

  function Fresh(): Cell
  {
    Cell(None, [], None, false)
  }

  function DetachedCell(): Cell
  {
    Cell(None, [], None, true)
  }

  function Slot(h: Handler, o: Outcome): Action
  {
    if o.Fulfilled? then h.onFulfilled else h.onFailed
  }

  /** The handler a chained `fulfill` adds to the chained promise. */
  function ChainedFulfil(t2: nat, p: nat, v: Value): Handler
  {
    Handler(ThenFulfilled(t2, SettleWith(p, Fulfilled(v))), ThenFailed(t2, Absent))
  }

  // ---------------------------------------------------------------- ranks

  function ReactionRank(r: Reaction): nat
  {
    if r.Callback? then 5 else 0
  }

  function ActionRank(a: Action): nat
  {
    match a
    case ThenFulfilled(_, r) => if r.Absent? then 5 else ReactionRank(r) + 1
    case ThenFailed(_, r) => if r.Absent? then 0 else ReactionRank(r) + 1
    case JoinNext(_, rest, _) => 7 + 4 * |rest|
    case _ => 0
  }

  function HandlerRank(h: Handler): nat
  {
    var a := ActionRank(h.onFulfilled);
    var b := ActionRank(h.onFailed);
    if a < b then b else a
  }

  // ------------------------------------------------------ heap invariants

  predicate Live(c: Cell)
  {
    c.outcome.None? && !c.detached
  }

  /** Number of reachable promises still pending: it bounds every cascade. */
  function Pending(cs: seq<Cell>): nat
  {
    if cs == [] then 0 else Pending(cs[..|cs| - 1]) + (if Live(cs[|cs| - 1]) then 1 else 0)
  }

  lemma {:induction false} PendingUpdate(cs: seq<Cell>, i: nat, c: Cell)
    requires i < |cs|
    ensures Pending(cs[i := c]) + (if Live(cs[i]) then 1 else 0) == Pending(cs) + (if Live(c) then 1 else 0)
    decreases |cs|
  {
    var n := |cs| - 1;
    if i == n {
      assert cs[i := c][..n] == cs[..n];
    } else {
      PendingUpdate(cs[..n], i, c);
      assert cs[i := c][..n] == cs[..n][i := c];
    }
  }

  lemma PendingAppend(cs: seq<Cell>, c: Cell)
    ensures Pending(cs + [c]) == Pending(cs) + (if Live(c) then 1 else 0)
  {
    assert (cs + [c])[..|cs|] == cs;
  }

  predicate Attachable(x: nat, cs: seq<Cell>)
  {
    x < |cs| && !cs[x].detached
  }

  predicate ReactionOk(r: Reaction, cs: seq<Cell>)
  {
    match r
    case SettleWith(x, _) => x < |cs|
    case FailWithArg(x) => x < |cs|
    case _ => true
  }

  predicate ActionOk(a: Action, cs: seq<Cell>)
  {
    match a
    case ThenFulfilled(t, r) => t < |cs| && ReactionOk(r, cs)
    case ThenFailed(t, r) => t < |cs| && ReactionOk(r, cs)
    case JoinFail(t) => t < |cs|
    case JoinNext(t, rest, _) => t < |cs| && forall x | x in rest :: Attachable(x, cs)
    case _ => true
  }

  predicate HandlerOk(h: Handler, cs: seq<Cell>)
  {
    ActionOk(h.onFulfilled, cs) && ActionOk(h.onFailed, cs)
  }

  predicate CellOk(c: Cell, cs: seq<Cell>)
  {
    (c.detached ==> c.handlers == [] && c.chained.None?)
    && (c.chained.Some? ==> Attachable(c.chained.value, cs))
    && forall h | h in c.handlers :: HandlerOk(h, cs)
  }

  predicate CellsOk(cs: seq<Cell>)
  {
    forall i | 0 <= i < |cs| :: CellOk(cs[i], cs)
  }

  /** `c1` keeps every promise of `c0` and whether it is reachable. */
  predicate Extends(c0: seq<Cell>, c1: seq<Cell>)
  {
    |c0| <= |c1| && forall i | 0 <= i < |c0| :: c1[i].detached == c0[i].detached
  }

  lemma ActionOkMono(a: Action, c0: seq<Cell>, c1: seq<Cell>)
    requires ActionOk(a, c0) && Extends(c0, c1)
    ensures ActionOk(a, c1)
  {
    if a.JoinNext? {
      forall x | x in a.rest ensures Attachable(x, c1) {
        assert Attachable(x, c0);
      }
    }
  }

  lemma CellOkMono(c: Cell, c0: seq<Cell>, c1: seq<Cell>)
    requires CellOk(c, c0) && Extends(c0, c1)
    ensures CellOk(c, c1)
  {
    forall h | h in c.handlers ensures HandlerOk(h, c1) {
      ActionOkMono(h.onFulfilled, c0, c1);
      ActionOkMono(h.onFailed, c0, c1);
    }
  }

  lemma CellsOkUpdate(cs: seq<Cell>, p: nat, c: Cell)
    requires CellsOk(cs) && p < |cs| && c.detached == cs[p].detached && CellOk(c, cs)
    ensures CellsOk(cs[p := c])
  {
    var cs' := cs[p := c];
    assert Extends(cs, cs');
    forall i | 0 <= i < |cs'| ensures CellOk(cs'[i], cs') {
      CellOkMono(if i == p then c else cs[i], cs, cs');
    }
  }

  lemma CellsOkAppend(cs: seq<Cell>, c: Cell)
    requires CellsOk(cs) && CellOk(c, cs + [c])
    ensures CellsOk(cs + [c])
  {
    var cs' := cs + [c];
    assert Extends(cs, cs');
    forall i | 0 <= i < |cs| ensures CellOk(cs'[i], cs') {
      CellOkMono(cs[i], cs, cs');
    }
  }

  /**
   * What a cascade may do to the promises that existed before it: it
   * never changes a completed promise, never changes a chain, only adds
   * detached promises and never adds a pending reachable one.
   */
  predicate Evolves(c0: seq<Cell>, c1: seq<Cell>)
  {
    Extends(c0, c1)
    && (forall i | 0 <= i < |c0| :: c1[i].chained == c0[i].chained)
    && (forall i | 0 <= i < |c0| && c0[i].outcome.Some? :: c1[i] == c0[i])
    && (forall i | |c0| <= i < |c1| :: c1[i].detached)
    && Pending(c1) <= Pending(c0)
  }

  /** Every stored handler invoked in `d1` beyond `d0` belongs to a promise reachable and pending in `c0`. */
  predicate StoredOnlyLive(c0: seq<Cell>, d0: seq<Dispatch>, d1: seq<Dispatch>)
    requires |d0| <= |d1|
  {
    forall k | |d0| <= k < |d1| && d1[k].slot >= 0 :: d1[k].promise < |c0| && Live(c0[d1[k].promise])
  }

  predicate Step(c0: seq<Cell>, c1: seq<Cell>, d0: seq<Dispatch>, d1: seq<Dispatch>,
                 k0: seq<Call>, k1: seq<Call>, f0: seq<FetchRequest>, f1: seq<FetchRequest>)
  {
    Evolves(c0, c1) && d0 <= d1 && k0 <= k1 && f0 <= f1 && StoredOnlyLive(c0, d0, d1)
  }

  lemma StepTrans(c0: seq<Cell>, c1: seq<Cell>, c2: seq<Cell>, d0: seq<Dispatch>, d1: seq<Dispatch>, d2: seq<Dispatch>,
                  k0: seq<Call>, k1: seq<Call>, k2: seq<Call>, f0: seq<FetchRequest>, f1: seq<FetchRequest>, f2: seq<FetchRequest>)
    requires Step(c0, c1, d0, d1, k0, k1, f0, f1) && Step(c1, c2, d1, d2, k1, k2, f1, f2)
    ensures Step(c0, c2, d0, d2, k0, k2, f0, f2)
  {
    forall k | |d0| <= k < |d2| && d2[k].slot >= 0
      ensures d2[k].promise < |c0| && Live(c0[d2[k].promise])
    {
      if k < |d1| {
        assert d2[k] == d1[k];
      } else {
        var x := d2[k].promise;
        assert x < |c1| && Live(c1[x]);
        assert x < |c0|;
      }
    }
  }

  lemma EvolvesTrans(c0: seq<Cell>, c1: seq<Cell>, c2: seq<Cell>)
    requires Evolves(c0, c1) && Evolves(c1, c2)
    ensures Evolves(c0, c2)
  {
  }

  lemma CallHandlersStep(c0: seq<Cell>, cb: seq<Cell>, cn: seq<Cell>, d0: seq<Dispatch>, db: seq<Dispatch>, dn: seq<Dispatch>,
                         p: nat, i: int, o: Outcome)
    requires Evolves(c0, cb) && Evolves(cb, cn) && d0 <= db
    requires forall k | |d0| <= k < |db| && db[k].slot >= 0 :: db[k].promise == p || (db[k].promise < |c0| && Live(c0[db[k].promise]))
    requires |db| < |dn| && dn[..|db| + 1] == db + [Dispatch(p, i, o)]
    requires StoredOnlyLive(cb, db + [Dispatch(p, i, o)], dn)
    ensures Evolves(c0, cn) && d0 <= dn
    ensures forall k | |d0| <= k < |dn| && dn[k].slot >= 0 :: dn[k].promise == p || (dn[k].promise < |c0| && Live(c0[dn[k].promise]))
  {
    EvolvesTrans(c0, cb, cn);
    assert db <= dn by {
      assert dn[..|db|] == (db + [Dispatch(p, i, o)])[..|db|];
    }
    forall k | |d0| <= k < |dn| && dn[k].slot >= 0
      ensures dn[k].promise == p || (dn[k].promise < |c0| && Live(c0[dn[k].promise]))
    {
      if k < |db| {
        assert dn[k] == db[k];
      } else if k == |db| {
        assert dn[k] == dn[..|db| + 1][k];
      } else {
        var x := dn[k].promise;
        assert x < |cb| && Live(cb[x]);
      }
    }
  }

  /** The loop invariant of `_callHandlers` after the first `i` handlers of `hs`. */
  predicate Progress(c0: seq<Cell>, d0: seq<Dispatch>, k0: seq<Call>, f0: seq<FetchRequest>,
                     c: seq<Cell>, d: seq<Dispatch>, k: seq<Call>, f: seq<FetchRequest>,
                     p: nat, hs: seq<Handler>, i: nat, o: Outcome, quiet: bool)
  {
    i <= |hs| && p < |c| && !Live(c[p])
    && Evolves(c0, c) && d0 <= d && k0 <= k && f0 <= f
    && (forall h | h in hs :: HandlerOk(h, c))
    && StoredFor(d[|d0|..], p) == Slots(i, o)
    && (forall j | |d0| <= j < |d| && d[j].slot >= 0 :: d[j].promise == p || (d[j].promise < |c0| && Live(c0[d[j].promise])))
    && (quiet ==> OnlyNotify(hs, o) && k == k0 + NotifyCalls(hs[..i], o) && c == c0 && f == f0)
  }

  lemma ProgressInit(c: seq<Cell>, d: seq<Dispatch>, k: seq<Call>, f: seq<FetchRequest>, p: nat, hs: seq<Handler>, o: Outcome)
    requires p < |c| && !Live(c[p]) && forall h | h in hs :: HandlerOk(h, c)
    ensures Progress(c, d, k, f, c, d, k, f, p, hs, 0, o, OnlyNotify(hs, o))
  {
    assert d[|d|..] == [];
    assert hs[..0] == [];
  }

  lemma ProgressStep(c0: seq<Cell>, d0: seq<Dispatch>, k0: seq<Call>, f0: seq<FetchRequest>,
                     cb: seq<Cell>, db: seq<Dispatch>, kb: seq<Call>, fb: seq<FetchRequest>,
                     cn: seq<Cell>, dn: seq<Dispatch>, kn: seq<Call>, fn: seq<FetchRequest>,
                     p: nat, hs: seq<Handler>, i: nat, o: Outcome, quiet: bool)
    requires i < |hs| && Progress(c0, d0, k0, f0, cb, db, kb, fb, p, hs, i, o, quiet)
    requires Evolves(cb, cn) && kb <= kn && fb <= fn
    requires |dn| > |db| && dn[..|db| + 1] == db + [Dispatch(p, i, o)]
    requires StoredOnlyLive(cb, db + [Dispatch(p, i, o)], dn)
    requires OnlyNotify([hs[i]], o) ==> cn == cb && fn == fb && kn == kb + NotifyCalls([hs[i]], o)
    ensures Progress(c0, d0, k0, f0, cn, dn, kn, fn, p, hs, i + 1, o, quiet)
  {
    StoredForStep(db, dn, |d0|, p, i, o, cb);
    CallHandlersStep(c0, cb, cn, d0, db, dn, p, i, o);
    forall h | h in hs ensures HandlerOk(h, cn) {
      ActionOkMono(h.onFulfilled, cb, cn);
      ActionOkMono(h.onFailed, cb, cn);
    }
    if quiet {
      assert hs[i] in hs;
      NotifyCallsSnoc(hs, i, o);
    }
  }

  /** What `fail`/`_fulfill` achieve once `_callHandlers` has called every stored handler. */
  lemma HandlersCalled(c0: seq<Cell>, c1: seq<Cell>, c: seq<Cell>, d0: seq<Dispatch>, d: seq<Dispatch>,
                       k0: seq<Call>, k: seq<Call>, f0: seq<FetchRequest>, f: seq<FetchRequest>,
                       p: nat, hs: seq<Handler>, o: Outcome)
    requires p < |c0| && Live(c0[p]) && c1 == c0[p := c0[p].(outcome := Some(o))] && Evolves(c0, c1)
    requires Progress(c1, d0, k0, f0, c, d, k, f, p, hs, |hs|, o, OnlyNotify(hs, o))
    ensures Step(c0, c, d0, d, k0, k, f0, f)
    ensures SettledAs(c, p, o)
    ensures StoredFor(d[|d0|..], p) == Slots(|hs|, o)
    ensures OnlyNotify(hs, o) ==> k == k0 + NotifyCalls(hs, o) && c == c1 && f == f0
  {
    assert hs[..|hs|] == hs;
    EvolvesTrans(c0, c1, c);
    forall j | |d0| <= j < |d| && d[j].slot >= 0
      ensures d[j].promise < |c0| && Live(c0[d[j].promise])
    {
      var x := d[j].promise;
      if x != p {
        assert x < |c1| && Live(c1[x]);
      }
    }
  }

  // ------------------------------------------------- dispatch bookkeeping

  /** The stored-handler invocations of promise `p` recorded in `ds`, in order. */
  function StoredFor(ds: seq<Dispatch>, p: nat): seq<(int, Outcome)>
  {
    if ds == [] then []
    else
      var d := ds[|ds| - 1];
      StoredFor(ds[..|ds| - 1], p) + (if d.promise == p && d.slot >= 0 then [(d.slot, d.outcome)] else [])
  }

  /** Handlers `0 .. n-1`, each given outcome `o`. */
  function Slots(n: nat, o: Outcome): seq<(int, Outcome)>
  {
    if n == 0 then [] else Slots(n - 1, o) + [(n - 1, o)]
  }

  lemma {:induction false} StoredForNone(a: seq<Dispatch>, b: seq<Dispatch>, p: nat)
    requires forall k | 0 <= k < |b| && b[k].slot >= 0 :: b[k].promise != p
    ensures StoredFor(a + b, p) == StoredFor(a, p)
    decreases |b|
  {
    if b != [] {
      var n := |b| - 1;
      assert (a + b)[..|a + b| - 1] == a + b[..n];
      StoredForNone(a, b[..n], p);
    } else {
      assert a + b == a;
    }
  }

  lemma StoredForStep(db: seq<Dispatch>, dn: seq<Dispatch>, start: nat, p: nat, i: nat, o: Outcome, cb: seq<Cell>)
    requires start <= |db| && |db| < |dn| && dn[..|db| + 1] == db + [Dispatch(p, i, o)]
    requires StoredFor(db[start..], p) == Slots(i, o)
    requires p < |cb| && !Live(cb[p])
    requires StoredOnlyLive(cb, db + [Dispatch(p, i, o)], dn)
    ensures StoredFor(dn[start..], p) == Slots(i + 1, o)
  {
    var dm := db + [Dispatch(p, i, o)];
    assert dm[start..] == db[start..] + [Dispatch(p, i, o)];
    assert StoredFor(dm[start..], p) == Slots(i + 1, o);
    assert dn[start..] == dm[start..] + dn[|dm|..];
    forall k | 0 <= k < |dn[|dm|..]| && dn[|dm|..][k].slot >= 0 ensures dn[|dm|..][k].promise != p {
      assert dn[|dm|..][k] == dn[|dm| + k];
    }
    StoredForNone(dm[start..], dn[|dm|..], p);
  }

  /** Caller-visible calls made by handlers that only notify. */
  function NotifyCalls(hs: seq<Handler>, o: Outcome): seq<Call>
  {
    if hs == [] then []
    else
      var a := Slot(hs[|hs| - 1], o);
      NotifyCalls(hs[..|hs| - 1], o) + (if a.Notify? then [Call(a.tag, o.Payload())] else [])
  }

  lemma NotifyCallsSnoc(hs: seq<Handler>, i: nat, o: Outcome)
    requires i < |hs|
    ensures NotifyCalls(hs[..i + 1], o) == NotifyCalls(hs[..i], o) + NotifyCalls([hs[i]], o)
  {
    assert hs[..i + 1][..i] == hs[..i];
    assert [hs[i]][..0] == [];
  }

  predicate OnlyNotify(hs: seq<Handler>, o: Outcome)
  {
    forall h | h in hs :: Slot(h, o).NoOp? || Slot(h, o).Notify?
  }

  predicate AllFulfilled(cs: seq<Cell>, ps: seq<nat>)
  {
    forall x | x in ps :: x < |cs| && cs[x].outcome.Some? && cs[x].outcome.value.Fulfilled?
  }

  /** The values of fulfilled promises `ps`, in the order of `ps`. */
  function Values(cs: seq<Cell>, ps: seq<nat>): seq<Value>
    requires AllFulfilled(cs, ps)
  {
    if ps == [] then []
    else
      assert ps[0] in ps;
      [cs[ps[0]].outcome.value.value] + Values(cs, ps[1..])
  }

  lemma {:induction false} ValuesStable(c0: seq<Cell>, c1: seq<Cell>, ps: seq<nat>)
    requires AllFulfilled(c0, ps) && Evolves(c0, c1)
    ensures AllFulfilled(c1, ps) && Values(c1, ps) == Values(c0, ps)
  {
    if ps != [] {
      ValuesStable(c0, c1, ps[1..]);
    }
  }

  lemma {:induction false} ValuesSame(c0: seq<Cell>, c1: seq<Cell>, ps: seq<nat>)
    requires AllFulfilled(c0, ps)
    requires forall x | x in ps :: x < |c1| && c1[x].outcome == c0[x].outcome
    ensures AllFulfilled(c1, ps) && Values(c1, ps) == Values(c0, ps)
  {
    if ps != [] {
      assert ps[0] in ps;
      assert forall x | x in ps[1..] :: x in ps;
      ValuesSame(c0, c1, ps[1..]);
    }
  }

  /** The error of the first failed promise among `ps`, if any. */
  function FirstFailed(cs: seq<Cell>, ps: seq<nat>): Option<Value>
    requires forall x | x in ps :: x < |cs|
  {
    if ps == [] then None
    else
      assert forall i | 0 <= i < |ps| - 1 :: ps[..|ps| - 1][i] == ps[i] && ps[i] in ps;
      assert ps[|ps| - 1] in ps;
      var f := FirstFailed(cs, ps[..|ps| - 1]);
      var o := cs[ps[|ps| - 1]].outcome;
      if f.Some? then f else if o.Some? && o.value.Failed? then Some(o.value.error) else None
  }

  lemma {:induction false} AllFulfilledNoFailure(cs: seq<Cell>, ps: seq<nat>)
    requires AllFulfilled(cs, ps)
    ensures FirstFailed(cs, ps).None?
  {
    if ps != [] {
      assert forall x | x in ps[..|ps| - 1] :: x in ps;
      assert ps[|ps| - 1] in ps;
      AllFulfilledNoFailure(cs, ps[..|ps| - 1]);
    }
  }

  /** Adding promises after `c0` changes no `FirstFailed` over promises of `c0`. */
  lemma {:induction false} FirstFailedPrefix(c0: seq<Cell>, c1: seq<Cell>, ps: seq<nat>)
    requires forall x | x in ps :: x < |c0| && x < |c1| && c1[x].outcome == c0[x].outcome
    ensures FirstFailed(c0, ps) == FirstFailed(c1, ps)
  {
    if ps != [] {
      assert forall x | x in ps[..|ps| - 1] :: x in ps;
      assert ps[|ps| - 1] in ps;
      FirstFailedPrefix(c0, c1, ps[..|ps| - 1]);
    }
  }

  predicate AllPending(cs: seq<Cell>, ps: seq<nat>)
  {
    forall k | 0 <= k < |ps| :: ps[k] < |cs| && cs[ps[k]].outcome.None?
  }

  /** `cs` with `addFailedHandler(fail)` of the joined promise `j` stored on each of `ps`, in order. */
  function Hooks(cs: seq<Cell>, ps: seq<nat>, j: nat): (r: seq<Cell>)
    requires forall k | 0 <= k < |ps| :: ps[k] < |cs|
    ensures |r| == |cs|
  {
    if ps == [] then cs
    else
      var c := Hooks(cs, ps[..|ps| - 1], j);
      var x := ps[|ps| - 1];
      c[x := c[x].(handlers := c[x].handlers + [Handler(NoOp, JoinFail(j))])]
  }

  /** The invariant of `join`'s loop after hooking `fail` into the first `i` promises. */
  predicate Hooked(c0: seq<Cell>, cs: seq<Cell>, ps: seq<nat>, i: nat, j: nat)
  {
    i <= |ps| && j < |c0| && Evolves(c0, cs)
    && (forall x | x in ps :: x < j && Attachable(x, cs) && cs[x].outcome == c0[x].outcome)
    && (forall x | x in ps[..i] :: x in ps)
    && (FirstFailed(c0, ps[..i]).None? ==> cs[j] == Fresh())
    && (FirstFailed(c0, ps[..i]).Some? ==>
          cs[j].handlers == [] && SettledAs(cs, j, Failed(FirstFailed(c0, ps[..i]).value)))
    && (AllPending(c0, ps) ==> cs == Hooks(c0, ps[..i], j))
  }

  lemma HookStep(c0: seq<Cell>, cb: seq<Cell>, cn: seq<Cell>, ps: seq<nat>, i: nat, j: nat)
    requires i < |ps| && Hooked(c0, cb, ps, i, j) && Evolves(cb, cn)
    requires cb[ps[i]].outcome.None? ==>
               cn == cb[ps[i] := cb[ps[i]].(handlers := cb[ps[i]].handlers + [Handler(NoOp, JoinFail(j))])]
    requires cb[ps[i]].outcome.Some? && cb[ps[i]].outcome.value.Fulfilled? ==> cn == cb
    requires cb[ps[i]].outcome.Some? && cb[ps[i]].outcome.value.Failed? ==>
               SettleEffect(cb, cn, j, Failed(cb[ps[i]].outcome.value.error))
    ensures Hooked(c0, cn, ps, i + 1, j)
  {
    assert ps[i] in ps;
    assert ps[..i + 1][..i] == ps[..i];
    assert forall x | x in ps[..i + 1] :: x in ps;
    assert ps[..i + 1][i] == ps[i];
    EvolvesTrans(c0, cb, cn);
    forall x | x in ps
      ensures Attachable(x, cn) && cn[x].outcome == c0[x].outcome
    {
    }
  }

  predicate Unsettled(cs: seq<Cell>, t: nat)
  {
    t < |cs| && cs[t].outcome.None?
  }

  predicate Open(cs: seq<Cell>, t: nat)
  {
    Unsettled(cs, t) && cs[t].chained.None?
  }

  predicate FulfilledIn(cs: seq<Cell>, q: nat)
  {
    q < |cs| && cs[q].outcome.Some? && cs[q].outcome.value.Fulfilled?
  }

  predicate SettledAs(cs: seq<Cell>, t: nat, o: Outcome)
  {
    t < |cs| && cs[t].outcome == Some(o)
  }

  /** What completing `t` with `o` does, seen from the promises. */
  predicate SettleEffect(c0: seq<Cell>, c1: seq<Cell>, t: nat, o: Outcome)
  {
    t < |c0|
    && (c0[t].outcome.Some? ==> c1 == c0)
    && (c0[t].outcome.None? ==> SettledAs(c1, t, o))
    && (c0[t].outcome.None? && c0[t].handlers == [] ==> c1 == c0[t := c0[t].(outcome := Some(o))])
  }

  /** Two heaps agree on every reachable promise of `c0`. */
  predicate SameReachable(c0: seq<Cell>, c: seq<Cell>)
  {
    |c0| <= |c| && forall x | 0 <= x < |c0| && !c0[x].detached :: c[x] == c0[x]
  }

  /**
   * A closure that changes no reachable promise: the no-op, a caller's
   * notification, a GET that only starts, or `then`'s pass-through into a
   * promise nobody holds.
   */
  predicate Quiet(a: Action, cs: seq<Cell>)
  {
    a.NoOp? || a.Notify?
    || ((a.ThenFulfilled? || a.ThenFailed?) && a.reaction.Fetch?)
    || ((a.ThenFulfilled? || a.ThenFailed?) && a.reaction.Absent? && a.target < |cs| && cs[a.target].detached)
  }

  predicate QuietUpTo(hs: seq<Handler>, n: nat, o: Outcome, cs: seq<Cell>)
    requires n <= |hs|
  {
    forall m | 0 <= m < n :: Quiet(Slot(hs[m], o), cs)
  }

  /** What a callback given to `then` has brought about in `c`, for the promise `t` it controls. */
  ghost predicate ReactionAchieved(program: (nat, Value, Value) -> Option<Outcome>, t: nat, r: Reaction, arg: Value,
                                   pass: Outcome, c0: seq<Cell>, c: seq<Cell>)
  {
    match r
    case Absent =>
      Attachable(t, c0) && (if pass.Fulfilled? then Open(c0, t) else Unsettled(c0, t)) ==> SettledAs(c, t, pass)
    case Callback(tag, cap) =>
      (match program(tag, cap, arg)
       case Some(Fulfilled(w)) => Attachable(t, c0) && Open(c0, t) ==> SettledAs(c, t, Fulfilled(w))
       case Some(Failed(e)) => Attachable(t, c0) && Unsettled(c0, t) ==> SettledAs(c, t, Failed(e))
       case None => true)
    case Fetch(_) => true
    case SettleWith(x, res) => Attachable(x, c0) && Unsettled(c0, x) ==> SettledAs(c, x, res)
    case FailWithArg(x) => Attachable(x, c0) && Unsettled(c0, x) ==> SettledAs(c, x, Failed(arg))
  }

  /**
   * What the closure `a`, run with `arg` on the heap `c0`, has brought
   * about in the later heap `c`: the reachable promise it settles is
   * settled as the closure says. Once true it stays true, since a
   * completed promise never changes.
   */
  ghost predicate Achieved(program: (nat, Value, Value) -> Option<Outcome>, a: Action, arg: Value, c0: seq<Cell>, c: seq<Cell>)
  {
    match a
    case ThenFulfilled(t, r) => ReactionAchieved(program, t, r, arg, Fulfilled(arg), c0, c)
    case ThenFailed(t, r) => ReactionAchieved(program, t, r, arg, Failed(arg), c0, c)
    case JoinFail(t) => Attachable(t, c0) && Unsettled(c0, t) ==> SettledAs(c, t, Failed(arg))
    case JoinNext(t, rest, acc) =>
      Attachable(t, c0) && Open(c0, t) && AllFulfilled(c0, rest) ==>
        SettledAs(c, t, Fulfilled(Arr(acc + [arg] + Values(c0, rest))))
    case _ => true
  }

  /**
   * After `_callHandlers` has called the first `i` handlers of `hs` with
   * `o`, starting from `c0`: as long as every handler called so far was
   * quiet, no reachable promise has changed, and every handler called
   * while that held has brought about its effect.
   */
  ghost predicate Reached(program: (nat, Value, Value) -> Option<Outcome>, c0: seq<Cell>, c: seq<Cell>,
                          hs: seq<Handler>, i: nat, o: Outcome)
  {
    i <= |hs|
    && (forall h | h in hs :: HandlerOk(h, c0))
    && (QuietUpTo(hs, i, o, c0) ==> SameReachable(c0, c))
    && forall j | 0 <= j < i && QuietUpTo(hs, j, o, c0) :: Achieved(program, Slot(hs[j], o), o.Payload(), c0, c)
  }

  lemma AchievedMono(program: (nat, Value, Value) -> Option<Outcome>, a: Action, arg: Value,
                     c0: seq<Cell>, cb: seq<Cell>, cn: seq<Cell>)
    requires Achieved(program, a, arg, c0, cb) && Evolves(cb, cn)
    ensures Achieved(program, a, arg, c0, cn)
  {
  }

  /** An effect judged from a heap that agrees with `c0` on reachable promises is one judged from `c0`. */
  lemma AchievedShift(program: (nat, Value, Value) -> Option<Outcome>, a: Action, arg: Value,
                      c0: seq<Cell>, cb: seq<Cell>, c: seq<Cell>)
    requires SameReachable(c0, cb) && Extends(c0, cb) && ActionOk(a, c0)
    requires Achieved(program, a, arg, cb, c)
    ensures Achieved(program, a, arg, c0, c)
  {
    if a.JoinNext? && Attachable(a.target, c0) && Open(c0, a.target) && AllFulfilled(c0, a.rest) {
      ValuesSame(c0, cb, a.rest);
    }
  }

  /** A quiet closure keeps every reachable promise of `c0` as it was. */
  lemma QuietStep(a: Action, cb: seq<Cell>, cn: seq<Cell>, c0: seq<Cell>)
    requires Extends(c0, cb) && SameReachable(c0, cb) && Quiet(a, cb) && |cb| <= |cn|
    requires a.NoOp? || a.Notify? ==> cn == cb
    requires (a.ThenFulfilled? || a.ThenFailed?) && a.reaction.Fetch? ==> cn == cb
    requires (a.ThenFulfilled? || a.ThenFailed?) && a.reaction.Absent? ==> forall x | 0 <= x < |cb| && x != a.target :: cn[x] == cb[x]
    ensures SameReachable(c0, cn)
  {
    forall x | 0 <= x < |c0| && !c0[x].detached ensures cn[x] == c0[x] {
      assert cb[x] == c0[x];
    }
  }

  class PromiseHeap {
    var cells: seq<Cell>
    var dispatches: seq<Dispatch>
    var calls: seq<Call>
    var fetches: seq<FetchRequest>
    /** What code known by a tag decides, given what it captured and its argument. */
    const program: (nat, Value, Value) -> Option<Outcome>

    ghost predicate Valid()
      reads this
    {
      CellsOk(cells) && forall f | f in fetches :: f.replyTo < |cells|
    }

    ghost predicate ReactionEffect(t: nat, r: Reaction, arg: Value, c0: seq<Cell>, c1: seq<Cell>)
    {
      match r
      case Absent => true
      case Callback(tag, cap) =>
        (match program(tag, cap, arg)
         case Some(Fulfilled(w)) => Open(c0, t) ==> SettledAs(c1, t, Fulfilled(w))
         case Some(Failed(e)) => SettleEffect(c0, c1, t, Failed(e))
         case None => c1 == c0)
      case Fetch(_) => c1 == c0
      case SettleWith(x, res) => SettleEffect(c0, c1, x, res)
      case FailWithArg(x) => SettleEffect(c0, c1, x, Failed(arg))
    }

    /** What invoking the closure `a` with `arg` does to the promises. */
    ghost predicate Effect(a: Action, arg: Value, c0: seq<Cell>, c1: seq<Cell>)
    {
      match a
      case NoOp => c1 == c0
      case Notify(_) => c1 == c0
      case ThenFulfilled(t, r) =>
        if r.Absent? then
          (Open(c0, t) ==> SettledAs(c1, t, Fulfilled(arg)))
          && (t < |c0| && c0[t].chained.None? ==> SettleEffect(c0, c1, t, Fulfilled(arg)))
        else ReactionEffect(t, r, arg, c0, c1)
      case ThenFailed(t, r) =>
        if r.Absent? then SettleEffect(c0, c1, t, Failed(arg)) else ReactionEffect(t, r, arg, c0, c1)
      case JoinFail(t) => SettleEffect(c0, c1, t, Failed(arg))
      case JoinNext(t, rest, acc) =>
        Open(c0, t) && AllFulfilled(c0, rest) ==> SettledAs(c1, t, Fulfilled(Arr(acc + [arg] + Values(c0, rest))))
    }

    /** What invoking `a` with `arg` does to the log of caller-visible calls. */
    static predicate CallEffect(a: Action, arg: Value, k0: seq<Call>, k1: seq<Call>)
    {
      match a
      case NoOp => k1 == k0
      case Notify(tag) => k1 == k0 + [Call(tag, arg)]
      case ThenFulfilled(_, Callback(tag, _)) => |k1| > |k0| && k1[|k0|] == Call(tag, arg)
      case ThenFailed(_, Callback(tag, _)) => |k1| > |k0| && k1[|k0|] == Call(tag, arg)
      case _ => true
    }

    /** What invoking `a` with `arg` does to the log of GET requests. */
    static predicate FetchEffect(a: Action, arg: Value, f0: seq<FetchRequest>, f1: seq<FetchRequest>)
    {
      if a.NoOp? || a.Notify? then f1 == f0
      else if (a.ThenFulfilled? || a.ThenFailed?) && a.reaction.Fetch? then
        f1 == f0 + [FetchRequest(ToText(Field(arg, a.reaction.urlField)), a.target)]
      else true
    }

    /** For a single handler: the GET it issued, once it has run. */
    static predicate FetchedSoFar(hs: seq<Handler>, i: nat, o: Outcome, f0: seq<FetchRequest>, f: seq<FetchRequest>)
    {
      |hs| == 1 ==> (if i == 0 then f == f0 else FetchEffect(Slot(hs[0], o), o.Payload(), f0, f))
    }

    static lemma FetchedStep(hs: seq<Handler>, i: nat, o: Outcome, f0: seq<FetchRequest>, fb: seq<FetchRequest>, fn: seq<FetchRequest>)
      requires i < |hs| && FetchedSoFar(hs, i, o, f0, fb) && FetchEffect(Slot(hs[i], o), o.Payload(), fb, fn)
      ensures FetchedSoFar(hs, i + 1, o, f0, fn)
    {
    }

    /** What a closure does to the promises is what it has brought about. */
    lemma EffectAchieved(a: Action, arg: Value, c0: seq<Cell>, c1: seq<Cell>)
      requires Effect(a, arg, c0, c1)
      ensures Achieved(program, a, arg, c0, c1)
    {
    }

    /** One more handler called keeps `Reached`. */
    lemma ReachedStep(c0: seq<Cell>, cb: seq<Cell>, cn: seq<Cell>, hs: seq<Handler>, i: nat, o: Outcome)
      requires i < |hs| && Reached(program, c0, cb, hs, i, o)
      requires CellsOk(cb) && Extends(c0, cb) && Evolves(cb, cn)
      requires Effect(Slot(hs[i], o), o.Payload(), cb, cn)
      ensures Reached(program, c0, cn, hs, i + 1, o)
    {
      var a := Slot(hs[i], o);
      assert hs[i] in hs;
      assert ActionOk(a, c0);
      forall j | 0 <= j < i + 1 && QuietUpTo(hs, j, o, c0)
        ensures Achieved(program, Slot(hs[j], o), o.Payload(), c0, cn)
      {
        if j < i {
          AchievedMono(program, Slot(hs[j], o), o.Payload(), c0, cb, cn);
        } else {
          EffectAchieved(a, o.Payload(), cb, cn);
          AchievedShift(program, a, o.Payload(), c0, cb, cn);
        }
      }
      if QuietUpTo(hs, i + 1, o, c0) {
        assert QuietUpTo(hs, i, o, c0);
        assert Quiet(a, c0);
        if (a.ThenFulfilled? || a.ThenFailed?) && a.reaction.Absent? {
          assert CellOk(cb[a.target], cb);
        }
        QuietStep(a, cb, cn, c0);
      }
    }

    constructor(program: (nat, Value, Value) -> Option<Outcome>)
      ensures Valid()
      ensures cells == [] && dispatches == [] && calls == [] && fetches == []
      ensures this.program == program
    {
      cells := [];
      dispatches := [];
      calls := [];
      fetches := [];
      this.program := program;
    }

    /**
     * `fail(result)` (with `Failed`) and `_fulfill(result)` (with `Fulfilled`):
     * a pending promise takes the outcome and calls its stored handlers in
     * order; a completed promise ignores it.
     */
    method Complete(p: nat, o: Outcome)
      requires Valid() && p < |cells|
      modifies this
      ensures Valid()
      ensures Step(old(cells), cells, old(dispatches), dispatches, old(calls), calls, old(fetches), fetches)
      ensures SettleEffect(old(cells), cells, p, o)
      ensures old(cells[p].outcome).Some? ==> dispatches == old(dispatches) && calls == old(calls) && fetches == old(fetches)
      ensures old(cells[p].outcome).None? ==> StoredFor(dispatches[|old(dispatches)|..], p) == Slots(|old(cells[p].handlers)|, o)
      ensures old(cells[p].outcome).None? && old(cells[p].handlers) == [] ==>
                dispatches == old(dispatches) && calls == old(calls) && fetches == old(fetches)
      ensures old(cells[p].outcome).None? && OnlyNotify(old(cells[p].handlers), o) ==>
                calls == old(calls) + NotifyCalls(old(cells[p].handlers), o)
                && cells == old(cells)[p := old(cells[p]).(outcome := Some(o))]
                && fetches == old(fetches)
      ensures old(cells[p].outcome).None? ==>
                Reached(program, old(cells)[p := old(cells[p]).(outcome := Some(o))], cells,
                        old(cells[p].handlers), |old(cells[p].handlers)|, o)
      ensures old(cells[p].outcome).None? && |old(cells[p].handlers)| == 1 ==>
                FetchEffect(Slot(old(cells[p].handlers[0]), o), o.Payload(), old(fetches), fetches)
      decreases Pending(cells), 0, 0
    {
      if cells[p].outcome.Some? {
        return;
      }
      ghost var c0 := cells;
      ghost var d0 := dispatches;
      ghost var k0 := calls;
      ghost var f0 := fetches;
      var hs := cells[p].handlers;
      var done := cells[p].(outcome := Some(o));
      cells := cells[p := done];
      CellsOkUpdate(c0, p, done);
      PendingUpdate(c0, p, done);
      ghost var c1 := cells;
      assert Evolves(c0, cells);
      assert forall h | h in hs :: HandlerOk(h, cells) by {
        assert CellOk(c0[p], c0);
        forall h | h in hs ensures HandlerOk(h, cells) {
          ActionOkMono(h.onFulfilled, c0, cells);
          ActionOkMono(h.onFailed, c0, cells);
        }
      }
      if hs == [] {
        assert StoredFor(dispatches[|d0|..], p) == [];
        assert Reached(program, c1, cells, hs, 0, o);
        return;
      }
      assert Live(c0[p]) by {
        assert CellOk(c0[p], c0);
      }
      CallHandlers(p, hs, o);
      HandlersCalled(c0, c1, cells, d0, dispatches, k0, calls, f0, fetches, p, hs, o);
    }

    /**
     * `_callHandlers`: call the stored handlers of the completed promise `p`
     * in order, each with the outcome `o`.
     */
    method CallHandlers(p: nat, hs: seq<Handler>, o: Outcome)
      requires Valid() && p < |cells| && !Live(cells[p])
      requires forall h | h in hs :: HandlerOk(h, cells)
      modifies this
      ensures Valid()
      ensures Progress(old(cells), old(dispatches), old(calls), old(fetches), cells, dispatches, calls, fetches,
                       p, hs, |hs|, o, OnlyNotify(hs, o))
      ensures Reached(program, old(cells), cells, hs, |hs|, o)
      ensures FetchedSoFar(hs, |hs|, o, old(fetches), fetches)
      decreases Pending(cells), 2, 0
    {
      ghost var c0 := cells;
      ghost var d0 := dispatches;
      ghost var k0 := calls;
      ghost var f0 := fetches;
      ghost var quiet := OnlyNotify(hs, o);
      ProgressInit(cells, dispatches, calls, fetches, p, hs, o);
      var i := 0;
      while i < |hs|
        invariant 0 <= i <= |hs|
        invariant Valid()
        invariant Progress(c0, d0, k0, f0, cells, dispatches, calls, fetches, p, hs, i, o, quiet)
        invariant Reached(program, c0, cells, hs, i, o)
        invariant FetchedSoFar(hs, i, o, f0, fetches)
        decreases |hs| - i
      {
        ghost var fb := fetches;
        CallNext(p, hs, i, o, c0, d0, k0, f0, quiet);
        FetchedStep(hs, i, o, f0, fb, fetches);
        i := i + 1;
      }
    }

    /** One round of `_callHandlers`' loop: call handler `i` of `hs`. */
    method CallNext(p: nat, hs: seq<Handler>, i: nat, o: Outcome,
                    ghost c0: seq<Cell>, ghost d0: seq<Dispatch>, ghost k0: seq<Call>, ghost f0: seq<FetchRequest>, ghost quiet: bool)
      requires Valid() && i < |hs|
      requires Progress(c0, d0, k0, f0, cells, dispatches, calls, fetches, p, hs, i, o, quiet)
      requires Reached(program, c0, cells, hs, i, o)
      modifies this
      ensures Valid()
      ensures Progress(c0, d0, k0, f0, cells, dispatches, calls, fetches, p, hs, i + 1, o, quiet)
      ensures Reached(program, c0, cells, hs, i + 1, o)
      ensures FetchEffect(Slot(hs[i], o), o.Payload(), old(fetches), fetches)
      decreases Pending(cells), 1, HandlerRank(hs[i]) + 2
    {
      ghost var cb := cells;
      ghost var db := dispatches;
      ghost var kb := calls;
      ghost var fb := fetches;
      assert hs[i] in hs;
      assert quiet ==> OnlyNotify([hs[i]], o);
      CallHandler(p, i, hs[i], o);
      ProgressStep(c0, d0, k0, f0, cb, db, kb, fb, cells, dispatches, calls, fetches, p, hs, i, o, quiet);
      ReachedStep(c0, cb, cells, hs, i, o);
    }

    /** `_callHandler` on one closure: run `a` with the promise's result `arg`. */
    method Invoke(a: Action, arg: Value)
      requires Valid() && ActionOk(a, cells)
      modifies this
      ensures Valid()
      ensures Step(old(cells), cells, old(dispatches), dispatches, old(calls), calls, old(fetches), fetches)
      ensures Effect(a, arg, old(cells), cells)
      ensures CallEffect(a, arg, old(calls), calls)
      ensures (a.NoOp? || a.Notify?) ==> dispatches == old(dispatches) && fetches == old(fetches)
      ensures FetchEffect(a, arg, old(fetches), fetches)
      decreases Pending(cells), 1, ActionRank(a)
    {
      match a
      case NoOp =>
      case Notify(tag) =>
        calls := calls + [Call(tag, arg)];
      case ThenFulfilled(t, r) =>
        if r.Absent? {
          Fulfill(t, arg);
        } else {
          React(t, r, arg);
        }
      case ThenFailed(t, r) =>
        if r.Absent? {
          Complete(t, Failed(arg));
        } else {
          React(t, r, arg);
        }
      case JoinFail(t) =>
        Complete(t, Failed(arg));
      case JoinNext(t, rest, acc) =>
        WaitForNext(t, rest, acc + [arg]);
    }

    /**
     * `join`'s `waitForNextPromise`: wait for the first of `rest` to be
     * fulfilled, add its value to the results so far, and go on with the
     * others; with none left, fulfil the joined promise with the results.
     */
    method WaitForNext(t: nat, rest: seq<nat>, acc: seq<Value>)
      requires Valid() && t < |cells| && forall x | x in rest :: Attachable(x, cells)
      modifies this
      ensures Valid()
      ensures Step(old(cells), cells, old(dispatches), dispatches, old(calls), calls, old(fetches), fetches)
      ensures Open(old(cells), t) && AllFulfilled(old(cells), rest) ==>
                SettledAs(cells, t, Fulfilled(Arr(acc + Values(old(cells), rest))))
      ensures rest != [] && Unsettled(old(cells), rest[0]) ==>
                cells == old(cells)[rest[0] := old(cells[rest[0]]).(handlers := old(cells[rest[0]].handlers) + [Handler(JoinNext(t, rest[1..], acc), NoOp)])]
                && dispatches == old(dispatches) && calls == old(calls) && fetches == old(fetches)
      decreases Pending(cells), 1, 6 + 4 * |rest|
    {
      if rest == [] {
        Fulfill(t, Arr(acc));
        assert acc + [] == acc;
      } else {
        assert rest[0] in rest;
        ghost var c0 := cells;
        var h := Handler(JoinNext(t, rest[1..], acc), NoOp);
        assert forall x | x in rest[1..] :: x in rest;
        AddHandler(rest[0], h);
        if Open(c0, t) && AllFulfilled(c0, rest) {
          assert AllFulfilled(c0, rest[1..]) by {
            assert forall x | x in rest[1..] :: x in rest;
          }
          var v0 := c0[rest[0]].outcome.value.value;
          assert c0[rest[0]].outcome == Some(Fulfilled(v0));
          assert Slot(h, Fulfilled(v0)) == h.onFulfilled;
          assert Values(c0, rest) == [v0] + Values(c0, rest[1..]);
          assert acc + Values(c0, rest) == acc + [v0] + Values(c0, rest[1..]);
        }
      }
    }

    /** The caller's (or the program's own) callback given to `then`, run with `arg`. */
    method React(t: nat, r: Reaction, arg: Value)
      requires Valid() && t < |cells| && ReactionOk(r, cells) && !r.Absent?
      modifies this
      ensures Valid()
      ensures Step(old(cells), cells, old(dispatches), dispatches, old(calls), calls, old(fetches), fetches)
      ensures ReactionEffect(t, r, arg, old(cells), cells)
      ensures r.Callback? ==> |calls| > |old(calls)| && calls[|old(calls)|] == Call(r.tag, arg)
      ensures r.Fetch? ==> fetches == old(fetches) + [FetchRequest(ToText(Field(arg, r.urlField)), t)]
      decreases Pending(cells), 1, ReactionRank(r)
    {
      match r
      case Callback(tag, cap) =>
        ghost var c0 := cells;
        calls := calls + [Call(tag, arg)];
        ghost var k1 := calls;
        match program(tag, cap, arg) {
          case Some(Fulfilled(w)) => Fulfill(t, w);
          case Some(Failed(e)) => Complete(t, Failed(e));
          case None =>
        }
      case Fetch(field) =>
        fetches := fetches + [FetchRequest(ToText(Field(arg, field)), t)];
      case SettleWith(x, res) =>
        Complete(x, res);
      case FailWithArg(x) =>
        Complete(x, Failed(arg));
    }

    /**
     * `fulfill(result)`: an unchained promise completes at once; a chained
     * one asks its chained promise, through `then`, to complete it with
     * `result` once that promise is fulfilled.
     */
    method Fulfill(t: nat, v: Value)
      requires Valid() && t < |cells|
      modifies this
      ensures Valid()
      ensures Step(old(cells), cells, old(dispatches), dispatches, old(calls), calls, old(fetches), fetches)
      ensures Open(old(cells), t) ==> SettledAs(cells, t, Fulfilled(v))
      ensures old(cells[t].chained).None? ==> SettleEffect(old(cells), cells, t, Fulfilled(v))
      ensures Open(old(cells), t) ==>
                Reached(program, old(cells)[t := old(cells[t]).(outcome := Some(Fulfilled(v)))], cells,
                        old(cells[t].handlers), |old(cells[t].handlers)|, Fulfilled(v))
      ensures Open(old(cells), t) && |old(cells[t].handlers)| == 1 ==>
                FetchEffect(Slot(old(cells[t].handlers[0]), Fulfilled(v)), v, old(fetches), fetches)
      ensures old(cells[t].chained).Some? && Unsettled(old(cells), old(cells[t].chained.value)) ==>
                var q := old(cells[t].chained.value);
                cells == old(cells)[q := old(cells[q]).(handlers := old(cells[q].handlers) + [ChainedFulfil(|old(cells)|, t, v)])] + [DetachedCell()]
                && dispatches == old(dispatches) && calls == old(calls) && fetches == old(fetches)
      ensures old(cells[t].chained).Some? && Unsettled(old(cells), t) && FulfilledIn(old(cells), old(cells[t].chained.value)) ==>
                SettledAs(cells, t, Fulfilled(v))
      decreases Pending(cells), 1, 4
    {
      match cells[t].chained
      case None =>
        Complete(t, Fulfilled(v));
      case Some(q) =>
        ghost var c0 := cells;
        assert CellOk(cells[t], cells);
        var t2 := |cells|;
        cells := cells + [DetachedCell()];
        CellsOkAppend(c0, DetachedCell());
        PendingAppend(c0, DetachedCell());
        assert Step(c0, cells, dispatches, dispatches, calls, calls, fetches, fetches);
        ghost var d1 := dispatches;
        ghost var k1 := calls;
        ghost var f1 := fetches;
        ghost var c1 := cells;
        AddHandler(q, ChainedFulfil(t2, t, v));
        StepTrans(c0, c1, cells, old(dispatches), d1, dispatches, old(calls), k1, calls, old(fetches), f1, fetches);
    }

    /** `_addHandler`: a completed promise calls the handler at once, a pending one stores it. */
    method AddHandler(p: nat, h: Handler)
      requires Valid() && Attachable(p, cells) && HandlerOk(h, cells)
      modifies this
      ensures Valid()
      ensures Step(old(cells), cells, old(dispatches), dispatches, old(calls), calls, old(fetches), fetches)
      ensures old(cells[p].outcome).None? ==>
                cells == old(cells)[p := old(cells[p]).(handlers := old(cells[p].handlers) + [h])]
                && dispatches == old(dispatches) && calls == old(calls) && fetches == old(fetches)
      ensures old(cells[p].outcome).Some? ==>
                var o := old(cells[p].outcome.value);
                |dispatches| > |old(dispatches)| && dispatches[|old(dispatches)|] == Dispatch(p, -1, o)
                && Effect(Slot(h, o), o.Payload(), old(cells), cells)
                && CallEffect(Slot(h, o), o.Payload(), old(calls), calls)
                && FetchEffect(Slot(h, o), o.Payload(), old(fetches), fetches)
      decreases Pending(cells), 1, HandlerRank(h) + 2
    {
      match cells[p].outcome
      case None =>
        ghost var c0 := cells;
        var c := cells[p].(handlers := cells[p].handlers + [h]);
        assert CellOk(c0[p], c0);
        cells := cells[p := c];
        CellsOkUpdate(c0, p, c);
        PendingUpdate(c0, p, c);
      case Some(o) =>
        ghost var c0 := cells;
        ghost var d0 := dispatches;
        dispatches := dispatches + [Dispatch(p, -1, o)];
        ghost var d1 := dispatches;
        Invoke(Slot(h, o), o.Payload());
        StepTrans(c0, c0, cells, d0, d1, dispatches, old(calls), old(calls), calls, old(fetches), old(fetches), fetches);
    }

    /** `_callHandler` for a stored handler: record the invocation, then run the closure for the outcome. */
    method CallHandler(p: nat, slot: nat, h: Handler, o: Outcome)
      requires Valid() && p < |cells| && HandlerOk(h, cells)
      modifies this
      ensures Valid()
      ensures Evolves(old(cells), cells) && old(calls) <= calls && old(fetches) <= fetches
      ensures |dispatches| > |old(dispatches)| && dispatches[..|old(dispatches)| + 1] == old(dispatches) + [Dispatch(p, slot, o)]
      ensures StoredOnlyLive(old(cells), old(dispatches) + [Dispatch(p, slot, o)], dispatches)
      ensures Effect(Slot(h, o), o.Payload(), old(cells), cells)
      ensures FetchEffect(Slot(h, o), o.Payload(), old(fetches), fetches)
      ensures OnlyNotify([h], o) ==>
                cells == old(cells) && fetches == old(fetches)
                && calls == old(calls) + NotifyCalls([h], o) && dispatches == old(dispatches) + [Dispatch(p, slot, o)]
      decreases Pending(cells), 1, HandlerRank(h) + 1
    {
      dispatches := dispatches + [Dispatch(p, slot, o)];
      assert h in [h];
      Invoke(Slot(h, o), o.Payload());
    }

    // ------------------------------------------------------ the public API

    /** `new neo4j.Promise()`: a pending promise with no handlers. */
    method NewPromise() returns (p: nat)
      requires Valid()
      modifies this
      ensures Valid()
      ensures p == |old(cells)| && cells == old(cells) + [Fresh()]
      ensures dispatches == old(dispatches) && calls == old(calls) && fetches == old(fetches)
    {
      p := |cells|;
      CellsOkAppend(cells, Fresh());
      cells := cells + [Fresh()];
    }

    /**
     * `new neo4j.Promise(function(fulfill, fail) { web.get(url, fulfill, fail); })`:
     * a pending promise and the GET request whose answer completes it.
     */
    method NewRequest(url: string) returns (p: nat)
      requires Valid()
      modifies this
      ensures Valid()
      ensures p == |old(cells)| && cells == old(cells) + [Fresh()]
      ensures fetches == old(fetches) + [FetchRequest(url, p)]
      ensures dispatches == old(dispatches) && calls == old(calls)
    {
      p := NewPromise();
      fetches := fetches + [FetchRequest(url, p)];
    }

    /** `Promise.fulfilled(value)`: a promise already fulfilled with `value`. */
    method NewFulfilled(v: Value) returns (p: nat)
      requires Valid()
      modifies this
      ensures Valid()
      ensures p == |old(cells)| && |cells| == |old(cells)| + 1 && cells[..p] == old(cells)
      ensures cells[p] == Cell(Some(Fulfilled(v)), [], None, false)
      ensures dispatches == old(dispatches) && calls == old(calls) && fetches == old(fetches)
    {
      p := NewPromise();
      Complete(p, Fulfilled(v));
    }

    /** `Promise.wrap(arg)`: a promise stays itself, any other value becomes a fulfilled promise. */
    method Wrap(arg: Thenable) returns (p: nat)
      requires Valid() && (arg.IsPromise? ==> Attachable(arg.p, cells))
      modifies this
      ensures Valid()
      ensures arg.IsPromise? ==> p == arg.p && cells == old(cells)
      ensures arg.Plain? ==> p == |old(cells)| && cells == old(cells) + [Cell(Some(Fulfilled(arg.v)), [], None, false)]
      ensures Attachable(p, cells) && Extends(old(cells), cells)
      ensures dispatches == old(dispatches) && calls == old(calls) && fetches == old(fetches)
    {
      match arg
      case IsPromise(q) =>
        p := q;
      case Plain(v) =>
        p := NewFulfilled(v);
        assert cells == cells[..p] + [cells[p]];
    }

    /** `fail(result)` as called by a caller. */
    method Fail(p: nat, e: Value)
      requires Valid() && p < |cells|
      modifies this
      ensures Valid()
      ensures Step(old(cells), cells, old(dispatches), dispatches, old(calls), calls, old(fetches), fetches)
      ensures SettleEffect(old(cells), cells, p, Failed(e))
    {
      Complete(p, Failed(e));
    }

    /**
     * `addHandlers(fulfilled, failed)`, `addFulfilledHandler` and
     * `addFailedHandler`: a missing function becomes a no-op.
     */
    method AddHandlers(p: nat, fulfilled: Option<nat>, failed: Option<nat>)
      requires Valid() && Attachable(p, cells)
      modifies this
      ensures Valid()
      ensures var h := Handler(if fulfilled.Some? then Notify(fulfilled.value) else NoOp,
                               if failed.Some? then Notify(failed.value) else NoOp);
              old(cells[p].outcome).None? ==>
                cells == old(cells)[p := old(cells[p]).(handlers := old(cells[p].handlers) + [h])]
                && dispatches == old(dispatches) && calls == old(calls) && fetches == old(fetches)
      ensures old(cells[p].outcome).Some? ==>
                var o := old(cells[p].outcome.value);
                var chosen := if o.Fulfilled? then fulfilled else failed;
                cells == old(cells) && fetches == old(fetches)
                && dispatches == old(dispatches) + [Dispatch(p, -1, o)]
                && calls == old(calls) + (if chosen.Some? then [Call(chosen.value, o.Payload())] else [])
    {
      var h := Handler(if fulfilled.Some? then Notify(fulfilled.value) else NoOp,
                       if failed.Some? then Notify(failed.value) else NoOp);
      ghost var c0 := cells;
      ghost var d0 := dispatches;
      match cells[p].outcome
      case None =>
        AddHandler(p, h);
      case Some(o) =>
        dispatches := dispatches + [Dispatch(p, -1, o)];
        Invoke(Slot(h, o), o.Payload());
    }

    /**
     * `then(onFulfilled, onBroken)`: a new promise `t`, completed by the
     * callbacks, or by the parent's own outcome where a callback is missing.
     */
    method Then(p: nat, onFulfilled: Reaction, onBroken: Reaction) returns (t: nat)
      requires Valid() && Attachable(p, cells)
      requires ReactionOk(onFulfilled, cells) && ReactionOk(onBroken, cells)
      modifies this
      ensures Valid()
      ensures t == |old(cells)| && t < |cells| && !cells[t].detached
      ensures var h := Handler(ThenFulfilled(t, onFulfilled), ThenFailed(t, onBroken));
              old(cells[p].outcome).None? ==>
                cells == (old(cells) + [Fresh()])[p := old(cells[p]).(handlers := old(cells[p].handlers) + [h])]
                && dispatches == old(dispatches) && calls == old(calls) && fetches == old(fetches)
      ensures old(cells[p].outcome).Some? && old(cells[p].outcome.value).Fulfilled? && onFulfilled.Absent? ==>
                SettledAs(cells, t, old(cells[p].outcome.value))
      ensures old(cells[p].outcome).Some? && old(cells[p].outcome.value).Failed? && onBroken.Absent? ==>
                SettledAs(cells, t, old(cells[p].outcome.value))
      ensures old(cells[p].outcome).Some? && Slot(Handler(ThenFulfilled(t, onFulfilled), ThenFailed(t, onBroken)), old(cells[p].outcome.value)).reaction.Callback? ==>
                |calls| > |old(calls)| && calls[|old(calls)|]
                   == Call(Slot(Handler(ThenFulfilled(t, onFulfilled), ThenFailed(t, onBroken)), old(cells[p].outcome.value)).reaction.tag,
                           old(cells[p].outcome.value.Payload()))
      ensures old(cells[p].outcome).Some? ==>
                FetchEffect(Slot(Handler(ThenFulfilled(t, onFulfilled), ThenFailed(t, onBroken)), old(cells[p].outcome.value)),
                            old(cells[p].outcome.value.Payload()), old(fetches), fetches)
      ensures old(cells[p].outcome).Some? ==>
                Effect(Slot(Handler(ThenFulfilled(t, onFulfilled), ThenFailed(t, onBroken)), old(cells[p].outcome.value)),
                       old(cells[p].outcome.value.Payload()), old(cells) + [Fresh()], cells)
      ensures Extends(old(cells), cells)
    {
      t := NewPromise();
      var h := Handler(ThenFulfilled(t, onFulfilled), ThenFailed(t, onBroken));
      ghost var c1 := cells;
      assert Extends(old(cells), cells);
      ActionOkMono(ThenFulfilled(t, onFulfilled), c1, c1);
      assert HandlerOk(h, cells);
      AddHandler(p, h);
    }

    /**
     * `chain(other)`: do not fulfil `p` before `other` is fulfilled, and
     * fail `p` when `other` fails.
     */
    method Chain(p: nat, other: nat)
      requires Valid() && Attachable(p, cells) && Attachable(other, cells)
      modifies this
      ensures Valid() && |old(cells)| < |cells|
      ensures cells[p].chained == Some(other)
      ensures old(cells[other].outcome).None? ==>
                var c := old(cells)[p := old(cells[p]).(chained := Some(other))] + [DetachedCell()];
                var h := Handler(ThenFulfilled(|old(cells)|, Absent), ThenFailed(|old(cells)|, FailWithArg(p)));
                cells == c[other := c[other].(handlers := c[other].handlers + [h])]
                && dispatches == old(dispatches) && calls == old(calls) && fetches == old(fetches)
      ensures old(cells[other].outcome).Some? && old(cells[other].outcome.value).Failed? && old(cells[p].outcome).None? ==>
                SettledAs(cells, p, Failed(old(cells[other].outcome.value.error)))
    {
      ghost var c0 := cells;
      var c := cells[p].(chained := Some(other));
      assert CellOk(c0[p], c0);
      cells := cells[p := c];
      CellsOkUpdate(c0, p, c);
      var t := |cells|;
      CellsOkAppend(cells, DetachedCell());
      cells := cells + [DetachedCell()];
      assert Extends(c0, cells);
      var h := Handler(ThenFulfilled(t, Absent), ThenFailed(t, FailWithArg(p)));
      AddHandler(other, h);
    }

    /**
     * `Promise.join(p1, ..., pn)`: for one argument, that argument; otherwise
     * a new promise fulfilled with the values of all of them in argument
     * order, or failed with the first failure.
     */
    method Join(ps: seq<nat>) returns (j: nat)
      requires Valid() && forall x | x in ps :: x < |cells| && Attachable(x, cells)
      modifies this
      ensures Valid()
      ensures |ps| == 1 ==> j == ps[0] && cells == old(cells) && dispatches == old(dispatches) && calls == old(calls)
      ensures |ps| != 1 ==> j == |old(cells)| && j < |cells|
      ensures |ps| != 1 && AllFulfilled(old(cells), ps) ==> SettledAs(cells, j, Fulfilled(Arr(Values(old(cells), ps))))
      ensures |ps| != 1 && FirstFailed(old(cells), ps).Some? ==> SettledAs(cells, j, Failed(FirstFailed(old(cells), ps).value))
      ensures |ps| > 1 && AllPending(old(cells), ps) ==>
                var hooked := Hooks(old(cells) + [Fresh()], ps, j);
                cells == hooked[ps[0] := hooked[ps[0]].(handlers := hooked[ps[0]].handlers + [Handler(JoinNext(j, ps[1..], []), NoOp)])]
    {
      if |ps| == 1 {
        return ps[0];
      }
      ghost var c0 := cells;
      j := NewPromise();
      ghost var c1 := cells;
      FirstFailedPrefix(c0, c1, ps);
      assert AllPending(c0, ps) ==> AllPending(c1, ps);
      HookFailures(j, ps);
      ghost var c2 := cells;
      WaitForNext(j, ps, []);
      if AllFulfilled(c0, ps) {
        AllFulfilledNoFailure(c0, ps);
        assert Open(c2, j);
        ValuesSame(c0, c2, ps);
        assert [] + Values(c2, ps) == Values(c0, ps);
      }
      if FirstFailed(c0, ps).Some? {
        assert SettledAs(c2, j, Failed(FirstFailed(c0, ps).value));
        assert Evolves(c2, cells);
      }
    }

    /** `join`'s loop: `addFailedHandler(fail)` on every joined promise, in order. */
    method HookFailures(j: nat, ps: seq<nat>)
      requires Valid() && j < |cells| && cells[j] == Fresh()
      requires forall x | x in ps :: Attachable(x, cells) && x < j
      modifies this
      ensures Valid() && Evolves(old(cells), cells)
      ensures forall x | x in ps :: Attachable(x, cells) && cells[x].outcome == old(cells)[x].outcome
      ensures FirstFailed(old(cells), ps).None? ==> cells[j] == Fresh()
      ensures FirstFailed(old(cells), ps).Some? ==> SettledAs(cells, j, Failed(FirstFailed(old(cells), ps).value))
      ensures AllPending(old(cells), ps) ==> cells == Hooks(old(cells), ps, j)
    {
      assert ps[..0] == [];
      var i := 0;
      while i < |ps|
        invariant 0 <= i <= |ps|
        invariant Valid() && Hooked(old(cells), cells, ps, i, j)
      {
        ghost var cb := cells;
        assert ps[i] in ps;
        var h := Handler(NoOp, JoinFail(j));
        AddHandler(ps[i], h);
        ghost var o := cb[ps[i]].outcome;
        assert o.Some? && o.value.Fulfilled? ==> cells == cb by {
          if o.Some? && o.value.Fulfilled? {
            assert Slot(h, o.value) == NoOp;
          }
        }
        assert o.Some? && o.value.Failed? ==> SettleEffect(cb, cells, j, Failed(o.value.error)) by {
          if o.Some? && o.value.Failed? {
            assert Slot(h, o.value) == JoinFail(j);
          }
        }
        HookStep(old(cells), cb, cells, ps, i, j);
        i := i + 1;
      }
      assert ps[..i] == ps;
    }

    /**
     * The answer to the GET request `k`: the `fulfill`/`fail` pair handed to
     * the transport completes the request's promise.
     */
    method Reply(k: nat, o: Outcome)
      requires Valid() && k < |fetches|
      modifies this
      ensures Valid()
      ensures Step(old(cells), cells, old(dispatches), dispatches, old(calls), calls, old(fetches), fetches)
      ensures Open(old(cells), old(fetches[k].replyTo)) ==> SettledAs(cells, old(fetches[k].replyTo), o)
      ensures var t := old(fetches[k].replyTo);
              Open(old(cells), t) ==>
                Reached(program, old(cells)[t := old(cells[t]).(outcome := Some(o))], cells,
                        old(cells[t].handlers), |old(cells[t].handlers)|, o)
      ensures var t := old(fetches[k].replyTo);
              Open(old(cells), t) && |old(cells[t].handlers)| == 1 ==>
                FetchEffect(Slot(old(cells[t].handlers[0]), o), o.Payload(), old(fetches), fetches)
    {
      assert fetches[k] in fetches;
      var t := fetches[k].replyTo;
      match o
      case Fulfilled(v) => Fulfill(t, v);
      case Failed(e) => Complete(t, Failed(e));
    }
  }

  // ------------------------------------------------------ scenarios

  /** Caller code that only records that it ran. */
  function Silent(tag: nat, captured: Value, arg: Value): Option<Outcome>
  {
    None
  }

  /** A new promise with a fulfilled handler (tag 0) and a failed handler (tag 1) added by `addHandlers`. */
  method WithHandlers() returns (heap: PromiseHeap, p: nat)
    ensures fresh(heap) && heap.Valid() && heap.calls == []
    ensures p < |heap.cells| && heap.cells[p] == Cell(None, [Handler(Notify(0), Notify(1))], None, false)
  {
    heap := new PromiseHeap(Silent);
    p := heap.NewPromise();
    heap.AddHandlers(p, Some(0), Some(1));
  }

  /** A promise fulfilled later calls the fulfilled handler added before, and not the failed one. */
  method EventuallyFulfilled() returns (got: seq<Call>)
    ensures got == [Call(0, Num(123))]
  {
    var heap, p := WithHandlers();
    var h := Handler(Notify(0), Notify(1));
    assert OnlyNotify([h], Fulfilled(Num(123)));
    assert [h][..0] == [];
    assert NotifyCalls([h], Fulfilled(Num(123))) == [Call(0, Num(123))];
    heap.Complete(p, Fulfilled(Num(123)));  // `fulfill` of an unchained promise is `_fulfill`
    got := heap.calls;
  }

  /** A promise failed later calls the failed handler added before, and not the fulfilled one. */
  method EventuallyFailed() returns (got: seq<Call>)
    ensures got == [Call(1, Num(123))]
  {
    var heap, p := WithHandlers();
    var h := Handler(Notify(0), Notify(1));
    assert OnlyNotify([h], Failed(Num(123)));
    assert [h][..0] == [];
    assert NotifyCalls([h], Failed(Num(123))) == [Call(1, Num(123))];
    heap.Complete(p, Failed(Num(123)));
    got := heap.calls;
  }

  /** `then` on a promise already fulfilled with `false` calls the callback with `false` at once. */
  method FulfilledWithFalse() returns (got: Call)
    ensures got == Call(0, Bool(false))
  {
    var heap := new PromiseHeap(Silent);
    var p := heap.NewFulfilled(Bool(false));
    var t := heap.Then(p, Callback(0, Undefined), Absent);
    got := heap.calls[0];
  }

  /** Joining two fulfilled promises gives a promise fulfilled with both values, in order. */
  method JoinTwo() returns (got: Option<Outcome>)
    ensures got == Some(Fulfilled(Arr([Num(12), Num(13)])))
  {
    var heap := new PromiseHeap(Silent);
    var p := heap.NewFulfilled(Num(12));
    var q := heap.NewFulfilled(Num(13));
    assert AllFulfilled(heap.cells, [p, q]);
    assert Values(heap.cells, [p, q]) == [Num(12), Num(13)] by {
      assert [p, q][1..] == [q];
      assert [q][1..] == [];
      assert Values(heap.cells, [q]) == [Num(13)];
    }
    var j := heap.Join([p, q]);
    got := heap.cells[j].outcome;
  }

  /** The effect of one stored handler, reached while every earlier one was quiet. */
  lemma HandlerAchieved(program: (nat, Value, Value) -> Option<Outcome>, c0: seq<Cell>, c: seq<Cell>,
                        hs: seq<Handler>, o: Outcome, j: nat)
    requires Reached(program, c0, c, hs, |hs|, o) && j < |hs| && QuietUpTo(hs, j, o, c0)
    ensures Achieved(program, Slot(hs[j], o), o.Payload(), c0, c)
  {
  }

  /** Caller code that fulfils (tag 0) or fails (tag 1) the promise `then` returned with what it captured. */
  function Answer(tag: nat, captured: Value, arg: Value): Option<Outcome>
  {
    if tag == 0 then Some(Fulfilled(captured)) else if tag == 1 then Some(Failed(captured)) else None
  }

  /** `p.then(callback)` on a new promise: `p` holds the one handler that decides the returned promise. */
  method PendingThen() returns (heap: PromiseHeap, p: nat, t: nat, h: Handler)
    ensures fresh(heap) && heap.Valid() && heap.program == Answer
    ensures p < |heap.cells| && t < |heap.cells| && p != t
    ensures heap.cells[p] == Cell(None, [h], None, false) && heap.cells[t] == Fresh()
    ensures h == Handler(ThenFulfilled(t, Callback(0, Str("done"))), ThenFailed(t, Absent))
  {
    heap := new PromiseHeap(Answer);
    p := heap.NewPromise();
    t := heap.Then(p, Callback(0, Str("done")), Absent);
    h := Handler(ThenFulfilled(t, Callback(0, Str("done"))), ThenFailed(t, Absent));
  }

  /**
   * `then` on a promise still pending: once the parent is fulfilled the
   * callback decides the returned promise.
   */
  method ThenFulfilledLater() returns (decided: Option<Outcome>)
    ensures decided == Some(Fulfilled(Str("done")))
  {
    var heap, p, t, h := PendingThen();
    ghost var c1 := heap.cells[p := heap.cells[p].(outcome := Some(Fulfilled(Num(1))))];
    heap.Complete(p, Fulfilled(Num(1)));
    HandlerAchieved(Answer, c1, heap.cells, [h], Fulfilled(Num(1)), 0);
    decided := heap.cells[t].outcome;
  }

  /** `then` without a failure callback on a promise still pending: its later failure passes through. */
  method ThenFailedLater() returns (passed: Option<Outcome>)
    ensures passed == Some(Failed(Num(7)))
  {
    var heap, p, t, h := PendingThen();
    ghost var c1 := heap.cells[p := heap.cells[p].(outcome := Some(Failed(Num(7))))];
    heap.Complete(p, Failed(Num(7)));
    HandlerAchieved(Answer, c1, heap.cells, [h], Failed(Num(7)), 0);
    passed := heap.cells[t].outcome;
  }

  /** Hooking the joined promise into two promises. */
  lemma HooksTwo(cs: seq<Cell>, x: nat, y: nat, j: nat)
    requires x < |cs| && y < |cs|
    ensures var hook := Handler(NoOp, JoinFail(j));
            var c := cs[x := cs[x].(handlers := cs[x].handlers + [hook])];
            Hooks(cs, [x, y], j) == c[y := c[y].(handlers := c[y].handlers + [hook])]
  {
    var hook := Handler(NoOp, JoinFail(j));
    assert [x, y][..1] == [x];
    assert [x][..0] == [];
    assert Hooks(cs, [x][..0], j) == cs;
    var c := Hooks(cs, [x], j);
    assert c == cs[x := cs[x].(handlers := cs[x].handlers + [hook])];
    assert Hooks(cs, [x, y], j) == c[y := c[y].(handlers := c[y].handlers + [hook])];
  }

  /** `join(p, q)` on two new promises: each carries the hook that fails the join, and `p` also the step that waits for `q`. */
  method PendingJoin() returns (heap: PromiseHeap, p: nat, q: nat, j: nat)
    ensures fresh(heap) && heap.Valid() && heap.program == Silent
    ensures p < |heap.cells| && q < |heap.cells| && j < |heap.cells| && p != q && p != j && q != j
    ensures heap.cells[p] == Cell(None, [Handler(NoOp, JoinFail(j)), Handler(JoinNext(j, [q], []), NoOp)], None, false)
    ensures heap.cells[q] == Cell(None, [Handler(NoOp, JoinFail(j))], None, false)
    ensures heap.cells[j] == Fresh()
  {
    heap := new PromiseHeap(Silent);
    p := heap.NewPromise();
    q := heap.NewPromise();
    assert AllPending(heap.cells, [p, q]);
    HooksTwo(heap.cells + [Fresh()], p, q, |heap.cells|);
    j := heap.Join([p, q]);
  }

  /** The same join after `q` alone is fulfilled: the join is still pending and `p` keeps its two handlers. */
  method HalfJoined() returns (heap: PromiseHeap, p: nat, q: nat, j: nat)
    ensures fresh(heap) && heap.Valid() && heap.program == Silent
    ensures p < |heap.cells| && q < |heap.cells| && j < |heap.cells| && p != q && p != j && q != j
    ensures heap.cells[p] == Cell(None, [Handler(NoOp, JoinFail(j)), Handler(JoinNext(j, [q], []), NoOp)], None, false)
    ensures heap.cells[q].outcome == Some(Fulfilled(Num(13)))
    ensures heap.cells[j] == Fresh()
  {
    heap, p, q, j := PendingJoin();
    assert OnlyNotify([Handler(NoOp, JoinFail(j))], Fulfilled(Num(13)));
    heap.Complete(q, Fulfilled(Num(13)));
  }

  /** `join(p, q)` before either is fulfilled: fulfilling `q` and then `p` fulfils the join with both values, in argument order. */
  method JoinLater() returns (got: Option<Outcome>)
    ensures got == Some(Fulfilled(Arr([Num(12), Num(13)])))
  {
    var heap, p, q, j := HalfJoined();
    var hs := [Handler(NoOp, JoinFail(j)), Handler(JoinNext(j, [q], []), NoOp)];
    ghost var c1 := heap.cells[p := heap.cells[p].(outcome := Some(Fulfilled(Num(12))))];
    heap.Complete(p, Fulfilled(Num(12)));
    assert QuietUpTo(hs, 1, Fulfilled(Num(12)), c1);
    HandlerAchieved(Silent, c1, heap.cells, hs, Fulfilled(Num(12)), 1);
    assert Attachable(j, c1) && Open(c1, j) && AllFulfilled(c1, [q]);
    assert Values(c1, [q]) == [Num(13)] by {
      assert [q][1..] == [];
    }
    assert [] + [Num(12)] + [Num(13)] == [Num(12), Num(13)];
    got := heap.cells[j].outcome;
  }

  /** `p.chain(other)` while `other` is pending: `other` holds the one handler that passes its failure on to `p`. */
  method ChainedPending() returns (heap: PromiseHeap, p: nat, other: nat, first: Handler)
    ensures fresh(heap) && heap.Valid() && heap.program == Silent
    ensures p < other && |heap.cells| == other + 2
    ensures heap.cells[p].outcome.None? && heap.cells[p].chained == Some(other) && !heap.cells[p].detached
    ensures heap.cells[other] == Cell(None, [first], None, false) && heap.cells[other + 1].detached
    ensures first == Handler(ThenFulfilled(other + 1, Absent), ThenFailed(other + 1, FailWithArg(p)))
  {
    heap := new PromiseHeap(Silent);
    p := heap.NewPromise();
    other := heap.NewPromise();
    heap.Chain(p, other);
    first := Handler(ThenFulfilled(other + 1, Absent), ThenFailed(other + 1, FailWithArg(p)));
  }

  /** `p.chain(other)` then `p.fulfill(5)` while `other` is pending: `p` stays pending, `other` holds both the chain's handler and the deferred fulfilment. */
  method PendingChain() returns (heap: PromiseHeap, p: nat, other: nat, waiting: Option<Outcome>, hs: seq<Handler>, d: nat)
    ensures fresh(heap) && heap.Valid() && heap.program == Silent
    ensures waiting == None
    ensures p < |heap.cells| && other < |heap.cells| && p != other && |hs| == 2
    ensures heap.cells[p].outcome.None? && heap.cells[p].chained == Some(other) && !heap.cells[p].detached
    ensures heap.cells[other] == Cell(None, hs, None, false)
    ensures Quiet(Slot(hs[0], Fulfilled(Num(1))), heap.cells)
    ensures hs[1] == ChainedFulfil(d, p, Num(5)) && d < |heap.cells| && heap.cells[d].detached
  {
    var first;
    heap, p, other, first := ChainedPending();
    heap.Fulfill(p, Num(5));
    waiting := heap.cells[p].outcome;
    d := other + 2;
    hs := [first, ChainedFulfil(d, p, Num(5))];
  }

  /** A promise chained to a pending one is fulfilled with its own value once the other is fulfilled. */
  method ChainFulfilledLater() returns (waiting: Option<Outcome>, after: Option<Outcome>)
    ensures waiting == None
    ensures after == Some(Fulfilled(Num(5)))
  {
    var heap, p, other, hs, d;
    heap, p, other, waiting, hs, d := PendingChain();
    ghost var c1 := heap.cells[other := heap.cells[other].(outcome := Some(Fulfilled(Num(1))))];
    assert QuietUpTo(hs, 1, Fulfilled(Num(1)), c1);
    heap.Complete(other, Fulfilled(Num(1)));
    HandlerAchieved(Silent, c1, heap.cells, hs, Fulfilled(Num(1)), 1);
    assert Attachable(p, c1) && Unsettled(c1, p);
    after := heap.cells[p].outcome;
  }

  /** A chained promise fails as soon as the promise it is chained to fails. */
  method ChainFailedLater() returns (failed: Option<Outcome>)
    ensures failed == Some(Failed(Num(9)))
  {
    var heap, p, other, first := ChainedPending();
    ghost var c1 := heap.cells[other := heap.cells[other].(outcome := Some(Failed(Num(9))))];
    heap.Complete(other, Failed(Num(9)));
    HandlerAchieved(Silent, c1, heap.cells, [first], Failed(Num(9)), 0);
    assert Attachable(p, c1) && Unsettled(c1, p);
    failed := heap.cells[p].outcome;
  }

}
