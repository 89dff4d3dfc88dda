# neo4js core, modelled in Dafny

neo4js is the JavaScript client of the Neo4j REST server. A
`GraphDatabase` holds the server URL and a `Web` transport. Through them it
discovers the server's resources, reads and writes nodes, relationships and
index entries, and runs Cypher queries, which answer with a `QueryResult`
of `ResultRow`s. Nearly every operation answers through a `Promise`.

Management features live in `Service`s: JMX, configuration, backup and
monitoring. A service stays uninitialised until the server says whether it
is available. Calls made before that wait, and they run or throw once the
service is initialised. A `cachedFunction` makes sure the service
definition (and the JMX kernel instance) is fetched once however many
callers ask for it. The `GraphDatabaseHeartbeat` polls the monitor service
and merges the samples into its own time series. It also keeps a registry
of listeners that are called with every new batch.

The model gives each core file a module of its own. Both repository
revisions are modelled where they differ: `lib/` and `src/main/javascript/`.
The modules are:

- shared modules:
  - `Wrappers`: `Option` and `Result`.
  - `JsValue`: a dynamic JavaScript value, with truthiness, `||` and loose equality.
  - `Strings`: `indexOf`, `split`, `replace` (with its `$` patterns) and an ASCII-only `toLowerCase`.
  - `OrderedMaps`: an object's members in insertion order.
  - `Transport`: the trace of HTTP requests.
- the promise and the cache:
  - `Promises`: the promise heap.
  - `CachedFunction`: the single-flight cache.
- the service gateway and the transports:
  - `Service`, `ServiceSrc`: the service gateway, in both revisions.
  - `WebOld`, `Web`: the HTTP layer, in both revisions.
- the database objects:
  - `GraphDatabase`, `GraphDatabaseSrc`: the database object, in both revisions.
  - `GraphDatabaseManager`: service discovery.
  - `PropertyContainer`, `Node`, `Relationship`.
  - `Indexes`.
  - `QueryResult`, `ResultRow`.
- `JmxBean`.
- `Heartbeat`.
- the services:
  - `ConfigService`, `BackupService`.
  - `JmxService`, `JmxServiceSrc`: the JMX service, in both revisions.
- `HttpException`.

Code that changes state step by step is modelled as classes with methods. Each method is proved against the specification functions beside it. Pure code is modelled as functions with lemmas.

The HTTP transport, the clock, the host's `escape` and caller-supplied callbacks are outside the model. Each is a parameter or an oracle, and its calls are recorded in a trace.

## Model

| member | source | states |
|---|---|---|
| Promises.PromiseHeap.Complete | src/main/javascript/neo4j/Promise.js:177-193 | `fail`/`_fulfill`: a pending promise takes the outcome and invokes each stored handler once, in registration order, with that outcome; every handler reached while the earlier ones changed no reachable promise has settled the promise it controls as its closure says (`Reached`); a single stored handler's GET is the one recorded; a completed promise ignores the call and nothing changes |
| Promises.PromiseHeap.CallHandlers | src/main/javascript/neo4j/Promise.js:195-205 | `_callHandlers`: the stored handlers are invoked in order, each with the outcome, and no handler of another promise is invoked out of turn |
| Promises.PromiseHeap.CallNext | src/main/javascript/neo4j/Promise.js:196 | one round of the handler loop keeps the loop invariant: handlers `0..i` invoked, in order |
| Promises.PromiseHeap.Invoke | src/main/javascript/neo4j/Promise.js:199-205 | `_callHandler`: the fulfilled closure runs on a fulfilled promise, the failed one otherwise, with the promise's result |
| Promises.PromiseHeap.WaitForNext | src/main/javascript/neo4j/Promise.js:81-90 | `waitForNextPromise`: once all remaining promises are fulfilled, the joined promise is fulfilled with the values gathered so far followed by theirs, in order; when the next one is pending, exactly the step that goes on from it is stored on it and nothing else changes |
| Promises.PromiseHeap.React | src/main/javascript/neo4j/Promise.js:135-147 | `then`'s wrappers: a given callback is called with the result; a missing one passes the outcome on to the new promise |
| Promises.PromiseHeap.Fulfill | src/main/javascript/neo4j/Promise.js:166-175 | `fulfill`: an unchained promise completes at once and its handlers take effect as for `Complete`; a chained one only registers on the chained promise, and completes once that promise is fulfilled (`ChainFulfilledLater`) |
| Promises.PromiseHeap.AddHandler | src/main/javascript/neo4j/Promise.js:221-227 | `_addHandler`: a pending promise stores the handler at the end; a completed one calls it at once and does not store it |
| Promises.PromiseHeap.CallHandler | src/main/javascript/neo4j/Promise.js:199-205 | a stored handler's invocation is recorded before its closure runs, and the cascade only touches promises still pending |
| Promises.PromiseHeap.NewPromise | src/main/javascript/neo4j/Promise.js:31-42 | `new Promise()`: one new pending promise with no handlers; nothing else changes |
| Promises.PromiseHeap.NewRequest | src/main/javascript/neo4j/Promise.js:31-42 | `new Promise(init)` with an `init` that issues a GET: a new pending promise and one request whose answer completes it |
| Promises.PromiseHeap.NewFulfilled | src/main/javascript/neo4j/Promise.js:61-65 | `Promise.fulfilled(v)`: a new promise already fulfilled with `v` |
| Promises.PromiseHeap.Wrap | src/main/javascript/neo4j/Promise.js:49-55 | `wrap(p)` answers `p` itself for a promise and changes nothing; any other value becomes a new fulfilled promise |
| Promises.PromiseHeap.Fail | src/main/javascript/neo4j/Promise.js:177-184 | `fail(e)` settles a pending promise as failed with `e`; a completed promise keeps its first result |
| Promises.PromiseHeap.AddHandlers | src/main/javascript/neo4j/Promise.js:207-219 | `addHandlers`/`addFulfilledHandler`/`addFailedHandler`: a missing function becomes a no-op; on a completed promise exactly the matching handler is called once, with the stored result |
| Promises.PromiseHeap.Then | src/main/javascript/neo4j/Promise.js:131-151 | `then` answers a new promise; on a settled parent, with no fulfil callback it is fulfilled with the same value, with no fail callback it fails with the same error, and a given callback decides it; on a pending parent one handler is stored that does the same later (`ThenFulfilledLater`, `ThenFailedLater`) |
| Promises.PromiseHeap.Chain | src/main/javascript/neo4j/Promise.js:158-164 | `chain(q)`: the promise records `q`; on a pending `q` exactly one handler is stored that fails the promise with `q`'s error and otherwise changes nothing reachable; a failed `q` fails the promise at once |
| Promises.PromiseHeap.Join | src/main/javascript/neo4j/Promise.js:73-101 | `join` of one promise is that promise; otherwise a new promise fulfilled with all values in argument order, or failed with the first failure; on inputs all pending, the failure hooks and the waiting step are stored and nothing else changes (`JoinLater` for their later completion) |
| Promises.PromiseHeap.HookFailures | src/main/javascript/neo4j/Promise.js:94-96 | hooking `fail` into every joined promise fails the joined promise with the first failure among them, and otherwise leaves it pending; on inputs all pending it only appends the hook to each |
| Promises.PromiseHeap.Reply | src/main/javascript/neo4j/Promise.js:39-41 | the transport's answer to a promise's request settles that promise with the answer, and the promise's stored handlers take effect as for `Complete` |
| Promises.HandlersCalled | src/main/javascript/neo4j/Promise.js:186-193 | after `_callHandlers`, the stored handlers of the completed promise were each invoked exactly once, in order, with its outcome |
| Promises.FirstFailedPrefix | src/main/javascript/neo4j/Promise.js:94-96 | promises created later do not change which of the joined promises failed first |
| Promises.AllFulfilledNoFailure | src/main/javascript/neo4j/Promise.js:81-90 | when every joined promise is fulfilled, none of them has failed |
| Promises.ValuesStable | src/main/javascript/neo4j/Promise.js:83-85 | a cascade does not change the values of promises that were already fulfilled |
| Promises.EventuallyFulfilled | src/test/javascript/neo4j/PromiseTestCase.js:32-52 | a promise fulfilled later calls the fulfilled handler added before with 123, and never the failed one |
| Promises.EventuallyFailed | src/test/javascript/neo4j/PromiseTestCase.js:58-78 | a promise failed later calls the failed handler with 123, and never the fulfilled one |
| Promises.FulfilledWithFalse | src/test/javascript/neo4j/PromiseTestCase.js:144-160 | `then` on a promise fulfilled with `false` calls its callback with exactly `false` |
| Promises.JoinTwo | src/test/javascript/neo4j/PromiseTestCase.js:165-184 | joining promises fulfilled with 12 and 13 gives a promise fulfilled with `[12, 13]` |
| Promises.HandlerAchieved | src/main/javascript/neo4j/Promise.js:186-193 | after `_callHandlers`, a stored handler reached while every earlier one was quiet has settled the promise it controls as its closure says |
| Promises.PromiseHeap.ReachedStep | src/main/javascript/neo4j/Promise.js:195-197 | one more turn of the handler loop keeps the statement of what the handlers called so far have brought about |
| Promises.PendingThen | src/main/javascript/neo4j/Promise.js:131-151 | `p.then(callback)` on a pending `p` leaves a new pending promise and one handler on `p` that decides it |
| Promises.ThenFulfilledLater | src/main/javascript/neo4j/Promise.js:131-151 | `then` on a pending promise that is fulfilled later: the returned promise is settled as the callback says |
| Promises.ThenFailedLater | src/main/javascript/neo4j/Promise.js:131-151 | `then` without a fail callback on a pending promise that fails later: the returned promise fails with the same error |
| Promises.PendingJoin | src/main/javascript/neo4j/Promise.js:73-101 | `join(p, q)` on two pending promises hooks the failing handler into both and leaves on `p` the step that waits for `q` |
| Promises.HalfJoined | src/main/javascript/neo4j/Promise.js:81-90 | fulfilling `q` alone leaves the join pending and `p`'s handlers in place |
| Promises.JoinLater | src/main/javascript/neo4j/Promise.js:73-101 | `join(p, q)` whose inputs are fulfilled later, `q` first: the join is fulfilled with both values in argument order |
| Promises.ChainedPending | src/main/javascript/neo4j/Promise.js:158-164 | `p.chain(other)` on a pending `other` stores on `other` the handler that passes its failure to `p` |
| Promises.PendingChain | src/main/javascript/neo4j/Promise.js:166-175 | `fulfill` on a promise chained to a pending one leaves it pending and stores the deferred fulfilment on the other promise |
| Promises.ChainFulfilledLater | src/main/javascript/neo4j/Promise.js:158-175 | a chained promise fulfilled while the other is pending is fulfilled with its own value once the other is fulfilled |
| Promises.ChainFailedLater | src/main/javascript/neo4j/Promise.js:158-164 | a promise chained to a pending one fails with its error once that one fails |
| CachedFunction.CachedFunction.Call | lib/neo4j/cachedFunction.js:46-80 | `wrap()`: with a cached result the callback is answered at once with the cached context and arguments; otherwise it waits, and only the caller that makes the waiting list one long calls `func`, with its callback replaced by the answer function |
| CachedFunction.CachedFunction.constructor | lib/neo4j/cachedFunction.js:38-44 | a new cache holds nothing: not cached, no waiting callback, nothing forwarded or delivered, no timer |
| CachedFunction.CachedFunction.Answer | lib/neo4j/cachedFunction.js:57-73 | the answer caches the result and its context, hands it to every waiting callback in arrival order, empties the list and, with a timeout, starts one expiry timer |
| CachedFunction.CachedFunction.Expire | lib/neo4j/cachedFunction.js:68-72 | the timer only resets `isCached`; the stale result stays |
| CachedFunction.Deliveries | lib/neo4j/cachedFunction.js:62-64 | the drain loop delivers to every waiting callback, in order, the same answer |
| CachedFunction.Forward | lib/neo4j/cachedFunction.js:57-75 | `func` gets the caller's arguments with the one in the callback position replaced by the answer function |
| CachedFunction.ThreeCallers | lib/neo4j/cachedFunction.js:46-80 | two callers before the answer and one after: `func` runs once, and all three callbacks get the same answer, the waiting ones in arrival order |
| CachedFunction.CallAfterExpiry | lib/neo4j/cachedFunction.js:68-72 | after the timeout the next caller calls `func` again |
| HttpException.Create | src/main/javascript/neo4j/exceptions/HttpException.js:24-30 | the status is kept, `data` and `req` default to `{}` when falsy, and the exception's message is empty |
| HttpException.CreateIntended | src/main/javascript/neo4j/exceptions/HttpException.js:25 | as intended, the message is the given one, or the default text ending in `Status code: <status>.` |
| HttpException.Check | src/main/javascript/neo4j/exceptions/HttpException.js:38-55 | a check `is<Name>` exists exactly for the names of `RESPONSE_CODES` |
| HttpException.GeneratedChecks | src/main/javascript/neo4j/exceptions/HttpException.js:47-55 | `isConflict()` is exactly `status === 409`, `isNotFound()` exactly `status === 404`, and no other check is generated |
| HttpException.StatusTextIsNoConflict | src/main/javascript/neo4j/exceptions/HttpException.js:52 | the comparison is strict: the text `"409"` is no conflict, although it equals 409 loosely |
| HttpException.MessageIsLost | src/main/javascript/neo4j/exceptions/HttpException.js:29 | the exception as written never carries the default message it computes |
| Service.PreflightSpec | lib/neo4j/Service.js:336-358 | `serviceMethodPreflight` throws exactly when the service is known unavailable, and queues the call exactly when it is not yet initialised |
| Service.Service.constructor | lib/neo4j/Service.js:39-75 | a service starts uninitialised, with no availability known, no URL, no resources and empty queues |
| Service.NotAvailableThrows | lib/neo4j/Service.js:338-340 | on an unavailable service a call throws and is neither queued nor run |
| Service.UninitialisedQueues | lib/neo4j/Service.js:341-347 | on an uninitialised service a call only waits in `callsWaiting` |
| Service.DrainKeepsQueue | lib/neo4j/Service.js:205-216 | replaying the waiting calls neither empties nor changes the queue, the availability or the resources |
| Service.DrainNotAvailable | lib/neo4j/Service.js:205-216 | on an unavailable service the replay only logs the thrown error once per waiting call |
| Service.DrainRunsInOrder | lib/neo4j/Service.js:351-352 | with the resources known, the replay runs every waiting call in queue order |
| Service.DrainLoadsOnce | lib/neo4j/Service.js:353-356 | with the resources unknown, every waiting call waits for the definition, and the definition GET is issued at most once |
| Service.Service.Preflight | lib/neo4j/Service.js:336-358 | the gateway's state after a preflight is the one `PreflightSpec` gives |
| Service.Service.HandleWaitingCalls | lib/neo4j/Service.js:205-216 | `handleWaitingCalls` replays the queue in order through the preflight, logging what throws |
| Service.Service.MakeAvailable | lib/neo4j/Service.js:244-249 | `makeAvailable(url)` sets initialised, available and the URL, then replays the waiting calls |
| Service.Service.SetNotAvailable | lib/neo4j/Service.js:255-259 | `setNotAvailable` sets initialised and unavailable, then replays the waiting calls, each of which throws and is logged |
| Service.Service.ServicesLoaded | lib/neo4j/Service.js:70-74 | on `services.loaded` an uninitialised service becomes unavailable; an initialised one is left alone |
| Service.Service.DefinitionArrives | lib/neo4j/Service.js:224-230 | the definition's `resources` are stored, and every waiting continuation runs its call, in arrival order |
| Service.Service.Resume | lib/neo4j/cachedFunction.js:62-64 | the loader's delivery loop, seen from the service, runs the call of every waiting continuation, in order |
| Service.ArrivedSpec | lib/neo4j/Service.js:224-230 | the arrived definition is cached and every waiting call has run once, in order |
| Service.ResumedInOrder | lib/neo4j/Service.js:353-356 | the continuations handed to the loader resume exactly the calls behind them, in order |
| Service.Placeholders | lib/neo4j/Service.js:132-135 | the `replace` map is empty exactly when the resource has no URL arguments |
| Service.BuildPlaceholders | lib/neo4j/Service.js:132-135 | the loop builds the `replace` map named by the URL arguments |
| Service.PlaceholderValue | lib/neo4j/Service.js:132-135 | each URL argument name holds the call argument in its position, unless a later name repeats it |
| Service.ExtraArguments | lib/neo4j/Service.js:146-159 | a trailing function is the callback; a second extra argument is the data, else `null` |
| Service.ExtraArgumentsRoundTrip | lib/neo4j/Service.js:146-159 | URL values followed by data and callback, by the callback alone, or by nothing, are read back as exactly those |
| Service.ResourceUrl | lib/neo4j/Service.js:130-141 | the URL is the resource's entry, with the placeholders substituted when there are URL arguments |
| Service.ResourceFunction | lib/neo4j/Service.js:124-176 | a generated method sends the resource's verb, URL and data, and routes the answer to `after` and failures to `errorHandler` |
| Service.DefaultErrorArgument | lib/neo4j/Service.js:116-118 | the default error handler hands the callback a fixed message and the error |
| Service.LazyDefinition | lib/neo4j/Service.js:336-358 | a call made before the service is known waits; `makeAvailable` issues one definition GET, and the call runs when the definition arrives |
| Service.UnavailableAfterLoad | lib/neo4j/Service.js:70-74 | a service nobody made available turns unavailable on `services.loaded`, and a later call throws |
| ServiceSrc.ResourceFactory.Rebind | src/main/javascript/neo4j/Service.js:53-54 | each call wraps the factory's shared `callbackWrap` and `errorHandler` in one more proxy for the calling service |
| ServiceSrc.ResourceFactory.constructor | src/main/javascript/neo4j/Service.js:29-45 | a factory starts with the `callbackWrap` and `errorHandler` it was given, not yet bound to any service |
| ServiceSrc.FirstCallerWins | src/main/javascript/neo4j/Service.js:53-54 | as written, the hooks keep running with the first service that ever called, and every call nests one more proxy |
| ServiceSrc.TwoServices | src/main/javascript/neo4j/Service.js:51-54 | two services of one class: the second one's answer is handled in the context of the first |
| ServiceSrc.BindTo | src/main/javascript/neo4j/Service.js:53-54 | as intended, a call's hooks run with the service that made the call |
| ServiceSrc.ResourceFunction | src/main/javascript/neo4j/Service.js:51-107 | a generated method of the src revision sends the same URL and data as the lib revision, with the raw answer going to `callbackWrap` and failures through `neo4j.Web`'s failure wrapping |
| WebOld.Replace | lib/neo4j/Web_old.js:299-305 | the loop over the placeholder map computes `ReplaceAll`, one first-occurrence substitution per key in key order, with the replacement's `$` patterns expanded as `String.prototype.replace` does |
| WebOld.ReplaceOne | lib/neo4j/Web_old.js:299-305 | a URL with one `{key}` gets the text of the value in its place, `$$`, `$&`, `` $` `` and `$'` expanded; a text without `$` goes in as it is, and nothing else changes |
| WebOld.ReplaceNoBraces | lib/neo4j/Web_old.js:299-305 | a URL without `{` holds no placeholder and is left as it is, whatever the map |
| WebOld.DollarValueKeepsPlaceholder | lib/neo4j/Web_old.js:302 | a value `$&` puts the matched placeholder back, so `/n/{id}` comes back unchanged |
| Strings.ExpandPlain | lib/neo4j/Web_old.js:302 | a replacement text without `$` is inserted as it is |
| Strings.ExpandPatterns | lib/neo4j/Web_old.js:302 | `$&` gives the matched text, `$$` a single `$`, and `$1` stays as it is for a string pattern |
| Strings.ReplaceFirstAt | lib/neo4j/Web_old.js:302 | `replace` with a string pattern substitutes the first occurrence only, by the expanded replacement |
| WebOld.IsCrossDomain | lib/neo4j/Web_old.js:124-139 | a URL is cross-domain only when `://` is found at index 7 or before, and then exactly when the host part after it differs from the page's host |
| WebOld.CrossDomainHosts | lib/neo4j/Web_old.js:124-139 | `http://h/path` is not cross-domain from host `h` and is from any other host |
| WebOld.Shift | lib/neo4j/Web_old.js:334-340 | `args.shift()` answers `undefined` on an empty list, else splits off the first element |
| WebOld.OrNothing | lib/neo4j/Web_old.js:342-343 | a callback slot holds the caller's value exactly when it is a function |
| WebOld.ProcessAjaxArguments | lib/neo4j/Web_old.js:330-352 | method and URL are the first two arguments; the third is the data unless it is a function; success and failure follow, each a no-op unless a function |
| WebOld.ErrorHandler | lib/neo4j/Web_old.js:55-80 | status 200 is an empty success (`null`) and nothing else is; status 0 is a lost connection; any other status an `HttpException` built by the constructor as written, with the parsed body, or with status -1 and `{}` when the body does not parse |
| WebOld.SuccessHandler | lib/neo4j/Web_old.js:47-53 | a jQuery success with status 0 becomes a lost connection; any other one hands on the data, the status text and the request |
| WebOld.PrepareBody | lib/neo4j/Web_old.js:85-91 | `null` and `"null"` (and only they) become the empty body; other data is JSON for non-GET requests and a query for GET |
| WebOld.WrappedFailure | lib/neo4j/Web_old.js:311-323 | the caller's failure callback is always called last; a lost connection first triggers `web.connection_lost` and then `web.connection.failed` |
| WebOld.OnSuccess | lib/neo4j/Web_old.js:264-267 | the promise is fulfilled before the caller's success callback runs |
| WebOld.OnFailure | lib/neo4j/Web_old.js:259-262 | the promise fails before the wrapped failure callback runs, which ends with the caller's callback |
| WebOld.Ajax | lib/neo4j/Web_old.js:250-276 | the promise settles first, fulfilled exactly when the provider signals success, with the first argument; then the caller's success callback runs with all the arguments, or, for a failure or a thrown provider error, the wrapped failure callback with that error |
| WebOld.LostConnectionOrder | lib/neo4j/Web_old.js:259-262 | for a lost connection the order is: promise failed, `web.connection_lost`, `web.connection.failed`, caller's failure callback |
| Web.WrapFailure | src/main/javascript/neo4j/Web.js:289-298 | an error with a truthy `connectionLost` triggers `web.connection.failed` with the request and then applies the callback, even a non-function one (a `TypeError`); any other error reaches only a function callback |
| Web.ConnectionFailedOnlyWhenLost | src/main/javascript/neo4j/Web.js:289-298 | the event fires exactly for a lost connection; a function callback is always called; a non-function one with another error leads to nothing |
| Web.ProviderArguments | src/main/javascript/neo4j/Web.js:33-38 | a function in the data slot is the success callback, the success slot becomes the failure callback and the data is `null`; otherwise nothing moves |
| Web.ErrorHandler | src/main/javascript/neo4j/Web.js:41-76 | status 200 with a callable success is an empty success; otherwise, without a failure function, the request is logged; with one, status 0 hands it `{connectionLost: true}`, any other status the parsed body or `{}` |
| Web.SuccessHandler | src/main/javascript/neo4j/Web.js:109-115 | a jQuery success with status 0 takes the error path; any other one calls success with data, status text and request |
| Web.Provider | src/main/javascript/neo4j/Web.js:31-124 | the provider's deferred work equals `ProviderResult`: sort the parameters, then run the exchange |
| Web.Exchange | src/main/javascript/neo4j/Web.js:78-123 | no request is sent exactly for a cross-domain URL under `XDomainRequest`; a sent request keeps verb and URL, has an empty body exactly for `null` and `"null"` data, and its ending is routed to the handlers |
| Web.WrapArguments | src/main/javascript/neo4j/Web.js:229-236 | `ajax` wraps the success slot when the data slot is a function and success is truthy, else the failure slot when it is a function, else nothing |
| Web.Ajax | src/main/javascript/neo4j/Web.js:229-239 | `ajax` is the provider run on the arguments with the success slot wrapped when the data slot is a function and success is truthy, else the failure slot wrapped when it is a function, else nothing wrapped |
| Web.LostConnectionWithoutData | src/main/javascript/neo4j/Web.js:33-38 | `get(url, onSuccess, onFailure)` on a lost connection triggers `web.connection.failed` and calls `onFailure` with `{connectionLost: true}`, even though it was passed in the success slot |
| Web.EmptyAnswerIsSuccess | src/main/javascript/neo4j/Web.js:43-50 | an empty answer with status 200 calls the success callback with `null` alone |
| GraphDatabase.IsUrl | lib/neo4j/GraphDatabase.js:452-457 | a value counts as a URL exactly when it is not of object type and its text contains `://` |
| GraphDatabase.UndefinedIsNoUrl | lib/neo4j/GraphDatabase.js:452-457 | `undefined` is no URL: its text holds no `://` |
| GraphDatabase.StripUrlBase | lib/neo4j/GraphDatabase.js:409-421 | `undefined` and URLs without `://` come back unchanged; a URL under the database URL loses that prefix; under the manage URL (here the text `undefined`) that one; an array comes back unchanged unless an element is `"://"`, where it throws; any other non-string throws |
| GraphDatabase.StripHost | lib/neo4j/GraphDatabase.js:409-421 | any other URL loses everything before the first `/` from index 8 on, or is kept whole when there is none |
| GraphDatabase.NodeUrlFor | lib/neo4j/GraphDatabase.js:282-288 | an all-digit id becomes the definition's `node` URL, a slash and the id; anything else is already the URL |
| GraphDatabase.RelUrlFor | lib/neo4j/GraphDatabase.js:296-303 | an all-digit id becomes the discovery document's `data` URL with `relationship/` and the id; anything else is kept |
| GraphDatabase.IsNodeUrlOf | lib/neo4j/GraphDatabase.js:427-431 | a URL is a node URL exactly when it starts with the definition's `node` URL |
| GraphDatabase.NodeUrlIsNodeUrl | lib/neo4j/GraphDatabase.js:282-288 | the URL built for a node id is recognised as a node URL |
| GraphDatabase.ReferenceNodeOutcome | lib/neo4j/GraphDatabase.js:264-275 | the promise is fulfilled with `reference_node` exactly when the definition has one, else it fails with no error |
| GraphDatabase.GraphDatabase.constructor | lib/neo4j/GraphDatabase.js:53-113 | a database starts with its URL, no cached discovery or definition promise and an empty promise heap |
| GraphDatabase.GraphDatabase.GetDiscoveryDocument | lib/neo4j/GraphDatabase.js:321-330 | the discovery document is requested from the database URL only the first time; later calls answer the same promise and change nothing |
| GraphDatabase.GraphDatabase.GetServiceDefinition | lib/neo4j/GraphDatabase.js:310-319 | the definition promise is made once; it waits for the discovery document, then requests the document's `data` URL, and a failed discovery fails it; on the first call the new promises and GETs are exactly `DefinitionCells` and `DefinitionFetches`, whether discovery is unasked, pending or answered |
| GraphDatabase.GraphDatabase.ForceRediscovery | lib/neo4j/GraphDatabase.js:471-474 | both cached promises are dropped |
| GraphDatabase.GraphDatabase.Derive | lib/neo4j/GraphDatabase.js:129-149 | a `then` on a promise: pending stays pending, a fulfilled source settles the new promise as the handler says, a failed one passes the failure on unless a failure handler was given |
| GraphDatabase.GraphDatabase.NodeUri | lib/neo4j/GraphDatabase.js:277-289 | a model answers its own `self`; `null` or `undefined` ids throw; other ids resolve through the service definition: `NodeUrlFor` of a settled definition, its failure for a failed one, one handler on a pending one (`Derived`), and on the first call of a new database the definition requested and the handler on it |
| GraphDatabase.GraphDatabase.RelUri | lib/neo4j/GraphDatabase.js:291-304 | the same for relationships, through the discovery document and `RelUrlFor`: at once when settled, its failure when failed, one handler while pending, and on a new database the GET of the database URL with the handler on it |
| GraphDatabase.GraphDatabase.IsNodeUrl | lib/neo4j/GraphDatabase.js:427-431 | once the definition is there, the answer is `IsNodeUrlOf`; a failed definition fails it; while it is pending, or on the first call of a new database, one handler on the definition promise decides it |
| GraphDatabase.GraphDatabase.GetReferenceNodeUrl | lib/neo4j/GraphDatabase.js:264-275 | once the definition is there, the answer is `ReferenceNodeOutcome`; a failed definition or discovery leaves the promise pending, its failure only logged; while it is pending, or on the first call of a new database, one handler on it does both later |
| GraphDatabase.GraphDatabase.PromiseNodeOrNodeUrl | lib/neo4j/GraphDatabase.js:433-439 | objects and URLs are wrapped as they are; `undefined` throws; anything else is taken for an id and gets everything `NodeUri` states: the URL, the failure, the pending handler and the first call |
| GraphDatabase.NodeDispatch | lib/neo4j/GraphDatabase.js:126-149 | `node(arg)` creates a node exactly when the argument is of object type, else fetches it |
| GraphDatabase.RelationshipDispatch | lib/neo4j/GraphDatabase.js:168-209 | `relationship` fetches exactly when the type is `undefined`; otherwise it creates from, to and type as given, with `{}` for falsy data |
| GraphDatabase.Rediscovery | lib/neo4j/GraphDatabase.js:321-330 | two requests share one fetch of the discovery document, and `forceRediscovery` makes the next one fetch again |
| GraphDatabase.DefinitionAfterDiscovery | lib/neo4j/GraphDatabase.js:310-319 | the service definition is fetched from the `data` URL of the discovery document, after that document |
| GraphDatabase.Derived | lib/neo4j/GraphDatabase.js:129-149 | the heap after `then` on a pending promise: one new pending promise, one handler appended to the source, and no other promise changed |
| GraphDatabase.RelUrlIsUrl | lib/neo4j/GraphDatabase.js:296-303 | the URL built for an all-digit relationship id is a URL when the discovery document's `data` is one |
| GraphDatabase.DefinitionRequested | lib/neo4j/GraphDatabase.js:310-319 | with the discovery document answered after the first call, the definition is requested from its `data` URL and its promise is pending |
| GraphDatabase.NodeUriPending | lib/neo4j/GraphDatabase.js:277-289 | `nodeUri(5)` as the first call of a new database, then the discovery answer: one handler waits on the definition promise, whose GET has gone to the `data` URL |
| GraphDatabase.NodeUrlOfFive | lib/neo4j/GraphDatabase.js:282-288 | the id 5 becomes the definition's `node` URL followed by `/5` |
| GraphDatabase.NodeUriLater | lib/neo4j/GraphDatabase.js:277-289 | `nodeUri(5)` called before either GET is answered is fulfilled with `<node>/5` once both are |
| GraphDatabase.IsNodeUrlPending | lib/neo4j/GraphDatabase.js:427-431 | `isNodeUrl(url)` as the first call of a new database, then the discovery answer: one handler waits on the definition promise |
| GraphDatabase.IsNodeUrlLater | lib/neo4j/GraphDatabase.js:427-431 | `isNodeUrl` on a URL under the `node` URL, called before either GET is answered, is fulfilled with `true` once both are |
| GraphDatabase.ReferenceNodePending | lib/neo4j/GraphDatabase.js:264-275 | `getReferenceNodeUrl()` as the first call of a new database, then the discovery answer: one handler waits on the definition promise |
| GraphDatabase.ReferenceNodeLater | lib/neo4j/GraphDatabase.js:264-275 | the reference node URL asked for before either GET is answered is fulfilled with the definition's `reference_node` once both are |
| GraphDatabase.RelUriPending | lib/neo4j/GraphDatabase.js:291-304 | `relUri(5)` as the first call of a new database: the GET of the database URL and one handler on its promise |
| GraphDatabase.RelUrlOfFive | lib/neo4j/GraphDatabase.js:296-303 | the id 5 becomes the `data` URL followed by `relationship/5` |
| GraphDatabase.RelUriLater | lib/neo4j/GraphDatabase.js:291-304 | `relUri(5)` called before discovery is answered is fulfilled with `<data>relationship/5` once it is |
| GraphDatabase.FirstDerived | lib/neo4j/GraphDatabase.js:277-289 | on a new database, the first call that waits on the definition leaves three promises: discovery holding the definition step, the definition holding the caller's handler, and the caller's pending promise |
| GraphDatabase.DiscoveryArrives | lib/neo4j/GraphDatabase.js:310-319 | the discovery answer after such a first call requests the definition from the `data` URL and leaves the caller's handler waiting on it |
| GraphDatabase.FiveIsNoUrl | lib/neo4j/GraphDatabase.js:452-457 | the id 5 is neither of object type nor a URL, so `promiseNodeOrNodeUrl` takes it for an id |
| GraphDatabase.PromiseNodeOrNodeUrlLater | lib/neo4j/GraphDatabase.js:433-439 | `promiseNodeOrNodeUrl(5)` called before either GET is answered is fulfilled with `<node>/5` once both are |
| GraphDatabaseSrc.Create | src/main/javascript/neo4j/GraphDatabase.js:39-79 | a database keeps its URL; a missing or empty manage URL is stored as `null` |
| GraphDatabaseSrc.RequestUrl | src/main/javascript/neo4j/GraphDatabase.js:93-143 | `get`, `del`, `post` and `put` send to the database URL followed by the text of the resource |
| GraphDatabaseSrc.StripRequestUrl | src/main/javascript/neo4j/GraphDatabase.js:153-165 | stripping the base from a request URL gives back the resource |
| GraphDatabaseSrc.ToJson | src/main/javascript/neo4j/GraphDatabase.js:170-177 | the JSON form holds exactly `url` and `manageUrl`, in that order, with the database's values |
| GraphDatabaseSrc.JsonRoundTrip | src/main/javascript/neo4j/GraphDatabase.js:170-177 | reading the JSON form back gives the same database |
| GraphDatabaseManager.Discovered | src/main/javascript/neo4j/GraphDatabaseManager.js:128-135 | discovery only makes services available that the manager holds, each at the URL the server advertises for it |
| GraphDatabaseManager.NewServices | src/main/javascript/neo4j/GraphDatabaseManager.js:37-72 | one fresh, valid and distinct service object per attribute name |
| GraphDatabaseManager.Manager.constructor | src/main/javascript/neo4j/GraphDatabaseManager.js:28-75 | a manager holds the eight service attributes (backup, config, importing, exporting, console, jmx, lifecycle, monitor), no services yet and no actions |
| GraphDatabaseManager.Manager.ServicesLoaded | src/main/javascript/neo4j/GraphDatabaseManager.js:85-87 | loaded exactly when `services` is truthy |
| GraphDatabaseManager.Manager.AvailableServices | src/main/javascript/neo4j/GraphDatabaseManager.js:96-114 | before loading it throws "Service definition has not been loaded yet."; afterwards it answers the advertised names in order, computed once and then cached |
| GraphDatabaseManager.Manager.ServicesArrive | src/main/javascript/neo4j/GraphDatabaseManager.js:125-139 | the services are stored; every advertised service the manager holds is made available in order, then `services.loaded` is triggered; every service ends as discovery leaves it |
| GraphDatabaseManager.Manager.DiscoverAll | src/main/javascript/neo4j/GraphDatabaseManager.js:128-135 | the loop over the advertised services makes available exactly `Discovered` and leaves each service as its own entry says |
| GraphDatabaseManager.Manager.Discover | src/main/javascript/neo4j/GraphDatabaseManager.js:128-135 | one loop step extends the actions and the services' states from the first `i` entries to the first `i + 1` |
| GraphDatabaseManager.Manager.MakeAvailableIfService | src/main/javascript/neo4j/GraphDatabaseManager.js:130-134 | `makeAvailable` reaches the named service if the manager has it, and no other service changes |
| GraphDatabaseManager.Manager.ServicesUnavailable | src/main/javascript/neo4j/GraphDatabaseManager.js:141-144 | a failed fetch only logs that server management will be unavailable |
| GraphDatabaseManager.DiscoverStep | src/main/javascript/neo4j/GraphDatabaseManager.js:128-135 | with unique keys, a new entry changes the lookup only for its own key and adds at most its own action |
| PropertyContainer.SelfOf | lib/neo4j/models/PropertyContainer.js:39-41 | `getSelf` never answers `undefined`: a missing self reads as `null`, any other is kept |
| PropertyContainer.IdOf | lib/neo4j/models/PropertyContainer.js:47-50 | a `null` URL has id `null`; a string URL's id is its part after the last `/` (the whole URL without one); any other self throws |
| PropertyContainer.IdOfNodeUrl | lib/neo4j/models/PropertyContainer.js:47-50 | the id read back from a node URL built from an all-digit id is that id |
| PropertyContainer.IdOfRelUrl | lib/neo4j/models/PropertyContainer.js:47-50 | the id read back from a relationship URL built from an all-digit id is that id |
| PropertyContainer.PropertyOf | lib/neo4j/models/PropertyContainer.js:69-71 | a property reads as its value when that is truthy and as `null` when absent or falsy |
| PropertyContainer.SetThenGet | lib/neo4j/models/PropertyContainer.js:69-78 | after `setProperty` the key is present and reads back as the value, or `null` for a falsy value |
| PropertyContainer.ExtendGet | lib/neo4j/models/PropertyContainer.js:91-93 | after `_.extend` a key reads from the new properties when they have it and from the old data otherwise |
| PropertyContainer.Container.constructor | lib/neo4j/models/PropertyContainer.js:28-32 | a container starts with no self and no data |
| PropertyContainer.Container.Exists | lib/neo4j/models/PropertyContainer.js:55-57 | exists exactly when the self is neither missing nor `null` |
| PropertyContainer.Container.HasProperty | lib/neo4j/models/PropertyContainer.js:62-64 | `key in _data`, also for keys whose value is falsy |
| PropertyContainer.Container.SetProperty | lib/neo4j/models/PropertyContainer.js:76-78 | the key is set, reads back as the value (or `null` if falsy), and no other key changes |
| PropertyContainer.Container.GetProperties | lib/neo4j/models/PropertyContainer.js:84-86 | the answer has the data's keys in order and each key's stored value, falsy ones included, and so reads key by key as `getProperty` |
| PropertyContainer.Container.SetProperties | lib/neo4j/models/PropertyContainer.js:91-93 | the data becomes the old data extended with the given properties |
| PropertyContainer.Container.RemoveProperty | lib/neo4j/models/PropertyContainer.js:98-100 | the key is gone and no other key changes |
| Node.UrlsDefaulted | lib/neo4j/models/Node.js:246-256 | the URL table has exactly the nine resource keys, in order, and each reads back as the definition's URL or `""` when that is falsy |
| Node.DataOf | lib/neo4j/models/Node.js:244 | falsy `data` gives empty properties; an object's entries are taken as they are |
| Node.RelationshipsKey | lib/neo4j/models/Node.js:196-220 | the URL key is the incoming one exactly for direction `in`, the outgoing one exactly for `out`, the `all` one otherwise (a missing direction is `all`), and the typed one exactly when types are given |
| Node.TypesParameter | lib/neo4j/models/Node.js:203-205 | an array of types is joined with `&`; anything else is passed as it is |
| Node.UntypedRelationshipsUrl | lib/neo4j/models/Node.js:195-220 | without types the request goes to the untyped URL of the direction as it is |
| Node.TypedRelationshipsUrl | lib/neo4j/models/Node.js:222-224 | with types, the `{-list\|&\|types}` placeholder of the typed URL is replaced by the joined types |
| Node.JoinedTypes | lib/neo4j/models/Node.js:203-205 | `["KNOWS", "LIKES"]` becomes `KNOWS&LIKES` |
| Node.TraverseClass | lib/neo4j/models/Node.js:162-177 | a traversal builds relationships exactly for the relationships return type and paths exactly for the paths one; a missing return type means nodes |
| Node.TraverseDefaultsToNodes | lib/neo4j/models/Node.js:162-177 | a traversal without a return type builds nodes |
| Node.TraverseUrlFilled | lib/neo4j/models/Node.js:162-163 | the `{returnType}` placeholder of the `traverse` URL is replaced by the return type, the nodes constant when none is given, and nothing else of the URL changes |
| Node.RemoveAttempts | lib/neo4j/models/Node.js:113-142 | a removal issues at least one DELETE per answer it uses and no more than it is given |
| Node.RemoveRetriesWithoutBound | lib/neo4j/models/Node.js:113-142 | as written, `n` conflicts followed by success make `n + 1` DELETEs: the guard never stops a retry |
| Node.RemoveIntendedAtMostTwice | lib/neo4j/models/Node.js:126-137 | with the guard kept across the retry, at most two DELETEs are made, and a second conflict leaves the promise pending |
| Node.RemoveAfterOneConflict | lib/neo4j/models/Node.js:126-137 | both versions agree on one conflict followed by success: two DELETEs and the node removed |
| Node.AfterDelete | lib/neo4j/models/Node.js:118-124 | after the DELETE, the promise is fulfilled once the reference node URL is known, with rediscovery forced exactly when it loosely equals the node's URL; if that URL cannot be had, the removal fails |
| Node.Node.constructor | lib/neo4j/models/Node.js:39-48 | a node is initialised from its definition |
| Node.Node.Init | lib/neo4j/models/Node.js:242-258 | `_init`: the node exists exactly when the definition's `self` is truthy, and then has that self |
| Node.Node.CreateRelationshipUrl | lib/neo4j/models/Node.js:144-150 | the URL is given exactly for a node that exists, and it is the node's `create_relationship` URL; otherwise an error is thrown |
| Node.Node.RelationshipsRequest | lib/neo4j/models/Node.js:226-235 | `getRelationships` sends a GET to the URL chosen by direction and types |
| Node.Node.Save | lib/neo4j/models/Node.js:67-85 | given the service definition, a new node is POSTed with its data to the definition's `node` URL and re-initialised from the answer; an existing one is PUT to its `properties` URL and left as it is; a failure is passed on and changes nothing |
| Node.Node.Fetch | lib/neo4j/models/Node.js:93-107 | a GET of the node's self: an answer whose data has a truthy self re-initialises the node; any other answer fails with `InvalidDataException`; a failed GET fails with `NotFoundException` for the self |
| Relationship.EndpointOf | lib/neo4j/models/Relationship.js:255-271 | an endpoint is set exactly when the definition has one (not `undefined`) |
| Relationship.SaveError | lib/neo4j/models/Relationship.js:78-92 | a refused create is a `NotFoundException` for the end URL exactly when the exception text mentions `EndNodeNotFoundException`, or `BadInputException` together with the end URL; else `StartNodeSameAsEndNodeException` exactly when it mentions that; else the raw answer |
| Relationship.Relationship.constructor | lib/neo4j/models/Relationship.js:45-54 | a relationship takes self, data and type from its definition, and each endpoint's URL, plus the node itself when a node was given |
| Relationship.Relationship.Init | lib/neo4j/models/Relationship.js:245-272 | `_init`: self, data, type and the `properties` URL come from the definition; an absent endpoint keeps its old URL and node; a node sets both; a URL sets only the URL |
| Relationship.Relationship.GetType | lib/neo4j/models/Relationship.js:140-142 | the type when truthy, else `null` |
| Relationship.Relationship.OtherNodeUrl | lib/neo4j/models/Relationship.js:216-222 | the end URL for the start node, the start URL for anything else |
| Relationship.Relationship.GetNode | lib/neo4j/models/Relationship.js:229-239 | a cached endpoint is answered with no request; otherwise the node is fetched from its URL and, when that succeeds, cached; nothing else changes |
| Relationship.Relationship.Fetch | lib/neo4j/models/Relationship.js:109-121 | a GET of self; an answer with truthy data, self, start and end re-initialises the relationship: self, data, type, `properties` URL and both endpoint URLs, cached nodes kept; any other answer fails with `InvalidDataException` and changes nothing; a failed GET is passed on |
| Relationship.Relationship.Save | lib/neo4j/models/Relationship.js:66-101 | a new relationship is POSTed as `{to, type, data}` to the create URL and re-initialised from the answer (self, data, type, `properties` URL, endpoints present in the answer); refused creates fail as `SaveError` says; an existing one is PUT to its `properties` URL and left as it is |
| Relationship.Relationship.RemoveRequest | lib/neo4j/models/Relationship.js:128-135 | `remove` sends a DELETE to the relationship's self |
| Relationship.StartNodeTwice | lib/neo4j/models/Relationship.js:147-149 | the start node is fetched once; a second `getStartNode` answers the cached node with no request |
| Relationship.OtherNodeUrlOfEnds | lib/neo4j/models/Relationship.js:164-222 | seen from the start node, given as a node or as its URL, the other node is the end; seen from a distinct end URL it is the start |
| Indexes.KindFor | lib/neo4j/index/Indexes.js:196-200 | a relationship index is built exactly for the type `relationship_index`; every other type builds a node index |
| Indexes.DeleteIfTruthy | lib/neo4j/index/Indexes.js:205-211 | `delete config[key]` under a truthiness test removes that key exactly when its value is truthy and touches no other key |
| Indexes.StripConfig | lib/neo4j/index/Indexes.js:204-212 | the configuration stored on an index has `provider` and `template` removed when truthy and every other key as given |
| Indexes.CreateConfig | lib/neo4j/index/Indexes.js:170 | a falsy configuration becomes `{provider: "lucene", type: "exact"}` |
| Indexes.RemoveRequest | lib/neo4j/index/Indexes.js:180-185 | removing an index sends a DELETE to the type's index URL, a slash and the name |
| Indexes.IndexNames | lib/neo4j/index/Indexes.js:159 | a `null` index map names no index; an object names its keys in order |
| Indexes.IndexObject.constructor | lib/neo4j/index/Indexes.js:196-200 | a new index object has its kind and name and no provider or configuration |
| Indexes.Indexes.constructor | lib/neo4j/index/Indexes.js:34-47 | the cache starts empty |
| Indexes.Indexes.Lookup | lib/neo4j/index/Indexes.js:187-202 | the cached object for type and name is answered; a missing one is created fresh, of the kind the type says, and cached |
| Indexes.Indexes.GetOrCreate | lib/neo4j/index/Indexes.js:187-216 | `_getOrCreateLocalIndexObject`: the cached or new object; a truthy configuration sets the provider when it has a truthy one and stores the stripped configuration; no other cached object changes |
| Indexes.Indexes.GetNodeIndex | lib/neo4j/index/Indexes.js:92-94 | asking twice for a node index by name answers the same object, unchanged; a new one has no provider or config; every other cached object is untouched |
| Indexes.Indexes.GetRelationshipIndex | lib/neo4j/index/Indexes.js:105-107 | the same for relationship indexes: a cached one comes back unchanged, a new one has no provider or config, and every other cached object is untouched |
| Indexes.Indexes.ListAll | lib/neo4j/index/Indexes.js:153-167 | a GET of the type's URL; a failure is passed on and the cache kept; an answer lists one cached object per index name, in order, adds exactly those names to the cache, and answers an already cached index as the same object; cached objects of names not listed are untouched |
| Indexes.Indexes.ListOne | lib/neo4j/index/Indexes.js:161-163 | one loop step caches and appends the object for the next name |
| Indexes.Indexes.Create | lib/neo4j/index/Indexes.js:169-178 | a POST of `{name, config}` (default configuration when falsy); a failure is passed on with the cache kept; success answers the cached object when there is one, with the stripped configuration and the configuration's truthy provider (else the old one); every other cached object, and on failure every cached object, is untouched |
| Indexes.ListedStep | lib/neo4j/index/Indexes.js:161-163 | the listing invariant is kept by caching the next name's object |
| Indexes.Configure | lib/neo4j/index/Indexes.js:204-213 | a falsy configuration leaves the index as it is; a truthy one stores the stripped configuration and a truthy provider |
| Indexes.SameIndexTwice | lib/neo4j/index/Indexes.js:92-94 | two `getNodeIndex(name)` calls answer the same node index object |
| QueryResult.ColumnPosition | lib/neo4j/cypher/QueryResult.js:53-56 | the column map sends a name to its last position in the columns, and names that are not columns to nothing |
| QueryResult.ColumnPositionNext | lib/neo4j/cypher/QueryResult.js:54-56 | one loop step: the map of the first `i + 1` columns is that of the first `i` with column `i` sent to `i` |
| QueryResult.BuildColumnMap | lib/neo4j/cypher/QueryResult.js:53-56 | the loop builds exactly `ColumnPosition` |
| QueryResult.QueryResult.constructor | lib/neo4j/cypher/QueryResult.js:34-58 | a result holds the rows and columns, its pointer at 0 and the column map built from the columns |
| QueryResult.QueryResult.Size | lib/neo4j/cypher/QueryResult.js:65-67 | the number of rows |
| QueryResult.QueryResult.HasNext | lib/neo4j/cypher/QueryResult.js:73-75 | true exactly while the pointer is before the last row |
| QueryResult.QueryResult.Next | lib/neo4j/cypher/QueryResult.js:69-71 | the pointer moves on by one; a row object is answered exactly while rows remain, holding the current row and the column map |
| QueryResult.QueryResult.Reset | lib/neo4j/cypher/QueryResult.js:77-79 | the pointer goes back to 0 |
| QueryResult.ReadRows | lib/neo4j/cypher/QueryResult.js:65-79 | reading with `hasNext` and `next` visits every row, in order, once |
| QueryResult.GetByColumn | lib/neo4j/cypher/QueryResult.js:53-56 | with distinct column names, a cell read by its column name is the cell read by that column's index |
| QueryResult.GetUnknownColumn | lib/neo4j/cypher/QueryResult.js:53-56 | reading a column that does not exist fails |
| ResultRow.ConvertValue | lib/neo4j/cypher/ResultRow.js:84-99 | `null` stays `null`; a value without `data` is answered as it is; with `data`, one with `type` is a relationship, else one with `length` is a path as JSON text, else a node; reading `data` of `undefined` throws |
| ResultRow.ResultRow.constructor | lib/neo4j/cypher/ResultRow.js:34-53 | a row holds its cells and column map, its pointer at 0 |
| ResultRow.ResultRow.Size | lib/neo4j/cypher/ResultRow.js:60-62 | the number of cells |
| ResultRow.ResultRow.GetByIndex | lib/neo4j/cypher/ResultRow.js:64-66 | a cell within the row is converted; an index outside it reads `undefined` and throws |
| ResultRow.ResultRow.Get | lib/neo4j/cypher/ResultRow.js:68-70 | a known column reads the cell at its position; an unknown one throws |
| ResultRow.ResultRow.HasNext | lib/neo4j/cypher/ResultRow.js:76-78 | true exactly while the pointer is before the last cell |
| ResultRow.ResultRow.Next | lib/neo4j/cypher/ResultRow.js:72-74 | the cell at the pointer, and the pointer moves on by one |
| ResultRow.ResultRow.Reset | lib/neo4j/cypher/ResultRow.js:80-82 | the pointer goes back to 0 |
| ResultRow.ReadCells | lib/neo4j/cypher/ResultRow.js:60-82 | reading with `hasNext` and `next` converts every cell, in order, once |
| JmxBean.PairValue | src/main/javascript/neo4j/models/JMXBean.js:84-85 | a `key=value` part without `=` gives the value `undefined` |
| JmxBean.SplitInTwo | src/main/javascript/neo4j/models/JMXBean.js:76-81 | `split` gives a second part exactly when the separator occurs, so `parts[1]` exists exactly for names with `:` |
| JmxBean.Pairs | src/main/javascript/neo4j/models/JMXBean.js:83-86 | each comma-separated part gives the key before its first `=` and the value between its first and second `=` (`undefined` without one), in order |
| JmxBean.ParseName | src/main/javascript/neo4j/models/JMXBean.js:74-92 | the loop over the parts computes `NameMap` |
| JmxBean.PairsMapGet | src/main/javascript/neo4j/models/JMXBean.js:83-86 | a key is in the parsed map exactly when some part names it, and then holds the value of the last such part |
| JmxBean.NameMapFails | src/main/javascript/neo4j/models/JMXBean.js:76-81 | parsing fails (reading `split` of `undefined`) exactly when the name has no `:` |
| JmxBean.NameMapDomain | src/main/javascript/neo4j/models/JMXBean.js:80-88 | the domain is the text before the first `:` |
| JmxBean.NameMapIgnoresThirdSegment | src/main/javascript/neo4j/models/JMXBean.js:76-81 | anything after a second `:` is ignored |
| JmxBean.Parse | src/main/javascript/neo4j/models/JMXBean.js:39-51 | a bean parses exactly when its name is a string with `:`; then the domain is taken out of the properties, every other property is as parsed, and name, attributes and description are kept |
| JmxBean.GetName | src/main/javascript/neo4j/models/JMXBean.js:59-69 | a truthy `name` property, else the first property's value, else the JMX name |
| JmxBean.GetNameOfNamedBean | src/main/javascript/neo4j/models/JMXBean.js:59-61 | a bean whose object name has a truthy `name=` pair is called by the last such value |
| JmxBean.FindAttributeFirst | src/main/javascript/neo4j/models/JMXBean.js:99-108 | the search answers the first attribute whose lower-cased name matches, `null` exactly when none matches, and throws only at an attribute without a string name reached before any match |
| JmxBean.PassedOverShift | src/main/javascript/neo4j/models/JMXBean.js:101-105 | the loop invariant \"no earlier attribute matched\" carries over one position |
| JmxBean.GetAttribute | src/main/javascript/neo4j/models/JMXBean.js:99-108 | the search over the attributes for the lower-cased name; missing attributes throw |
| JmxBean.ToLowerTwice | src/main/javascript/neo4j/models/JMXBean.js:100 | lower-casing is idempotent |
| JmxBean.GetAttributeIgnoresCase | src/main/javascript/neo4j/models/JMXBean.js:99-108 | asking by any spelling of a name gives the same answer as asking in lower case |
| Heartbeat.ListenerValues | lib/neo4j/GraphDatabaseHeartbeat.js:334-340 | the listeners are called in key order, each once |
| Heartbeat.FirstKey | lib/neo4j/GraphDatabaseHeartbeat.js:347-355 | the first key of `data` when the answer is an object whose `data` has a non-empty first key; nothing for non-objects or an empty `data` |
| Heartbeat.LastNumberBelow | lib/neo4j/GraphDatabaseHeartbeat.js:309-313 | the backward loop stops at the last index below the end whose sample is a number, or at -1 when there is none |
| Heartbeat.FirstNumberFrom | lib/neo4j/GraphDatabaseHeartbeat.js:316-320 | the forward loop stops at the first index with a numeric sample, or one past the last index |
| Heartbeat.DataBoundaries | lib/neo4j/GraphDatabaseHeartbeat.js:300-328 | with no first key both bounds are -1; otherwise the end is the last numeric sample of the first series within the timestamps (or -1), the start the first numeric sample up to it (0 when there is none), and no sample outside them is a number |
| Heartbeat.FindDataBoundaries | lib/neo4j/GraphDatabaseHeartbeat.js:300-328 | the two loops compute `DataBoundaries` |
| Heartbeat.Splice | lib/neo4j/GraphDatabaseHeartbeat.js:180-188 | `splice(start, count)` within bounds answers exactly that slice, and never more than `count` items |
| Heartbeat.Slices | lib/neo4j/GraphDatabaseHeartbeat.js:186-189 | the new data holds, per series and in order, the slice between the bounds |
| Heartbeat.MergedGet | lib/neo4j/GraphDatabaseHeartbeat.js:186-195 | after merging, a series that came in is the stored run followed by the new one (an empty run when there was none); every other series is as stored |
| Heartbeat.MergeSeries | lib/neo4j/GraphDatabaseHeartbeat.js:185-195 | the loop over the series computes exactly the slices and the merged store |
| Heartbeat.AdjustedEndSkipsMinutes | lib/neo4j/GraphDatabaseHeartbeat.js:268-288 | as written, the request is never moved to 35 minutes ago, and a gap of six hours to a day is left alone |
| Heartbeat.AdjustedEndCorrectedNarrows | lib/neo4j/GraphDatabaseHeartbeat.js:268-288 | with the last test on six hours, the request moves exactly for a gap of six hours or more, and always to a later time that is at least 35 minutes ago |
| Heartbeat.FreshId | lib/neo4j/GraphDatabaseHeartbeat.js:103-110 | the next id is not yet a listener key |
| Heartbeat.LastSampleIsNumber | lib/neo4j/GraphDatabaseHeartbeat.js:176-177 | when there is new data, the bounds lie within the timestamps and the end timestamp is a number |
| Heartbeat.Heartbeat.constructor | lib/neo4j/GraphDatabaseHeartbeat.js:31-91 | a heartbeat starts with no listeners, counters at 0, a window starting a year ago, no samples and no poll |
| Heartbeat.Heartbeat.AddListener | lib/neo4j/GraphDatabaseHeartbeat.js:103-110 | as written: the listener is stored under the current id, both counters go up, and the id answered is one more than the key used |
| Heartbeat.Heartbeat.AddListenerCorrected | lib/neo4j/GraphDatabaseHeartbeat.js:103-110 | the id answered is the key the listener is stored under |
| Heartbeat.Heartbeat.FindListener | lib/neo4j/GraphDatabaseHeartbeat.js:123-129 | the search answers the first listener identical to the one given, or none |
| Heartbeat.Heartbeat.RemoveListener | lib/neo4j/GraphDatabaseHeartbeat.js:119-141 | as written: removing by function deletes the first entry holding it but never lowers the counter; removing by id deletes a truthy entry and lowers the counter |
| Heartbeat.Heartbeat.RemoveListenerCorrected | lib/neo4j/GraphDatabaseHeartbeat.js:119-141 | removing by function or by id deletes the entry and keeps the counter equal to the number of listeners |
| Heartbeat.Heartbeat.Beat | lib/neo4j/GraphDatabaseHeartbeat.js:158-163 | a poll from the end timestamp starts exactly when there are listeners, none is running and the monitor is available |
| Heartbeat.Heartbeat.AdjustRequestedTimespan | lib/neo4j/GraphDatabaseHeartbeat.js:268-288 | the corrected adjustment moves the end timestamp as `AdjustedEndCorrected` says and then beats; without a move nothing changes |
| Heartbeat.Heartbeat.AppendSamples | lib/neo4j/GraphDatabaseHeartbeat.js:176-195 | the new samples between the bounds are appended to the timestamps and to every series, and the end timestamp becomes the last one with data |
| Heartbeat.Heartbeat.CallListeners | lib/neo4j/GraphDatabaseHeartbeat.js:333-341 | every listener is notified once, in order, with the new data and all cached data |
| Heartbeat.Heartbeat.ProcessMonitorData | lib/neo4j/GraphDatabaseHeartbeat.js:168-216 | a missing or failed answer only stops polling; an answer with new data appends it and notifies the listeners; one without adjusts the requested window |
| Heartbeat.RemoveByFunctionAsWritten | lib/neo4j/GraphDatabaseHeartbeat.js:119-141 | as written, after adding and removing one listener by function the counter stays at 1 and the heartbeat keeps polling |
| Heartbeat.RemoveByFunctionCorrected | lib/neo4j/GraphDatabaseHeartbeat.js:119-141 | corrected, the counter is back to 0 and nothing is polled |
| Heartbeat.RemoveByIdAsWritten | lib/neo4j/GraphDatabaseHeartbeat.js:103-141 | as written, removing with the id `addListener` answered (1) leaves the listener stored under `"0"` |
| Heartbeat.RemoveByIdCorrected | lib/neo4j/GraphDatabaseHeartbeat.js:103-141 | corrected, the answered id (0) removes the listener |
| ConfigService.Indexed | lib/neo4j/services/ConfigService.js:58 | `for (i in data)` over an array visits `"0"`, `"1"`, … with the items, in order |
| ConfigService.Keyed | lib/neo4j/services/ConfigService.js:58-60 | each entry is filed under the text of its own `key` |
| ConfigService.ToPropertiesMap | lib/neo4j/services/ConfigService.js:55-63 | the loop builds `PropertiesOf` the answer: every property filed under its key, a later one replacing an earlier |
| ConfigService.PropertiesGet | lib/neo4j/services/ConfigService.js:57-60 | a key is in the map exactly when some property has it, and then holds the last such property |
| ConfigService.FirstWithKeyIsLookup | lib/neo4j/services/ConfigService.js:77-84 | the search of `getProperty` answers the map's entry for the key, or `null` |
| ConfigService.GetPropertyFindsLast | lib/neo4j/services/ConfigService.js:75-86 | `getProperty` answers `null` when no property has the key, else the last property with it |
| ConfigService.PropertyList | lib/neo4j/services/ConfigService.js:106-115 | each setting becomes `{key, value}`, in order |
| ConfigService.SetProperties | lib/neo4j/services/ConfigService.js:99-119 | the POST carries the settings as a list of `{key, value}` and the callback, and `config.property.set` is triggered once per setting, in the same order |
| ConfigService.SetProperty | lib/neo4j/services/ConfigService.js:130-134 | one setting: one `{key, value}` is sent and one event triggered |
| ConfigService.AssignDistinct | lib/neo4j/services/ConfigService.js:57-60 | filing entries with distinct keys keeps them as they are |
| ConfigService.SettingsRoundTrip | lib/neo4j/services/ConfigService.js:55-117 | the list sent by `setProperties`, read back by `getProperties`, gives every setting under its own key, in order |
| BackupService.TriggerManualError | lib/neo4j/services/BackupService.js:52-56 | the callback is called at most once, and only with `false` |
| BackupService.TriggerManualErrorOnlyNoFoundation | lib/neo4j/services/BackupService.js:52-56 | it is called exactly when the error's `exception` is `NoBackupFoundationException` |
| BackupService.FindJobFirst | lib/neo4j/services/BackupService.js:94-105 | the job answered is the first whose id loosely equals the one asked for, and `null` exactly when there is none |
| BackupService.GetJobByIdText | lib/neo4j/services/BackupService.js:94-105 | a job with a numeric id is found also when asked for by its decimal text |
| JmxService.KernelInstanceOf | lib/neo4j/services/JmxService.js:164-170 | a falsy answer gives `null` and only a falsy answer does; a truthy one succeeds exactly when it is a string with `:`, and then gives text without `,` |
| JmxService.KernelInstanceSegment | lib/neo4j/services/JmxService.js:166-168 | for `domain:instance,rest` (e.g. `org.neo4j:instance=kernel#0,name=*`) the kernel instance is `instance` |
| JmxService.GetBeanBefore | lib/neo4j/services/JmxService.js:100-114 | for the domain `neo4j` the arguments are left alone and the kernel instance is awaited; otherwise domain and object name are escaped in place and the resource called with the arguments |
| JmxService.Neo4jBeanRequest | lib/neo4j/services/JmxService.js:101-108 | once the kernel instance arrives, the bean is asked for in `org.neo4j` under the escaped `instance,name=<name>`, with the caller's callback |
| JmxService.Elements | lib/neo4j/services/JmxService.js:116-139 | indexing reads an array's elements and a string's characters, and nothing of other values |
| JmxService.GetBeanAfter | lib/neo4j/services/JmxService.js:115-121 | an empty answer hands over `null` and only it does; otherwise the bean built from the first element, failing exactly when that element does not parse |
| JmxService.GetBeanAfterFirstOnly | lib/neo4j/services/JmxService.js:115-121 | elements after the first do not matter; the bean keeps the first element's JMX name and domain |
| JmxService.BuildEach | lib/neo4j/services/JmxService.js:138-141 | the loop builds every element with the given constructor, in order, and fails with the first error, exactly when some element cannot be built |
| JmxService.QueryAfter | lib/neo4j/services/JmxService.js:136-142 | every element is built into a bean, in order; the hook succeeds exactly when the answer is readable and every element parses, else fails with the first failing element's error |
| JmxService.GetDomainAfterAsWritten | lib/neo4j/services/JmxService.js:70-78 | as written, the loop runs `Number(data.beans)` rounds (none for NaN), each building a bean from `data.beans[i]` |
| JmxService.DomainBeansLostAsWritten | lib/neo4j/services/JmxService.js:70-78 | as written, an answer listing bean objects comes back with no beans |
| JmxService.GetDomainAfter | lib/neo4j/services/JmxService.js:70-78 | bounded by `data.beans.length`, every bean of the answer is built, in order, failing exactly when the answer or its list cannot be read or an element does not parse |
| JmxService.DomainBeansKept | lib/neo4j/services/JmxService.js:70-78 | corrected, an answer listing named bean objects keeps every bean |
| JmxService.JmxService.constructor | lib/neo4j/services/JmxService.js:33-40 | the service starts unloaded, with an empty kernel-instance cache that forwards through callback argument 0 and keeps answers for 2000 ms |
| JmxService.JmxService.KernelInstance | lib/neo4j/services/JmxService.js:160-174 | a call the cache forwards goes through the preflight gate as a kernel query; a cached or already-waiting call does not reach the service; the callback waits unless the answer is cached |
| JmxServiceSrc.GetBeanWrap | src/main/javascript/neo4j/services/JmxService.js:85-100 | for the domain `neo4j` the arguments are left alone and the kernel instance awaited; otherwise domain and object name are escaped in place and the resource is called |
| JmxServiceSrc.RewrittenForKernel | src/main/javascript/neo4j/services/JmxService.js:86-93 | the caller's arguments keep their length: position 0 becomes `org.neo4j`, position 1 the escaped `instance,name=<name>`, every later one stays |
| JmxServiceSrc.KernelInstanceArrives | src/main/javascript/neo4j/services/JmxService.js:87-92 | the waiting arguments are rewritten in place as `RewrittenForKernel` says and the resource is called with them |
| JmxServiceSrc.RevisionsAgreeOnNeo4jBean | src/main/javascript/neo4j/services/JmxService.js:86-93 | with three arguments both revisions make the same call; with more, the src revision passes the extra ones on |
| JmxServiceSrc.Neo4jBean | src/main/javascript/neo4j/services/JmxService.js:81-141 | `getBean("neo4j", name, callback)` ends in a call for `org.neo4j` with the escaped `instance,name=<name>` and the callback |

## Left out

- The real HTTP exchange: the jQuery `$.ajax` call (`lib/neo4j/Web_old.js`, `src/main/javascript/neo4j/Web.js`) and the node.js shim are I/O. `Transport` records each request as method, URL and body, and the answer is a parameter of the operation that receives it.
- Timers: `setTimeout`/`setInterval`, the heartbeat's polling interval, `waitForPulse`, `stop`, and the deferral of `callListeners` and of the `src` provider's callbacks. A beat, the expiry of a cached result and the delivery of an answer are explicit method calls.
- The clock read by `adjustRequestedTimespan`: `now` is a parameter.
- Events, `proxy` and `log`: `trigger` and `log` calls are recorded as data (event name, arguments) and never dispatched.
- `JSON.parse`, `JSON.stringify`, `escape` and `_.bindAll`/`_.extend` are library calls: JSON text is a parameter or an uninterpreted function, `escape` is a function parameter.
- `looksLikeUrl`'s regular expression (`lib/neo4j/Web_old.js:281-284`) and `setWebProvider` in both revisions are not modelled; the provider is the parameter of the exchange.
- `XDomainRequest` (`lib/neo4j/Web_old.js:93-100`) is browser I/O and is not modelled.
- The `get`/`post`/`put`/`del` helpers of `Web` and `GraphDatabase` (lib revision, `lib/neo4j/GraphDatabase.js:344-397`) only forward to `ajax` with a fixed method; the forwarding is modelled through the `src` revision's URL prefixing.
- `GraphDatabase`: `query` (forwarded to the Cypher engine), `getNodeOrRelationship` (`lib/neo4j/GraphDatabase.js:226-239`), `getAvailableRelationshipTypes` (252-259), `promiseRelationshipOrRelationshipUrl` (441-447), `toJSONString` of the lib revision (462-464) and `stopHeartbeat` are not modelled. `node`/`relationship` are modelled as the choice between fetching and creating, not as the chained promises of the model objects; the `console.log` on a failed reference-node lookup is not modelled.
- GraphDatabaseManager.Manager.ServicesUnavailable: the server named in the log message is a parameter, because the source reads an unset `this.url`.
- Node.RemoveAttempts: counts the DELETEs of the node only; the deletion of its relationships after a conflict and the requests it makes are not modelled.
- Node.TraverseClass: the response mapping of `traverse` is not modelled, only its choice of model class and URL.
- QueryResult.QueryResult.Next: past the last row it answers `None`, where the source builds a row over `undefined` that fails on first use.
- Heartbeat.Heartbeat.ProcessMonitorData: an answer with new data (a number in the first series) must have `timestamps` an array of numbers and `data` an object of arrays with distinct keys; the source throws when `timestamps` or a series to splice is missing, and stores a timestamp that is not a number, which the model's integer `endTimestamp` cannot hold. Answers without data, such as `{}` or `{"data":{}}`, are taken as they come. A first series or a `timestamps` that is not an array is read as empty, where JavaScript would read a string's length and characters or an object's own members. The listener data does not carry the `server` field. The window is narrowed with the corrected six-hour test, see the findings.
- ConfigService.ToPropertiesMap: demands that every entry of the answer is an object, because reading `key` of `null` or `undefined` throws in the source.
- BackupService.GetJob: demands that no job the search reaches is `null` or `undefined`, because reading its `id` throws in the source.
- JsValue.ToNumber: reads only unsigned decimal digits (and the empty text as 0); signs, whitespace, decimals, exponents and hexadecimal text come out as not-a-number, and NaN is `None`.
- JmxService.GetDomainAfterAsWritten: the coercion of the loop bound is modelled through `JsValue.ToNumber`, with the limits above; the rewritten `data.beans` is handed on as a `DomainAnswer` rather than written into the caller's object.
- Aliasing is not modelled: the listeners' data shares `allData.data` with the heartbeat, and `splice` also removes the appended samples from the server's answer object.
- `for (key in object)` over integer-like keys, which JavaScript visits first in numeric order, is modelled in insertion order; `for-in` over a string is not modelled.
- The declarative service shells (monitor, lifecycle, import, console, export), the index classes, the Cypher execution engine and the `Path` model only declare resources or forward to logic modelled here, and are not part of this model.
- Promises.PromiseHeap.Complete: what a stored handler does to the promise it controls is stated only for the handlers reached before the first one that settles or changes a reachable promise (`Reached`); what later handlers of the same promise do, and the GETs started when a promise holds more than one handler, are not stated. A handler that throws, which ends `_callHandlers` early, is not modelled.
- Promises.PromiseHeap.Fulfill: inherits the limit of `Complete`; the completion of a chained promise once the other completes is shown for one scenario (`ChainFulfilledLater`), not stated for every heap.
- Promises.PromiseHeap.Reply: inherits the limit of `Complete`.
- Promises.PromiseHeap.Then: the later settlement of the returned promise on a pending parent follows from `Complete` only under its limit; it is shown by `ThenFulfilledLater` and `ThenFailedLater`.
- Promises.PromiseHeap.Chain: the later completion of the chained promise is shown by `ChainFulfilledLater` and `ChainFailedLater`, not stated for every heap.
- Promises.PromiseHeap.Join: the result is stated for inputs all settled or all pending at the call; inputs that complete later are shown for two inputs (`JoinLater`), not for any number, and a mix of settled and pending inputs is not stated.
- Promises.PromiseHeap.WaitForNext: the later steps of the join are stated one handler at a time, through `Complete`'s limit; a chain of several pending inputs is not stated as a whole.
- Promises.PromiseHeap.HookFailures: on a mix of settled and pending inputs only the first failure and the outcomes are stated, not the hooks left on the pending ones.
- GraphDatabase.GraphDatabase.GetServiceDefinition: the value its promise later takes is stated through `Complete`'s limit and shown by the scenarios (`DiscoveryArrives`, `DefinitionRequested`, the `...Later` methods), not stated for every heap.
- GraphDatabase.GraphDatabase.NodeUri: every state at the call is stated (settled, failed, pending, first call); the URL a pending promise later yields is shown by `NodeUriLater`, not stated for every heap.
- GraphDatabase.GraphDatabase.RelUri: as for `NodeUri`; the later URL is shown by `RelUriLater`.
- GraphDatabase.GraphDatabase.IsNodeUrl: as for `NodeUri`; the later answer is shown by `IsNodeUrlLater`.
- GraphDatabase.GraphDatabase.GetReferenceNodeUrl: as for `NodeUri`; the later answer is shown by `ReferenceNodeLater`.
- GraphDatabase.GraphDatabase.PromiseNodeOrNodeUrl: as for `NodeUri`; the later answer is shown by `PromiseNodeOrNodeUrlLater`.
- WebOld.ErrorHandler: builds the exception with `HttpException.Create`, the constructor of `src/main/javascript/neo4j/exceptions/HttpException.js` as written; the `lib` copy of that class is not part of this model and is assumed to be the same.
- Callbacks that throw: a caller's `success` that throws inside `Web_old.js`'s error handler (lines 56-67) is swallowed and falls through to the failure path, and a throwing `failure` is then called a second time; these exceptions, and a handler that throws inside `_callHandlers`, are not modelled. Callbacks are recorded as calls and never run.
- Node.Node.Init: a `definition` of `undefined` or `null` (an answer without `data`) makes the source throw a `TypeError` at its first read; the model reads every field of such a value as `undefined` and initialises an unsaved node with no properties.
- Relationship.Relationship.Init: the same `TypeError` on an `undefined` or `null` definition is not modelled.
- Node.Node.RelationshipsRequest: only the GET is modelled; the mapping of the answer to `Relationship` objects is not.
- Node.Node.Save: takes the service definition as a value; the source waits for `db.getServiceDefinition()`, and when that promise fails the save fails with the discovery error and no POST is sent, which the model does not state.
- Indexes.Indexes.Create: takes the service definition (`urls`) as a value; when `db.getServiceDefinition()` fails the source sends no POST and fails with that error, which the model does not state.
- Indexes.RemoveRequest: takes the service definition (`urls`) as a value; when `db.getServiceDefinition()` fails the source sends no DELETE and fails with that error, which the model does not state.
- Relationship.Relationship.Save: takes the create URL as a parameter; the source obtains it through `getStartNode` (modelled by `GetNode`) and the start node's `getCreateRelationshipUrl` (modelled by `Node.Node.CreateRelationshipUrl`), whose throw for an unsaved start node is not modelled here.
- Relationship.Relationship.IsStartNode: compares self URLs as values; `===` on two object-valued URLs compares identity, which the model does not have.
- PropertyContainer.Container.GetProperties: answers the properties as a value; the source hands out `_data` itself, so a caller's later writes to it change the container. Aliasing of `_data` is not modelled.
- Indexes.StripConfig: answers a stripped copy; the source deletes `provider` and `template` from the caller's own config object, which the caller sees afterwards.
- Indexes.Indexes.ListAll: the configuration and provider each listed index gets from the answer are not stated, only which objects are listed and cached and that every other cached object is untouched. The service definition (`urls`) is taken as a value: when `db.getServiceDefinition()` fails the source sends no GET and fails with that error, which the model does not state.
- JmxBean.GetAttribute: name matching lower-cases ASCII letters only; `toLowerCase` folds every Unicode letter.
- JsValue.ToText: an array's text is `[array]`, not its elements joined with `,`, and `LooseEquals` does not turn an array or object into text before comparing; so `["x"] == "x"` is false in the model. BackupService.TriggerManualErrorOnlyNoFoundation therefore does not recognise an `exception` field holding a one-element array of the name, which the source's `==` would; the loop bound of JmxService is not affected, because `JsValue.ToNumber` converts a one-element array through its element.
- JsValue.LooseEquals: a boolean compared with a value of another type is not turned into a number first; two objects or two arrays are compared by content, where JavaScript's `==` compares identity, so two distinct objects with equal members are equal in the model.
- Reads of members of values of the wrong type: a `null` service definition answer makes `loadServiceDefinition` throw at `data.resources` (lib/neo4j/Service.js:226), where `Service.Service.DefinitionArrives` stores `undefined` resources; `BackupService`'s job search reads a `jobList` that is an object as no jobs, where the source's `for-in` visits its members (lib/neo4j/services/BackupService.js:96); `Node.DataOf` reads truthy data that is not an object as no properties.
- JmxService.JmxService.KernelInstance: the kernel query's own GET of `resources['kernelquery']` appears in no trace; the model records the call reaching the preflight, and `JmxService.KernelInstanceOf` states what its answer becomes.
- Object lookups of inherited members: keys such as `constructor`, `toString` or `__proto__` are found on every JavaScript object through its prototype; the heartbeat's listener table, the query result's column map, the index cache, a container's properties (`PropertyContainer.Container.HasProperty` and `GetProperty`, where JavaScript finds `toString` or `constructor` on `_data`) and the manager's `this[service]` test (src/main/javascript/neo4j/GraphDatabaseManager.js:130) model only own keys.

## Findings

| source | as written | input that shows it | evidently intended | confidence | as-written member | corrected member |
|---|---|---|---|---|---|---|
| lib/neo4j/GraphDatabaseHeartbeat.js:119-141 | removing a listener by function deletes it but never lowers `listenerCounter`, because the statement `listenerWasRemoved;` at line 126 sets nothing | `addListener(f)` then `removeListener(f)`: no listener is left, the counter stays 1 and the next beat still polls | the counter falls back to 0 and polling stops | not executed | Heartbeat.RemoveByFunctionAsWritten | Heartbeat.RemoveByFunctionCorrected |
| lib/neo4j/GraphDatabaseHeartbeat.js:103-110 | `addListener` returns the incremented `idCounter`, one more than the key the listener is stored under | the first listener is stored under `"0"` and the caller gets 1; `removeListener(1)` removes nothing | the id returned is the storage key | not executed | Heartbeat.RemoveByIdAsWritten | Heartbeat.RemoveByIdCorrected |
| lib/neo4j/GraphDatabaseHeartbeat.js:281-286 | the last branch repeats the `timespan.day` test, so the step to "35 minutes ago" is dead | a gap of seven hours leaves the requested window where it is | the last test is on six hours | not executed | Heartbeat.AdjustedEndSkipsMinutes | Heartbeat.AdjustedEndCorrectedNarrows |
| src/main/javascript/neo4j/exceptions/HttpException.js:29 | `Error.call(this, message)` builds a separate error and leaves the exception's own message empty | `new HttpException(404)` has an empty message instead of the default text | the exception carries the given or the default message | not executed | HttpException.MessageIsLost | HttpException.CreateIntended |
| src/main/javascript/neo4j/Service.js:53-54 | each call rebinds the factory-wide `callbackWrap`/`errorHandler` to the proxy of the previous binding, so the first service that calls keeps winning | two services of one class: the second's answer is handled in the context of the first | each call's hooks run with the service that made it | not executed | ServiceSrc.TwoServices | ServiceSrc.BindTo |
| lib/neo4j/models/Node.js:113-142 | `hasDeletedRelationships` is local to each call of the retrying function, so the guard is always false | a server that answers 409 three times then succeeds gets four DELETEs | at most one retry after deleting the relationships | not executed | Node.RemoveRetriesWithoutBound | Node.RemoveIntendedAtMostTwice |
| lib/neo4j/services/JmxService.js:72 | the loop bound is `l = data.beans`, the array itself, not its length | `{beans: [{name: "org.neo4j:name=Kernel"}]}` comes back with no beans, because the array compares as NaN | the bound is `data.beans.length` | not executed | JmxService.DomainBeansLostAsWritten | JmxService.DomainBeansKept |
