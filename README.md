# aiocrawler engine core in Dafny

This project models the sequential rules inside the engine of aiocrawler, an
asyncio web crawler, and proves properties of them. The model covers:

- **Startup and cleanup registration.** `on_startup` accepts tasks only until the collector has run them; `on_cleanup` always accepts.
- **Middleware chain assembly.** Default and user `(middleware, priority)` entries are filtered, stably sorted by priority and instantiated. `BaseMiddleware` and `SetDefaultMiddleware` are modelled too.
- **The four hook chains.**
  - Pre-request: every hook runs.
  - Post-exception and post-response: the chain stops at the first truthy result.
  - Post-item: the chain stops at the first `Item`.
  - `__run_task` turns a raised exception into `None`.
- **What the engine does with a downloader result.** Exceptions go to the error path; responses go to the spider callback. The handled result is fanned out: requests go to the scheduler, items through the declared-field copy and the item pipeline.
- **One iteration of the request loop.** A request is popped, filtered, pre-processed, downloaded and handled.
- **The shutdown flags.** Covers the interrupt-signal counter, `close_crawler`, the loop guards and the supervisor's exit test.

Modules:

- `Types` (types.dfy): requests, responses, items, settings and Python classes, with Python truthiness. It also defines `Value`, the values hooks and callbacks return.
- `Middlewares` (middlewares.dfy): the package's `__all__`, `BaseMiddleware`, and `SetDefaultMiddleware`, which fills request defaults in place.
- `Assembly` (assembly.dfy): the filter and the stable priority sort of the chain.
- `Chains` (chains.dfy): the hook chains, as functions of the sequence of values the hooks return.
- `Dispatch` (dispatch.dfy): the calls the engine makes on the scheduler, filter, downloader and collector, as event sequences, with lemmas about them.
- `Shutdown` (shutdown.dfy): the shutdown state machine and its run lemmas.
- `Crawler` (engine.dfy): class `Engine`. Its methods mutate the task lists, the middleware list and the shutdown flags. They record in a ghost event log the calls made on the scheduler, the filter, `downloader.download` and the collector. `downloader.__parse_html__` is not logged; it is a function parameter. Each method is proved against the functions above.

Middleware hooks, spider callbacks, `__parse_html__`, the filters and the downloader are user or backend code. Each is a function parameter giving what the call returns; they are bundled in `Dispatch.Collaborators`. A hook is given by its index in the chain.

## Model

| member | source | states |
|---|---|---|
| Middlewares.ClassNamed | aiocrawler/middlewares/__init__.py:7-12 | each name the package exports resolves to a class of that name deriving from BaseMiddleware |
| Middlewares.BaseMiddleware.constructor | aiocrawler/middlewares/middleware.py:11-14 | the instance stores exactly the given settings and engine |
| Middlewares.BaseMiddleware.ProcessRequest | aiocrawler/middlewares/middleware.py:16-17 | returns None and may change nothing |
| Middlewares.BaseMiddleware.ProcessResponse | aiocrawler/middlewares/middleware.py:19-20 | returns None, which is falsy, so the response chain moves on |
| Middlewares.BaseMiddleware.ProcessException | aiocrawler/middlewares/middleware.py:22-23 | returns None, which is falsy, so the exception chain moves on |
| Middlewares.BaseMiddleware.ProcessItem | aiocrawler/middlewares/middleware.py:25-26 | returns None, which is not an Item, so the item chain moves on |
| Middlewares.SetDefaultMiddleware.constructor | aiocrawler/middlewares/middleware.py:11-14 | the inherited constructor stores the settings and engine |
| Middlewares.SetDefaultMiddleware.ProcessRequest | aiocrawler/middlewares/set_default_middleware.py:12-19 | a missing timeout becomes DEFAULT_TIMEOUT, missing headers DEFAULT_HEADERS, missing meta `{}`; present fields are kept, no other request field is written, the result is None |
| Middlewares.WithDefaultsFills | aiocrawler/middlewares/set_default_middleware.py:12-19 | afterwards all three fields are present and each field that was present (an empty header map included) is unchanged |
| Middlewares.WithDefaultsIdempotent | aiocrawler/middlewares/set_default_middleware.py:12-19 | filling defaults twice equals filling them once |
| Middlewares.ProcessRequestTwice | aiocrawler/middlewares/set_default_middleware.py:12-19 | running the hook twice on a request leaves it as one run does |
| Assembly.KeptDefaults | aiocrawler/engine.py:124-126 | every kept default entry has a priority in 0..1000 and a name in `__all__` |
| Assembly.KeptDefaultsExactly | aiocrawler/engine.py:124-126 | a default entry is kept if and only if it is configured, its priority is in 0..1000 and its name is exported |
| Assembly.KeptUsers | aiocrawler/engine.py:128-130 | every kept user entry has a valid priority and passes the class test |
| Assembly.KeptUsersAppend | aiocrawler/engine.py:128-130 | the user filter works entry by entry: filtering a concatenation concatenates the results |
| Assembly.KeptUsersTwice | aiocrawler/engine.py:128-130 | no deduplication: the same entries listed twice are kept twice |
| Assembly.InsertByPriority | aiocrawler/engine.py:131 | an insertion step adds exactly the one entry |
| Assembly.SortByPriority | aiocrawler/engine.py:131 | the sort is a permutation of its input |
| Assembly.InsertSorted | aiocrawler/engine.py:131 | inserting into a sorted chain keeps it sorted |
| Assembly.SortSorted | aiocrawler/engine.py:131 | the sorted chain is in non-decreasing priority order |
| Assembly.InsertStable | aiocrawler/engine.py:131 | an inserted entry stays ahead of the later entries of its priority |
| Assembly.SortStable | aiocrawler/engine.py:131 | the sort is stable: the entries of each priority keep their input order |
| Assembly.AssembledProperties | aiocrawler/engine.py:124-131 | the assembled chain has only priorities in 0..1000 and is sorted. Its length is the number of kept entries and it is their permutation. At equal priority the defaults come before the user entries, each group in configured order |
| Assembly.AsWrittenDropsSubclass | aiocrawler/engine.py:129 | with the test as written, a user subclass of BaseMiddleware at priority 500 is dropped while `object` is kept |
| Assembly.IntendedKeepsSubclass | aiocrawler/engine.py:129 | with the corrected test the same subclass is kept, and every kept user entry derives from BaseMiddleware |
| Assembly.IntendedKeptExactly | aiocrawler/engine.py:129 | with the corrected test a user entry is kept if and only if it is configured with a valid priority and derives from BaseMiddleware |
| Chains.FirstWhere | aiocrawler/engine.py:175-178 | the index found is the first whose result stops the loop, or the length when none does |
| Chains.RaisingHookActsAsNone | aiocrawler/engine.py:71-80 | a hook that raises gives every chain the same results as one that returned None |
| Chains.ChainStopsAtFirstTruthy | aiocrawler/engine.py:175-178 | the chain calls hooks up to and including the first truthy one and no later hook; its value is that result, otherwise the last hook's result |
| Chains.ExceptionChainSpec | aiocrawler/engine.py:173-185 | the error request is recorded if and only if the chain's value is None. The error callback runs exactly when recorded and resolvable, and then supplies the result. Otherwise the chain's value is returned unchanged |
| Chains.ExceptionLastResultDecides | aiocrawler/engine.py:174-180 | only the last result is compared with None: `[None, False]` records no error while `[False, None]` does |
| Chains.BaseExceptionChainRecords | aiocrawler/engine.py:173-183 | a chain of BaseMiddleware hooks calls every hook and records the error |
| Chains.ResponseChainSpec | aiocrawler/engine.py:187-208 | the first truthy result stops the chain. The callback runs if and only if it is resolvable and the chain ends with a Response or None. It then gets the (possibly replaced) response carrying the request's meta. Any other chain value, truthy or falsy, is returned unchanged |
| Chains.ResponseFalsyLastSkipsCallback | aiocrawler/engine.py:190-197 | only the last result is tested: with results `[None, False]` a defined callback is skipped and `False` is returned, while `[False, None]` delivers the parsed response to the callback |
| Chains.DeclaredFields | aiocrawler/engine.py:234-238 | a name is listed if and only if the class declares it as a Field |
| Chains.DeclaredCopyExact | aiocrawler/engine.py:217-220 | the copy has the item's class; its keys are exactly the declared Field names, each holding the original's value or None |
| Chains.ItemChainSpec | aiocrawler/engine.py:210-222 | the item chain stops at the first Item result, which replaces the item, and otherwise keeps the original. The handler yields a copy if and only if the chosen item is non-empty, and the copy is the declared-field copy |
| Chains.BaseItemChainKeepsItem | aiocrawler/engine.py:211-215 | a chain of BaseMiddleware item hooks calls every hook and keeps the item |
| Dispatch.ElementsSpec | aiocrawler/engine.py:152-155 | a falsy handled value causes no call; a value that is neither a list nor an iterator is handled as a one-element list; elements other than requests and items cause no call |
| Dispatch.FanOutSendsRequestsInOrder | aiocrawler/engine.py:157-168 | the fan-out sends to the scheduler exactly the requests of the handled list, in list order |
| Dispatch.RequestsOfCount | aiocrawler/engine.py:158-163 | each request is sent as many times as it occurs in the handled list |
| Dispatch.FanOutRecordsNoError | aiocrawler/engine.py:157-168 | the fan-out never records an error request |
| Dispatch.FailedDownloadRecordsOnce | aiocrawler/engine.py:144-146 | a failed download records the error request once when the exception chain ends with None, and never otherwise |
| Dispatch.FailedWithBaseChain | aiocrawler/engine.py:173-185 | with BaseMiddleware exception hooks and no error callback, a failed download makes exactly two calls: the exception is collected and the error request is recorded |
| Dispatch.RejectedRequestNotFetched | aiocrawler/engine.py:262-265 | a request the filter rejects reaches no pre-request hook and no download |
| Dispatch.AcceptedRequestFetched | aiocrawler/engine.py:262-273 | an accepted request is collected, then passes every pre-request hook in chain order, then is downloaded |
| Shutdown.SignalEffect | aiocrawler/engine.py:275-283 | each signal adds one to the counter; the first sets only the graceful flag, each later one only the forcing flag; the reason becomes the signal's |
| Shutdown.ForcedCloseSkipsDrain | aiocrawler/engine.py:285-291 | a forced close leaves the loop guards running but lets the supervisor exit, and records the reason |
| Shutdown.GracefulCloseDrains | aiocrawler/engine.py:336-338 | a graceful close stops the loops, and the supervisor still waits for the main job |
| Shutdown.RunMonotone | aiocrawler/engine.py:275-291 | over any run of signals and closes the counter counts the signals, both flags only go from false to true, and the finish reason is the last one given |
| Shutdown.SignalsStopCrawler | aiocrawler/engine.py:260 | after one signal the request and word loops stop; after two the supervisor exits whether or not the main job is done |
| Crawler.Engine.constructor | aiocrawler/engine.py:32-49 | no middlewares or tasks, a zero signal counter and both flags false |
| Crawler.Engine.OnStartup | aiocrawler/engine.py:60-65 | the startup list is unchanged once the startup tasks are done, otherwise it gains exactly the task at its end |
| Crawler.Engine.OnCleanup | aiocrawler/engine.py:67-68 | the cleanup list always gains exactly the task at its end |
| Crawler.Engine.KeptDefaultEntries | aiocrawler/engine.py:124-126 | the loop keeps the entries of `Assembly.KeptDefaults` |
| Crawler.Engine.KeptUserEntries | aiocrawler/engine.py:128-130 | the loop keeps the entries of `Assembly.KeptUsers` under the test as written |
| Crawler.Engine.KeptEntries | aiocrawler/engine.py:124-130 | the kept defaults followed by the kept user entries |
| Crawler.Engine.Initialize | aiocrawler/engine.py:122-132 | the chain is the assembled chain, instantiated in order: one new middleware per entry, of its class, holding the settings and this engine |
| Crawler.Engine.RunHookChain | aiocrawler/engine.py:175-178 | the loop calls `Chains.ChainCalls` hooks and ends with `Chains.ChainValue` |
| Crawler.Engine.HandleDownloaderException | aiocrawler/engine.py:173-185 | its result, hook count, error record and callback call are those of `Chains.HandleException` |
| Crawler.Engine.HandleDownloaderResponse | aiocrawler/engine.py:187-208 | its result, hook count and delivered response are those of `Chains.HandleResponse` |
| Crawler.Engine.HandleSpiderItem | aiocrawler/engine.py:210-222 | the result is `Chains.SpiderItem` of the item chain's results |
| Crawler.Engine.CopyDeclared | aiocrawler/engine.py:217-220 | the field-by-field loop builds `Chains.DeclaredCopy` |
| Dispatch.FilterAndSendSendsKept | aiocrawler/engine.py:224-232 | the item is filtered first; the filtered value, never the original, is collected and sent once each, exactly when it is truthy |
| Crawler.Engine.FilterAndSend | aiocrawler/engine.py:224-232 | the item is filtered; a truthy filtered item is collected and sent to the scheduler |
| Crawler.Engine.CollectOutput | aiocrawler/engine.py:142-150 | the exception or response is collected, then handled by its chain |
| Crawler.Engine.HandleElement | aiocrawler/engine.py:158-168 | one element makes the calls of `Dispatch.ElementEvents` |
| Crawler.Engine.FanOut | aiocrawler/engine.py:157-168 | the loop makes the calls of `Dispatch.FanOutEvents`, element by element |
| Crawler.Engine.HandleDownloaderOutput | aiocrawler/engine.py:136-171 | the calls made are `Dispatch.OutputEvents` of the downloader's result |
| Crawler.Engine.RunPreRequestHooks | aiocrawler/engine.py:268-269 | every pre-request hook is called once, in chain order |
| Crawler.Engine.HandleAccepted | aiocrawler/engine.py:266-273 | an accepted request is collected, pre-processed, downloaded and its result handled |
| Crawler.Engine.HandleSchedulerRequestStep | aiocrawler/engine.py:262-273 | one request-loop iteration makes the calls of `Dispatch.StepEvents` |
| Crawler.Engine.CloseCrawler | aiocrawler/engine.py:285-291 | the state moves as `Shutdown.Close` says; flags already set stay set |
| Crawler.Engine.ShutdownSignal | aiocrawler/engine.py:275-283 | the state moves as `Shutdown.Signal` says, and the counter goes up by one |

## Left out

- Scheduling: asyncio and aiojobs (`spawn`, `ensure_future`, `asyncio.wait`, the supervisor's polling and `run`) are not modelled. Spawned calls and fan-out tasks are recorded in program order; their interleaving is not modelled.
- Signal registration, the `PROCESS_DALEY` sleeps and the random download delay are left out: they are operating-system calls, timing, randomness and floating point.
- Backend construction in `__initialize` (engine.py:88-120) is I/O and foreign classes. The scheduler, filter, downloader and collector are external: only the calls made on them are recorded.
- `__parse_html__` is a downloader method that is not part of this model. It is a function parameter.
- The word loop's body (engine.py:245-254) and logging are not modelled. Only the word loop's guard is (`Shutdown.LoopsContinue`).
- Callback resolution by `hasattr`/`isfunction` is modelled as name membership in the spider's class (`Spider.HasAttr`). The error callback is `None` when it is not a plain function.
- Chains.RunTask: a hook defined with `def` that raises does so before `__run_task` is entered, so that exception propagates. Every hook outcome is modelled as passing through `__run_task`, which is exact for coroutine hooks. Exceptions raised by spider callbacks are not modelled either.
- Crawler.Engine.HandleAccepted: the pre-request hooks run on the request, but their effect on it is not modelled, apart from `SetDefaultMiddleware`'s, which is modelled on its own. The meta the response receives is the request's meta when the handler is entered.
- Crawler.Engine.Initialize: instantiating an accepted class that does not take the middleware constructor's arguments (such as `object`) raises `TypeError`; this is not modelled.
- `get_fields` reads only the item class's own `__dict__` (inherited fields are not copied). The model keeps this: an item class carries only its own attributes.
- Item truthiness is dictionary truthiness (non-empty); Python objects that define `__bool__` or `__len__` are not modelled.
- A new Response object from `__parse_html__` or a hook is a value here: setting `response.meta` builds an updated value, and no other reference to the old object observes it. Also, engine.py:204 makes `response.meta` the same dictionary object as `request.meta`. A callback that edits one in place changes the other in Python; in the model, meta maps are values, so this sharing is not captured.
- Middlewares.SetDefaultMiddleware.ProcessRequest: the request receives the settings' own `DEFAULT_HEADERS` dictionary, not a copy. A later in-place change to the request's headers changes the settings (and every other request given the default) in Python. Header maps are values in the model, so this aliasing is not captured.
- Python classes are identified by name (`Types.PyClass`). A user's own class that happens to be named `BaseMiddleware` passes the subclass tests as if it were the package's class; Python would tell them apart.
- `DEFAULT_MIDDLEWARES` is a dictionary; the model takes its items in iteration order as a sequence.
- The default `BaseCollector()` constructed when none is given, aiocrawler/spider.py and aiocrawler/extensions/redis_connector.py are not part of this model.

## Findings

| source | as written | input that shows it | evidently intended | confidence | as-written member | corrected member |
|---|---|---|---|---|---|---|
| aiocrawler/engine.py:129 | `issubclass(middlewares.BaseMiddleware, mw)` accepts only BaseMiddleware and its base classes | `MIDDLEWARES = [(MyMiddleware, 500)]` with `MyMiddleware(BaseMiddleware)`: the entry is dropped; `[(object, 500)]` is kept | `issubclass(mw, middlewares.BaseMiddleware)`, keeping exactly the user's middleware classes | not executed | Assembly.AsWrittenDropsSubclass | Assembly.IntendedKeptExactly |

`Crawler.Engine.Initialize` keeps the test as the engine writes it. Every
property of the assembled chain in `Assembly` is proved for any user test,
so it holds for the written test and for the corrected one.
