/**
 The engine object: its start-up and clean-up registrations, the middleware
 chain it assembles, the handlers it runs on every downloader result, one
 iteration of its request loop, and its shutdown flags. The scheduler, the
 filter, the downloader and the collector are external: the calls made on them
 are recorded in the ghost event log `log`.
 */
module Crawler {
  import opened Types
  import opened Middlewares
  import opened Assembly
  import opened Chains
  import opened Dispatch
  import Shutdown

  /** A registered start-up or clean-up call: `(target, args, kwargs)`. */
  datatype Task = Task(target: string, args: seq<string>, kwargs: map<string, string>)

  /** The collector attributes that the engine reads or writes. */
  class Collector {
    var doneStartupTasks: bool
    var finishReason: string
  }

  class Engine {
    const spider: Spider
    const settings: Settings
    const collector: Collector
    var middlewares: seq<BaseMiddleware>
    var signalIntCount: nat
    var startupTasks: seq<Task>
    var cleanupTasks: seq<Task>
    var shuttingDown: bool
    var shutdown: bool
    /** The calls made on the scheduler, filter, downloader and collector. */
    ghost var log: seq<Event>

    constructor (spider: Spider, settings: Settings, collector: Collector)
      ensures this.spider == spider && this.settings == settings && this.collector == collector
      ensures middlewares == [] && startupTasks == [] && cleanupTasks == []
      ensures signalIntCount == 0 && !shuttingDown && !shutdown
      ensures ShutdownState() == Shutdown.Initial(collector.finishReason)
      ensures log == []
    {
      this.spider := spider;
      this.settings := settings;
      this.collector := collector;
      middlewares := [];
      signalIntCount := 0;
      startupTasks := [];
      cleanupTasks := [];
      shuttingDown := false;
      shutdown := false;
      log := [];
    }

    /** Registers a start-up call, unless the start-up calls have already run. */
    method OnStartup(task: Task)
      modifies this`startupTasks
      ensures collector.doneStartupTasks ==> startupTasks == old(startupTasks)
      ensures !collector.doneStartupTasks ==> startupTasks == old(startupTasks) + [task]
    {
      if collector.doneStartupTasks {
        return;
      }
      startupTasks := startupTasks + [task];
    }

    /** Registers a clean-up call; always accepted. */
    method OnCleanup(task: Task)
      modifies this`cleanupTasks
      ensures cleanupTasks == old(cleanupTasks) + [task]
    {
      cleanupTasks := cleanupTasks + [task];
    }

    /** Builds the middleware chain (engine.py:122-132): the kept default and
        user entries, stably sorted by priority, each instantiated with the
        settings and this engine. The user test is the one the engine writes. */
    method Initialize()
      requires middlewares == []
      modifies this`middlewares
      ensures |middlewares| == |Assembled(settings, AsWrittenUserTest)|
      ensures forall i :: 0 <= i < |middlewares| ==>
        && middlewares[i].cls == Assembled(settings, AsWrittenUserTest)[i].cls
        && middlewares[i].settings == settings && middlewares[i].engine == this
        && fresh(middlewares[i])
    {
      var entries := KeptEntries();
      var sorted := SortByPriority(entries);
      var built: seq<BaseMiddleware> := [];
      var k := 0;
      while k < |sorted|
        invariant k <= |sorted| && |built| == k
        invariant forall m :: 0 <= m < k ==>
          && built[m].cls == sorted[m].cls
          && built[m].settings == settings && built[m].engine == this
          && fresh(built[m])
      {
        var mw := new BaseMiddleware(sorted[k].cls, settings, this);
        built := built + [mw];
        k := k + 1;
      }
      middlewares := built;
    }

    /** The entries kept from the default and the user configuration
        (engine.py:124-130), in configuration order. */
    method KeptEntries() returns (entries: seq<Entry>)
      ensures entries == KeptDefaults(settings.defaultMiddlewares)
                         + KeptUsers(settings.middlewares, AsWrittenUserTest)
    {
      var defaults := KeptDefaultEntries();
      var users := KeptUserEntries();
      entries := defaults + users;
    }

    /** The DEFAULT_MIDDLEWARES loop (engine.py:124-126). */
    method KeptDefaultEntries() returns (entries: seq<Entry>)
      ensures entries == KeptDefaults(settings.defaultMiddlewares)
    {
      var defaults := settings.defaultMiddlewares;
      entries := [];
      var i := 0;
      while i < |defaults|
        invariant i <= |defaults|
        invariant entries == KeptDefaults(defaults[..i])
      {
        var (name, key) := defaults[i];
        if 0 <= key <= 1000 && name in ModuleAll {
          entries := entries + [Entry(ClassNamed(name), key)];
        }
        assert defaults[..i + 1][..i] == defaults[..i];
        i := i + 1;
      }
      assert defaults[..i] == defaults;
    }

    /** The MIDDLEWARES loop (engine.py:128-130), with the test as written. */
    method KeptUserEntries() returns (entries: seq<Entry>)
      ensures entries == KeptUsers(settings.middlewares, AsWrittenUserTest)
    {
      var users := settings.middlewares;
      entries := [];
      var j := 0;
      while j < |users|
        invariant j <= |users|
        invariant entries == KeptUsers(users[..j], AsWrittenUserTest)
      {
        var (mw, key) := users[j];
        if 0 <= key <= 1000 && IsSubclass(BaseMiddlewareClass, mw) {
          entries := entries + [Entry(mw, key)];
        }
        assert users[..j + 1][..j] == users[..j];
        j := j + 1;
      }
      assert users[..j] == users;
    }

    /** A loop over the chain that runs one hook per middleware and stops at
        the first truthy result (engine.py:175-178 and 190-195). */
    method RunHookChain(hook: nat -> Outcome) returns (handledData: Value, hooksCalled: nat)
      ensures hooksCalled == ChainCalls(Results(hook, |middlewares|))
      ensures handledData == ChainValue(Results(hook, |middlewares|))
    {
      ghost var rs := Results(hook, |middlewares|);
      handledData := NoneV;
      hooksCalled := 0;
      while hooksCalled < |middlewares|
        invariant hooksCalled <= |middlewares|
        invariant forall j :: 0 <= j < hooksCalled ==> !Truthy(rs[j])
        invariant handledData == if hooksCalled == 0 then NoneV else rs[hooksCalled - 1]
      {
        handledData := RunTask(hook(hooksCalled));
        hooksCalled := hooksCalled + 1;
        if Truthy(handledData) {
          break;
        }
      }
      FirstWhereAt(rs, Truthy, if Truthy(handledData) then hooksCalled - 1 else hooksCalled);
    }

    /** The post-exception chain and the error path (engine.py:173-185). */
    method HandleDownloaderException(request: Request, w: Collaborators)
      returns (handledData: Value, hooksCalled: nat, errorRecorded: bool, errCallbackCalled: bool)
      ensures var o := HandleException(Results(w.processException, |middlewares|),
                                       request.errCallback, w.spider, w.errCallback);
        && handledData == o.handled && hooksCalled == o.hooksCalled
        && errorRecorded == o.errorRecorded && errCallbackCalled == o.errCallbackCalled
    {
      handledData, hooksCalled := RunHookChain(w.processException);
      errorRecorded := handledData == NoneV;
      errCallbackCalled := false;
      if errorRecorded && request.errCallback.Some? && w.spider.HasAttr(request.errCallback.value) {
        errCallbackCalled := true;
        handledData := w.errCallback(request.errCallback.value);
      }
    }

    /** The post-response chain and the spider callback (engine.py:187-208). */
    method HandleDownloaderResponse(request: Request, response: Response, w: Collaborators)
      returns (handledData: Value, hooksCalled: nat, delivered: Option<Response>)
      ensures var o := HandleResponse(Results(w.processResponse, |middlewares|), w.parseHtml(response),
                                      request.meta, request.callback, w.spider, w.callback);
        handledData == o.handled && hooksCalled == o.hooksCalled && delivered == o.delivered
    {
      var current := w.parseHtml(response);
      handledData, hooksCalled := RunHookChain(w.processResponse);
      // a Response is always truthy, so it can only be the value the loop broke on
      if handledData.Resp? {
        current := handledData.response;
      }
      delivered := None;
      if handledData.Resp? || handledData == NoneV {
        current := current.(meta := request.meta);
        if w.spider.HasAttr(request.callback) {
          delivered := Some(current);
          handledData := w.callback(request.callback, current);
        } else if handledData.Resp? {
          // the returned Response is the object whose meta was just set
          handledData := Resp(current);
        }
      }
    }

    /** The post-item chain and the declared-field copy (engine.py:210-222). */
    method HandleSpiderItem(item: Item, w: Collaborators) returns (copy: Option<Item>)
      ensures copy == SpiderItem(item, ItemResults(w, item, |middlewares|))
    {
      ghost var rs := ItemResults(w, item, |middlewares|);
      var chosen := item;
      var i := 0;
      while i < |middlewares|
        invariant i <= |middlewares|
        invariant forall j :: 0 <= j < i ==> !rs[j].It?
        invariant chosen == item
      {
        var processed := RunTask(w.processItem(i, item));
        if processed.It? {
          chosen := processed.item;
          break;
        }
        i := i + 1;
      }
      FirstWhereAt(rs, IsItem, i);
      if !Truthy(It(chosen)) {
        return None;
      }
      var copied := CopyDeclared(chosen);
      copy := Some(copied);
    }

    /** A new item of the same class holding only the declared fields, each
        read with `get` (engine.py:217-220). */
    static method CopyDeclared(item: Item) returns (copy: Item)
      ensures copy == DeclaredCopy(item)
    {
      var fields := DeclaredFields(item.cls.attributes);
      var copied: map<string, FieldValue> := map[];
      var k := 0;
      while k < |fields|
        invariant k <= |fields|
        invariant copied.Keys == set f | f in fields[..k]
        invariant forall f :: f in copied ==> copied[f] == Get(item.fields, f)
      {
        assert fields[..k + 1] == fields[..k] + [fields[k]];
        copied := copied[fields[k] := Get(item.fields, fields[k])];
        k := k + 1;
      }
      assert fields[..k] == fields;
      copy := Item(item.cls, copied);
    }

    /** `__filter_and_send` (engine.py:224-232). */
    method FilterAndSend(request: Request, item: Item, w: Collaborators)
      modifies this`log
      ensures log == old(log) + FilterAndSendEvents(item, w)
    {
      log := log + [FilterItem(item)];
      var kept := w.filterItem(item);
      if Truthy(kept) {
        log := log + [CollectItem(kept), SendItem(kept)];
      }
    }

    /** `__handle_downloader_output` (engine.py:136-171). */
    method HandleDownloaderOutput(request: Request, data: Download, w: Collaborators)
      modifies this`log
      ensures log == old(log) + OutputEvents(request, request.meta, data, |middlewares|, w)
    {
      ghost var head := OutputHead(request, data, |middlewares|, w);
      var handledData := CollectOutput(request, data, w);
      ghost var rest := FanOutEvents(Elements(handledData), |middlewares|, w);
      // a falsy result ends the handler; it yields no elements
      FanOut(request, Elements(handledData), w);
      AppendTwice(old(log), head, rest);
    }

    /** The exception or response branch (engine.py:140-151). */
    method CollectOutput(request: Request, data: Download, w: Collaborators) returns (handledData: Value)
      modifies this`log
      ensures handledData == OutputHandled(request, request.meta, data, |middlewares|, w)
      ensures log == old(log) + OutputHead(request, data, |middlewares|, w)
    {
      handledData := NoneV;
      match data {
        case Failed =>
          log := log + [CollectException];
          var h, _, recorded, _ := HandleDownloaderException(request, w);
          if recorded {
            log := log + [AppendErrorRequest(request)];
          }
          handledData := h;
        case Fetched(response) =>
          log := log + [CollectResponse(response)];
          var h, _, _ := HandleDownloaderResponse(request, response, w);
          handledData := h;
        case NoData =>
      }
    }

    /** The loop over the handled values (engine.py:158-168). */
    method FanOut(request: Request, elems: seq<Value>, w: Collaborators)
      modifies this`log
      ensures log == old(log) + FanOutEvents(elems, |middlewares|, w)
    {
      ghost var n := |middlewares|;
      var i := 0;
      assert elems[..0] == [];
      while i < |elems|
        invariant i <= |elems|
        invariant log == old(log) + FanOutEvents(elems[..i], n, w)
      {
        ghost var done := FanOutEvents(elems[..i], n, w);
        HandleElement(request, elems[i], w);
        FanOutStep(elems, i, n, w);
        AppendTwice(old(log), done, ElementEvents(elems[i], n, w));
        i := i + 1;
      }
      assert elems[..i] == elems;
    }

    /** One element of the handled result (engine.py:159-168). */
    method HandleElement(request: Request, v: Value, w: Collaborators)
      modifies this`log
      ensures log == old(log) + ElementEvents(v, |middlewares|, w)
    {
      match v {
        case Req(r) =>
          log := log + [SendRequest(r)];
        case It(x) =>
          var copy := HandleSpiderItem(x, w);
          if copy.Some? && Truthy(It(copy.value)) {
            FilterAndSend(request, copy.value, w);
          }
        case _ =>
      }
    }

    /** The body of one request-loop iteration (engine.py:262-273), given
        what the scheduler's `get_request` handed back. */
    method HandleSchedulerRequestStep(popped: Option<Request>, w: Collaborators)
      modifies this`log
      ensures popped.Some? && w.filterRequest(popped.value).Some? ==>
        log == old(log) + StepEvents(popped, w.filterRequest(popped.value).value.meta, |middlewares|, w)
      ensures popped.None? || w.filterRequest(popped.value).None? ==>
        log == old(log) + StepEvents(popped, None, |middlewares|, w)
    {
      log := log + [GetRequest];
      if popped.Some? {
        var request := popped.value;
        log := log + [FilterRequest(request)];
        AppendTwice(old(log), [GetRequest], [FilterRequest(request)]);
        var filtered := w.filterRequest(request);
        if filtered.Some? {
          HandleAccepted(filtered.value, w);
          AppendTwice(old(log), [GetRequest] + [FilterRequest(request)],
                      AcceptedEvents(filtered.value, filtered.value.meta, |middlewares|, w));
        }
      }
    }

    /** A request the filter let through (engine.py:266-273). */
    method HandleAccepted(request: Request, w: Collaborators)
      modifies this`log
      ensures log == old(log) + AcceptedEvents(request, request.meta, |middlewares|, w)
    {
      ghost var n := |middlewares|;
      log := log + [CollectRequest(request)];
      RunPreRequestHooks(request);
      AppendTwice(old(log), [CollectRequest(request)], PreRequestEvents(request, n));
      log := log + [DownloadCall(request)];
      ghost var hooks := [CollectRequest(request)] + PreRequestEvents(request, n);
      AppendTwice(old(log), hooks, [DownloadCall(request)]);
      var data := w.download(request);
      HandleDownloaderOutput(request, data, w);
      AppendTwice(old(log), hooks + [DownloadCall(request)], OutputEvents(request, request.meta, data, n, w));
    }

    /** Every pre-request hook, in chain order (engine.py:268-269). */
    method RunPreRequestHooks(request: Request)
      modifies this`log
      ensures log == old(log) + PreRequestEvents(request, |middlewares|)
    {
      var i := 0;
      while i < |middlewares|
        invariant i <= |middlewares|
        invariant log == old(log) + PreRequestEvents(request, i)
      {
        PreRequestStep(request, i);
        log := log + [ProcessRequest(i, request)];
        i := i + 1;
      }
    }

    /** The shutdown state: signal counter, both flags, and the collector's
        finish reason. */
    ghost function ShutdownState(): Shutdown.State
      reads this, collector
    {
      Shutdown.State(signalIntCount, shuttingDown, shutdown, collector.finishReason)
    }

    /** `close_crawler`: a forced close sets only the forcing flag, a graceful
        one only the graceful flag; the reason is recorded either way. */
    method CloseCrawler(reason: string := "Finished", force: bool := false)
      modifies this`shuttingDown, this`shutdown, collector`finishReason
      ensures ShutdownState() == Shutdown.Close(old(ShutdownState()), reason, force)
      ensures old(shuttingDown) ==> shuttingDown
      ensures old(shutdown) ==> shutdown
    {
      if force {
        shutdown := true;
      } else {
        shuttingDown := true;
      }
      collector.finishReason := reason;
    }

    /** `__shutdown_signal`: the handler of the interrupt signal. */
    method ShutdownSignal()
      modifies this`signalIntCount, this`shuttingDown, this`shutdown, collector`finishReason
      ensures ShutdownState() == Shutdown.Signal(old(ShutdownState()))
      ensures signalIntCount == old(signalIntCount) + 1
    {
      signalIntCount := signalIntCount + 1;
      if signalIntCount == 1 {
        CloseCrawler(Shutdown.SigIntReason);
      } else {
        CloseCrawler(Shutdown.SigIntReason, force := true);
      }
    }
  }
}
