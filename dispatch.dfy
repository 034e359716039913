/**
 What the engine does with a downloader result, and with one request taken
 from the scheduler, described as the sequence of calls it makes on the
 scheduler, the filter, the downloader and the collector.
 */
module Dispatch {
  import opened Types
  import opened Chains

  /** What the downloader handed back, after `__run_task`: a response, an
      exception object, or None (the download itself raised). */
  datatype Download = Fetched(response: Response) | Failed | NoData

  /** The user code and the backends the engine calls, reduced to what each
      call returns. Middleware hooks are given by their index in the chain. */
  datatype Collaborators = Collaborators(
    spider: Spider,
    processException: nat -> Outcome,
    processResponse: nat -> Outcome,
    processItem: (nat, Item) -> Outcome,
    /** `downloader.__parse_html__(request, response)` */
    parseHtml: Response -> Response,
    /** the spider callback of a name, applied to a response */
    callback: (string, Response) -> Value,
    /** the error callback of a name, applied to the request and the exception */
    errCallback: string -> Value,
    /** `__run_task(filters.filter_request(request))` */
    filterRequest: Request -> Option<Request>,
    /** `__run_task(filters.filter_item(item))` */
    filterItem: Item -> Value,
    /** `__run_task(downloader.download(request))` */
    download: Request -> Download)

  /** A call the engine makes on one of its collaborators. */
  datatype Event =
    | GetRequest                          // scheduler.get_request()
    | FilterRequest(request: Request)     // filters.filter_request
    | CollectRequest(request: Request)    // collector.collect_request
    | ProcessRequest(index: nat, request: Request)  // the index-th pre-request hook
    | DownloadCall(request: Request)      // downloader.download
    | CollectException                    // collector.collect_downloader_exception
    | CollectResponse(response: Response) // collector.collect_response_received
    | AppendErrorRequest(request: Request) // scheduler.append_error_request
    | SendRequest(request: Request)       // scheduler.send_request
    | FilterItem(item: Item)              // filters.filter_item
    | CollectItem(kept: Value)            // collector.collect_item
    | SendItem(kept: Value)               // scheduler.send_item

  /** Lines 152-155: a falsy value yields nothing; a list or an iterator
      yields its elements; any other value is wrapped into a one-element list. */
  function Elements(v: Value): seq<Value> {
    if !Truthy(v) then []
    else if v.ListV? || v.IterV? then v.elems
    else [v]
  }

  /** The results of the item hooks for one item. */
  function ItemResults(w: Collaborators, item: Item, n: nat): seq<Value> {
    seq(n, (i: int) requires 0 <= i => RunTask(w.processItem(i, item)))
  }

  /** `__filter_and_send`: the item goes to the filter; if the filter hands
      back a truthy value, that value is collected and sent to the scheduler. */
  function FilterAndSendEvents(item: Item, w: Collaborators): seq<Event> {
    var kept := w.filterItem(item);
    [FilterItem(item)] + (if Truthy(kept) then [CollectItem(kept), SendItem(kept)] else [])
  }

  /** The calls made for one element of the handled result: a request is sent
      to the scheduler, an item goes through the item chain, its copy (when
      truthy) through the item pipeline, and anything else is ignored. */
  function ElementEvents(v: Value, n: nat, w: Collaborators): seq<Event> {
    match v
    case Req(r) => [SendRequest(r)]
    case It(x) =>
      (match SpiderItem(x, ItemResults(w, x, n))
       case Some(c) => if Truthy(It(c)) then FilterAndSendEvents(c, w) else []
       case None => [])
    case _ => []
  }

  function FanOutEvents(vs: seq<Value>, n: nat, w: Collaborators): seq<Event> {
    if vs == [] then []
    else FanOutEvents(vs[..|vs| - 1], n, w) + ElementEvents(vs[|vs| - 1], n, w)
  }

  /** The calls `__handle_downloader_output` makes before its fan-out loop
      (engine.py:140-151). */
  function OutputHead(request: Request, data: Download, n: nat, w: Collaborators): seq<Event> {
    match data
    case Failed =>
      var o := HandleException(Results(w.processException, n), request.errCallback, w.spider, w.errCallback);
      [CollectException] + (if o.errorRecorded then [AppendErrorRequest(request)] else [])
    case Fetched(response) => [CollectResponse(response)]
    case NoData => []
  }

  /** The value `handled_data` holds when the fan-out loop starts. */
  function OutputHandled(request: Request, requestMeta: Option<Meta>, data: Download,
                         n: nat, w: Collaborators): Value
  {
    match data
    case Failed =>
      HandleException(Results(w.processException, n), request.errCallback, w.spider, w.errCallback).handled
    case Fetched(response) =>
      HandleResponse(Results(w.processResponse, n), w.parseHtml(response), requestMeta,
                     request.callback, w.spider, w.callback).handled
    case NoData => NoneV
  }

  /** `__handle_downloader_output` for the request, whose meta is `requestMeta`. */
  function OutputEvents(request: Request, requestMeta: Option<Meta>, data: Download,
                        n: nat, w: Collaborators): seq<Event>
  {
    OutputHead(request, data, n, w) + FanOutEvents(Elements(OutputHandled(request, requestMeta, data, n, w)), n, w)
  }

  /** What follows the acceptance of a request by the filter: it is
      collected, every pre-request hook runs, it is downloaded, and the
      download's result is handled. */
  function AcceptedEvents(accepted: Request, meta: Option<Meta>, n: nat, w: Collaborators): seq<Event> {
    [CollectRequest(accepted)] + PreRequestEvents(accepted, n) + [DownloadCall(accepted)]
      + OutputEvents(accepted, meta, w.download(accepted), n, w)
  }

  /** One iteration of the request loop's body (engine.py:262-273). `meta`
      is the accepted request's meta when it is fetched. */
  function StepEvents(popped: Option<Request>, meta: Option<Meta>, n: nat, w: Collaborators): seq<Event> {
    [GetRequest] +
    match popped
    case None => []
    case Some(r) =>
      [FilterRequest(r)] +
      match w.filterRequest(r)
      case None => []
      case Some(accepted) => AcceptedEvents(accepted, meta, n, w)
  }

  /** Every pre-request hook, in chain order, with no early stop. */
  function PreRequestEvents(r: Request, n: nat): seq<Event> {
    seq(n, (i: int) requires 0 <= i => ProcessRequest(i, r))
  }

  /** Appending calls in two steps or in one gives the same log. */
  lemma AppendTwice(log: seq<Event>, a: seq<Event>, b: seq<Event>)
    ensures log + a + b == log + (a + b)
  {
  }

  /** The calls for a prefix grow by one element's calls at a time. */
  lemma FanOutStep(vs: seq<Value>, i: nat, n: nat, w: Collaborators)
    requires i < |vs|
    ensures FanOutEvents(vs[..i + 1], n, w) == FanOutEvents(vs[..i], n, w) + ElementEvents(vs[i], n, w)
  {
    assert vs[..i + 1][..i] == vs[..i];
  }

  /** The pre-request calls grow by one hook at a time. */
  lemma PreRequestStep(r: Request, i: nat)
    ensures PreRequestEvents(r, i + 1) == PreRequestEvents(r, i) + [ProcessRequest(i, r)]
  {
    assert PreRequestEvents(r, i + 1)[..i] == PreRequestEvents(r, i);
  }

  // ---------------------------------------------------------------------
  // Properties

  /** The requests among the values, in order. */
  function RequestsOf(vs: seq<Value>): seq<Request> {
    if vs == [] then []
    else RequestsOf(vs[..|vs| - 1]) + (if vs[|vs| - 1].Req? then [vs[|vs| - 1].request] else [])
  }

  /** The requests sent to the scheduler by a sequence of calls, in order. */
  function Sent(es: seq<Event>): seq<Request> {
    if es == [] then []
    else Sent(es[..|es| - 1]) + (if es[|es| - 1].SendRequest? then [es[|es| - 1].request] else [])
  }

  lemma {:induction false} SentAppend(a: seq<Event>, b: seq<Event>)
    ensures Sent(a + b) == Sent(a) + Sent(b)
  {
    if b != [] {
      assert (a + b)[..|a + b| - 1] == a + b[..|b| - 1];
      SentAppend(a, b[..|b| - 1]);
    } else {
      assert a + b == a;
    }
  }

  lemma {:induction false} SentNone(es: seq<Event>)
    requires forall e :: e in es ==> !e.SendRequest?
    ensures Sent(es) == []
  {
    if es != [] {
      assert forall e :: e in es[..|es| - 1] ==> e in es;
      SentNone(es[..|es| - 1]);
    }
  }

  /** Of the calls for one element, only a request's is a send. */
  lemma ElementSent(v: Value, n: nat, w: Collaborators)
    ensures Sent(ElementEvents(v, n, w)) == if v.Req? then [v.request] else []
  {
    var es := ElementEvents(v, n, w);
    if v.Req? {
      assert es == [SendRequest(v.request)];
      assert es[..0] == [];
    } else {
      assert forall e :: e in es ==> !e.SendRequest?;
      SentNone(es);
    }
  }

  /** Fan-out sends exactly the requests of the list, each once, in list order. */
  lemma {:induction false} FanOutSendsRequestsInOrder(vs: seq<Value>, n: nat, w: Collaborators)
    ensures Sent(FanOutEvents(vs, n, w)) == RequestsOf(vs)
  {
    if vs != [] {
      FanOutSendsRequestsInOrder(vs[..|vs| - 1], n, w);
      SentAppend(FanOutEvents(vs[..|vs| - 1], n, w), ElementEvents(vs[|vs| - 1], n, w));
      ElementSent(vs[|vs| - 1], n, w);
    }
  }

  /** Each request occurs in what is sent as often as in the list. */
  lemma {:induction false} RequestsOfCount(vs: seq<Value>, r: Request)
    ensures multiset(RequestsOf(vs))[r] == multiset(vs)[Req(r)]
  {
    if vs != [] {
      RequestsOfCount(vs[..|vs| - 1], r);
      assert vs == vs[..|vs| - 1] + [vs[|vs| - 1]];
    }
  }

  /** A falsy handled value causes no scheduler or pipeline call; a value that
      is neither a list nor an iterator is handled as a one-element list. */
  lemma ElementsSpec(v: Value, n: nat, w: Collaborators)
    ensures !Truthy(v) ==> FanOutEvents(Elements(v), n, w) == []
    ensures Truthy(v) && !v.ListV? && !v.IterV? ==> Elements(v) == [v]
    ensures !v.Req? && !v.It? ==> ElementEvents(v, n, w) == []
  {
  }

  /** The number of `append_error_request` calls among the events. */
  function ErrorRecords(es: seq<Event>): nat {
    if es == [] then 0
    else ErrorRecords(es[..|es| - 1]) + (if es[|es| - 1].AppendErrorRequest? then 1 else 0)
  }

  lemma {:induction false} ErrorRecordsAppend(a: seq<Event>, b: seq<Event>)
    ensures ErrorRecords(a + b) == ErrorRecords(a) + ErrorRecords(b)
  {
    if b != [] {
      assert (a + b)[..|a + b| - 1] == a + b[..|b| - 1];
      ErrorRecordsAppend(a, b[..|b| - 1]);
    } else {
      assert a + b == a;
    }
  }

  lemma {:induction false} FanOutRecordsNoError(vs: seq<Value>, n: nat, w: Collaborators)
    ensures ErrorRecords(FanOutEvents(vs, n, w)) == 0
  {
    if vs != [] {
      FanOutRecordsNoError(vs[..|vs| - 1], n, w);
      var es := ElementEvents(vs[|vs| - 1], n, w);
      ErrorRecordsAppend(FanOutEvents(vs[..|vs| - 1], n, w), es);
      ElementRecordsNoError(vs[|vs| - 1], n, w);
      EventsWithoutRecord(es);
    }
  }

  /** Handling one element never records an error request. */
  lemma ElementRecordsNoError(v: Value, n: nat, w: Collaborators)
    ensures forall e :: e in ElementEvents(v, n, w) ==> !e.AppendErrorRequest?
  {
    if v.It? && SpiderItem(v.item, ItemResults(w, v.item, n)).Some? {
      var c := SpiderItem(v.item, ItemResults(w, v.item, n)).value;
      var kept := w.filterItem(c);
      assert forall e :: e in FilterAndSendEvents(c, w) ==> e in [FilterItem(c), CollectItem(kept), SendItem(kept)];
    }
  }

  lemma {:induction false} EventsWithoutRecord(es: seq<Event>)
    requires forall e :: e in es ==> !e.AppendErrorRequest?
    ensures ErrorRecords(es) == 0
  {
    if es != [] {
      assert forall e :: e in es[..|es| - 1] ==> e in es;
      EventsWithoutRecord(es[..|es| - 1]);
    }
  }

  /** On a failed download the error request is recorded exactly once when
      the exception chain ends with None, and never otherwise. */
  lemma FailedDownloadRecordsOnce(request: Request, meta: Option<Meta>, n: nat, w: Collaborators)
    ensures ErrorRecords(OutputEvents(request, meta, Failed, n, w))
         == if ChainValue(Results(w.processException, n)) == NoneV then 1 else 0
  {
    var o := HandleException(Results(w.processException, n), request.errCallback, w.spider, w.errCallback);
    var head := [CollectException] + (if o.errorRecorded then [AppendErrorRequest(request)] else []);
    FanOutRecordsNoError(Elements(o.handled), n, w);
    ErrorRecordsAppend(head, FanOutEvents(Elements(o.handled), n, w));
    if o.errorRecorded {
      assert head[..1] == [CollectException];
      assert [CollectException][..0] == [];
    } else {
      assert head == [CollectException];
      assert head[..0] == [];
    }
  }

  /** The item pipeline filters first; the collector and the scheduler see the
      value the filter handed back, once each, and only when it is truthy. */
  lemma FilterAndSendSendsKept(item: Item, w: Collaborators)
    ensures var es := FilterAndSendEvents(item, w);
      var kept := w.filterItem(item);
      && es[0] == FilterItem(item)
      && ((exists e :: e in es && e.SendItem?) <==> Truthy(kept))
      && (forall e :: e in es && (e.SendItem? || e.CollectItem?) ==> e.kept == kept)
      && |es| == (if Truthy(kept) then 3 else 1)
  {
    var es := FilterAndSendEvents(item, w);
    if Truthy(w.filterItem(item)) {
      assert es[2] in es;
    }
  }

  /** A download that fails, with only BaseMiddleware exception hooks and no
      error callback, records the error once and produces no request or item. */
  lemma FailedWithBaseChain(request: Request, meta: Option<Meta>, n: nat, w: Collaborators)
    requires w.processException == NoneHook
    requires request.errCallback == None
    ensures OutputEvents(request, meta, Failed, n, w) == [CollectException, AppendErrorRequest(request)]
  {
    BaseExceptionChainRecords(n, request.errCallback, w.spider, w.errCallback);
  }

  /** A request the filter rejects is never passed to a pre-request hook and
      never downloaded. */
  lemma RejectedRequestNotFetched(r: Request, meta: Option<Meta>, n: nat, w: Collaborators)
    requires w.filterRequest(r) == None
    ensures StepEvents(Some(r), meta, n, w) == [GetRequest, FilterRequest(r)]
    ensures forall e :: e in StepEvents(Some(r), meta, n, w) ==> !e.ProcessRequest? && !e.DownloadCall?
  {
  }

  /** An accepted request passes through every pre-request hook in chain order
      and then is downloaded once. */
  lemma AcceptedRequestFetched(r: Request, meta: Option<Meta>, n: nat, w: Collaborators, i: nat)
    requires w.filterRequest(r).Some?
    ensures var a := w.filterRequest(r).value;
      var es := StepEvents(Some(r), meta, n, w);
      |es| >= n + 4
      && es[..3] == [GetRequest, FilterRequest(r), CollectRequest(a)]
      && (i < n ==> es[3 + i] == ProcessRequest(i, a))
      && es[3 + n] == DownloadCall(a)
  {
  }
}
