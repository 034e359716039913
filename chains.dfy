/**
 The engine's middleware chains, as functions of the results the hooks give.
 The hooks themselves are user code: a chain is described by the sequence of
 values its hooks would return, one per middleware in chain order, each already
 passed through `__run_task` (so a hook that raises contributes None).
 */
module Chains {
  import opened Types

  /** `__run_task`: what the wrapped call returned; an exception becomes None. */
  function RunTask(o: Outcome): Value {
    match o
    case Returned(v) => v
    case Raised => NoneV
  }

  /** The hook of BaseMiddleware: it returns None. */
  function NoneHook(i: nat): Outcome {
    Returned(NoneV)
  }

  /** The results of the first `n` hooks of one extension point. */
  function Results(hook: nat -> Outcome, n: nat): seq<Value> {
    seq(n, (i: int) requires 0 <= i => RunTask(hook(i)))
  }

  /** The index of the first result satisfying `stop`, or `|rs|` when none does. */
  function FirstWhere(rs: seq<Value>, stop: Value -> bool): (k: nat)
    ensures k <= |rs|
    ensures forall j :: 0 <= j < k ==> !stop(rs[j])
    ensures k < |rs| ==> stop(rs[k])
  {
    if rs == [] then 0
    else if stop(rs[0]) then 0
    else 1 + FirstWhere(rs[1..], stop)
  }

  /** The first index satisfying `stop` is determined by the results. */
  lemma FirstWhereAt(rs: seq<Value>, stop: Value -> bool, k: nat)
    requires k <= |rs|
    requires forall j :: 0 <= j < k ==> !stop(rs[j])
    requires k < |rs| ==> stop(rs[k])
    ensures FirstWhere(rs, stop) == k
  {
  }

  /** The index of the first truthy result. */
  function FirstTruthy(rs: seq<Value>): nat {
    FirstWhere(rs, Truthy)
  }

  /** How many hooks a loop that breaks on the first truthy result calls. */
  function ChainCalls(rs: seq<Value>): nat {
    var k := FirstTruthy(rs);
    if k < |rs| then k + 1 else |rs|
  }

  /** `handled_data` after that loop: it is reassigned on every iteration, so
      when no result is truthy it holds the LAST hook's result, not None. */
  function ChainValue(rs: seq<Value>): Value {
    var k := FirstTruthy(rs);
    if k < |rs| then rs[k] else if rs == [] then NoneV else rs[|rs| - 1]
  }

  /** The truthy-break chain calls the hooks up to and including the first
      truthy one and no further; its value is that result, or else the last. */
  lemma ChainStopsAtFirstTruthy(rs: seq<Value>, j: nat)
    ensures ChainCalls(rs) <= |rs|
    ensures j < ChainCalls(rs) - 1 ==> !Truthy(rs[j])
    ensures j < |rs| && Truthy(rs[j]) ==>
      ChainCalls(rs) <= j + 1 && Truthy(ChainValue(rs)) && ChainValue(rs) == rs[ChainCalls(rs) - 1]
    ensures (forall i :: 0 <= i < |rs| ==> !Truthy(rs[i])) ==>
      ChainCalls(rs) == |rs| && ChainValue(rs) == (if rs == [] then NoneV else rs[|rs| - 1])
  {
  }

  /** `__run_task` turns a raising hook into one that returned None: the
      chain cannot tell them apart. */
  lemma RaisingHookActsAsNone(hook: nat -> Outcome, n: nat, i: nat)
    requires i < n && hook(i).Raised?
    ensures var hook' := (k: nat) => if k == i then Returned(NoneV) else hook(k);
      Results(hook, n) == Results(hook', n)
  {
    var hook' := (k: nat) => if k == i then Returned(NoneV) else hook(k);
    forall k | 0 <= k < n
      ensures Results(hook, n)[k] == Results(hook', n)[k]
    {
      assert Results(hook, n)[k] == RunTask(hook(k));
      assert Results(hook', n)[k] == RunTask(hook'(k));
    }
  }

  // ---------------------------------------------------------------------
  // Post-exception chain (engine.py:173-185)

  datatype ExceptionResult = ExceptionResult(
    handled: Value,
    hooksCalled: nat,
    /** `append_error_request(request)` was spawned */
    errorRecorded: bool,
    errCallbackCalled: bool)

  /** The exception chain followed by the error path: the request is recorded
      as an error when the chain's final value is None, and then the error
      callback, when it is a function the spider class defines, supplies the
      result (`errResult` gives what the callback of that name returns). */
  function HandleException(rs: seq<Value>, errCallback: Option<string>, spider: Spider,
                           errResult: string -> Value): ExceptionResult
  {
    var v := ChainValue(rs);
    if v == NoneV then
      var call := errCallback.Some? && spider.HasAttr(errCallback.value);
      ExceptionResult(if call then errResult(errCallback.value) else NoneV, ChainCalls(rs), true, call)
    else
      ExceptionResult(v, ChainCalls(rs), false, false)
  }

  /** The error is recorded exactly when the chain ends with None; the error
      callback runs only then and only when resolvable; a handled exception is
      passed on unchanged. */
  lemma ExceptionChainSpec(rs: seq<Value>, errCallback: Option<string>, spider: Spider, errResult: string -> Value)
    ensures var o := HandleException(rs, errCallback, spider, errResult);
      && o.hooksCalled == ChainCalls(rs)
      && (o.errorRecorded <==> ChainValue(rs) == NoneV)
      && (o.errCallbackCalled <==> o.errorRecorded && errCallback.Some? && spider.HasAttr(errCallback.value))
      && (o.errCallbackCalled ==> o.handled == errResult(errCallback.value))
      && (!o.errorRecorded ==> o.handled == ChainValue(rs))
      && (o.errorRecorded && !o.errCallbackCalled ==> o.handled == NoneV)
  {
  }

  /** Only the last result is compared with None: a falsy non-None last result
      suppresses the error record, while a falsy result followed by None does not. */
  lemma ExceptionLastResultDecides(spider: Spider, errResult: string -> Value)
    ensures !HandleException([NoneV, Falsy], None, spider, errResult).errorRecorded
    ensures HandleException([Falsy, NoneV], None, spider, errResult).errorRecorded
    ensures HandleException([Falsy, NoneV], None, spider, errResult).hooksCalled == 2
  {
    assert FirstTruthy([Falsy, NoneV]) == 2 by {
      assert [Falsy, NoneV][1..] == [NoneV];
    }
    assert FirstTruthy([NoneV, Falsy]) == 2 by {
      assert [NoneV, Falsy][1..] == [Falsy];
    }
  }

  /** A chain of middlewares whose hook is BaseMiddleware's (returning None)
      calls every hook, ends with None, and records the error. */
  lemma {:induction false} BaseExceptionChainRecords(n: nat, errCallback: Option<string>, spider: Spider, errResult: string -> Value)
    ensures var o := HandleException(Results(NoneHook, n), errCallback, spider, errResult);
      o.errorRecorded && o.hooksCalled == n
  {
    var rs := Results(NoneHook, n);
    assert forall i :: 0 <= i < n ==> rs[i] == RunTask(NoneHook(i)) == NoneV;
    assert FirstTruthy(rs) == n;
  }

  // ---------------------------------------------------------------------
  // Post-response chain (engine.py:187-208)

  datatype ResponseResult = ResponseResult(
    handled: Value,
    hooksCalled: nat,
    /** the response handed to the spider callback, if it ran */
    delivered: Option<Response>)

  /** The response chain: the first truthy result stops it, and a Response
      result replaces the response. When the chain ends with a Response or
      None, the response gets the request's meta and the callback, when the
      spider class defines it, supplies the result. `callback` gives what the
      callback of a name returns for a response. */
  function HandleResponse(rs: seq<Value>, parsed: Response, requestMeta: Option<Meta>,
                          callbackName: string, spider: Spider,
                          callback: (string, Response) -> Value): ResponseResult
  {
    var v := ChainValue(rs);
    var response := if v.Resp? then v.response else parsed;
    if v.Resp? || v == NoneV then
      var withMeta := response.(meta := requestMeta);
      if spider.HasAttr(callbackName) then
        ResponseResult(callback(callbackName, withMeta), ChainCalls(rs), Some(withMeta))
      else
        // the same Response object was just given the meta, so a returned
        // replacement carries it too
        ResponseResult(if v.Resp? then Resp(withMeta) else NoneV, ChainCalls(rs), None)
    else
      ResponseResult(v, ChainCalls(rs), None)
  }

  /** The first truthy hook result stops the chain. A Response result replaces
      the response passed on; a truthy non-Response result is returned as it
      is, without running the callback; when the callback runs, it sees the
      request's meta on the (possibly replaced) response. */
  lemma ResponseChainSpec(rs: seq<Value>, parsed: Response, requestMeta: Option<Meta>,
                          callbackName: string, spider: Spider, callback: (string, Response) -> Value)
    ensures var o := HandleResponse(rs, parsed, requestMeta, callbackName, spider, callback);
      var k := FirstTruthy(rs);
      && o.hooksCalled == ChainCalls(rs)
      && (k < |rs| && !rs[k].Resp? ==> o.handled == rs[k] && o.delivered == None)
      && (o.delivered.Some? ==>
            o.delivered.value.meta == requestMeta
            && spider.HasAttr(callbackName)
            && o.handled == callback(callbackName, o.delivered.value)
            && (k < |rs| ==> rs[k].Resp? && o.delivered.value == rs[k].response.(meta := requestMeta))
            && (k == |rs| ==> o.delivered.value == parsed.(meta := requestMeta)))
      && (o.delivered.Some? <==>
            spider.HasAttr(callbackName) && (ChainValue(rs).Resp? || ChainValue(rs) == NoneV))
      && (!(ChainValue(rs).Resp? || ChainValue(rs) == NoneV) ==> o.handled == ChainValue(rs))
  {
  }

  /** Only the last result is tested after the loop: when every hook gives a
      falsy result and the last is not None, the callback is skipped even
      though it is defined, and that falsy value is the result. */
  lemma ResponseFalsyLastSkipsCallback(parsed: Response, requestMeta: Option<Meta>,
                                       callbackName: string, callback: (string, Response) -> Value)
    ensures var spider := Spider("S", {callbackName});
      var o := HandleResponse([NoneV, Falsy], parsed, requestMeta, callbackName, spider, callback);
      o.delivered == None && o.handled == Falsy && o.hooksCalled == 2
    ensures var spider := Spider("S", {callbackName});
      var o := HandleResponse([Falsy, NoneV], parsed, requestMeta, callbackName, spider, callback);
      o.delivered == Some(parsed.(meta := requestMeta)) && o.hooksCalled == 2
  {
    assert FirstTruthy([NoneV, Falsy]) == 2 by {
      assert [NoneV, Falsy][1..] == [Falsy];
    }
    assert FirstTruthy([Falsy, NoneV]) == 2 by {
      assert [Falsy, NoneV][1..] == [NoneV];
    }
  }

  // ---------------------------------------------------------------------
  // Post-item chain and the declared-field copy (engine.py:210-238)

  predicate IsItem(v: Value) {
    v.It?
  }

  /** The item after the chain: the first hook result that is an Item
      replaces it and stops the chain; other results are ignored. */
  function ItemChoice(item: Item, rs: seq<Value>): Item {
    var k := FirstWhere(rs, IsItem);
    if k < |rs| then rs[k].item else item
  }

  function ItemCalls(rs: seq<Value>): nat {
    var k := FirstWhere(rs, IsItem);
    if k < |rs| then k + 1 else |rs|
  }

  /** `get_fields`: the names in the class's own `__dict__` bound to a Field. */
  function DeclaredFields(attributes: seq<Attribute>): (fs: seq<string>)
    ensures forall f :: f in fs <==> exists a :: a in attributes && a.isField && a.name == f
  {
    if attributes == [] then []
    else
      assert attributes == [attributes[0]] + attributes[1..];
      (if attributes[0].isField then [attributes[0].name] else []) + DeclaredFields(attributes[1..])
  }

  /** The value `item.get(field, None)`. */
  function Get(fields: map<string, FieldValue>, f: string): FieldValue {
    if f in fields then fields[f] else Null
  }

  /** A fresh item of the same class holding its declared fields only. */
  function DeclaredCopy(item: Item): Item {
    Item(item.cls, map f | f in DeclaredFields(item.cls.attributes) :: Get(item.fields, f))
  }

  /** No field leakage: the copy's keys are exactly the declared Field names,
      each holding the original's value or None; undeclared keys are dropped. */
  lemma DeclaredCopyExact(item: Item, key: string)
    ensures DeclaredCopy(item).cls == item.cls
    ensures key in DeclaredCopy(item).fields
        <==> exists a :: a in item.cls.attributes && a.isField && a.name == key
    ensures key in DeclaredCopy(item).fields ==>
        DeclaredCopy(item).fields[key] == (if key in item.fields then item.fields[key] else Null)
  {
  }

  /** `__handle_spider_item`: None when the chosen item is falsy (an empty
      dictionary), else its declared-field copy. */
  function SpiderItem(item: Item, rs: seq<Value>): Option<Item> {
    var chosen := ItemChoice(item, rs);
    if Truthy(It(chosen)) then Some(DeclaredCopy(chosen)) else None
  }

  /** The item chain stops at the first Item result, which replaces the item;
      without one, the item is the original. */
  lemma ItemChainSpec(item: Item, rs: seq<Value>, j: nat)
    ensures ItemCalls(rs) <= |rs|
    ensures j < ItemCalls(rs) - 1 ==> !rs[j].It?
    ensures j < |rs| && rs[j].It? ==>
      ItemCalls(rs) <= j + 1 && ItemChoice(item, rs) == rs[ItemCalls(rs) - 1].item
    ensures (forall i :: 0 <= i < |rs| ==> !rs[i].It?) ==>
      ItemCalls(rs) == |rs| && ItemChoice(item, rs) == item
    ensures SpiderItem(item, rs).Some? <==> |ItemChoice(item, rs).fields| > 0
    ensures SpiderItem(item, rs).Some? ==> SpiderItem(item, rs).value == DeclaredCopy(ItemChoice(item, rs))
  {
  }

  /** A chain of BaseMiddleware item hooks (all None) leaves the item as it is. */
  lemma {:induction false} BaseItemChainKeepsItem(item: Item, n: nat)
    ensures ItemChoice(item, Results(NoneHook, n)) == item
    ensures ItemCalls(Results(NoneHook, n)) == n
  {
    var rs := Results(NoneHook, n);
    assert forall i :: 0 <= i < n ==> rs[i] == RunTask(NoneHook(i)) == NoneV;
    assert FirstWhere(rs, IsItem) == n;
  }
}
