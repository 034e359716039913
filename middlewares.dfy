/**
 The middleware package: the names it exports, the base middleware whose hooks
 are all no-ops, and the middleware that fills in request defaults.
 */
module Middlewares {
  import opened Types

  /** `middlewares.__all__` */
  const ModuleAll: seq<string> :=
    ["BaseMiddleware", "AllowedCodesMiddleware", "SetDefaultMiddleware", "UserAgentMiddleware"]

  const BaseMiddlewareClass := PyClass("BaseMiddleware", {"BaseMiddleware", "object"})

  /** `getattr(middlewares, name)` for a name the package exports: each of them
      is BaseMiddleware or one of its direct subclasses. */
  function ClassNamed(name: string): (c: PyClass)
    requires name in ModuleAll
    ensures c.name == name
    ensures IsSubclass(c, BaseMiddlewareClass)
  {
    if name == "BaseMiddleware" then BaseMiddlewareClass
    else PyClass(name, {name, "BaseMiddleware", "object"})
  }

  /** An instance of BaseMiddleware or of a subclass that inherits its
      constructor; `cls` is the class that was instantiated. */
  class BaseMiddleware {
    const cls: PyClass
    var settings: Settings
    var engine: object

    constructor (cls: PyClass, settings: Settings, engine: object)
      ensures this.cls == cls && this.settings == settings && this.engine == engine
    {
      this.cls := cls;
      this.settings := settings;
      this.engine := engine;
    }

    /** Changes nothing (no frame) and returns None. */
    method ProcessRequest(request: Request) returns (r: Value)
      ensures r == NoneV
    {
      r := NoneV;
    }

    /** Returns None, so the response chain goes on to the next hook. */
    method ProcessResponse(request: Request, response: Response) returns (r: Value)
      ensures r == NoneV && !Truthy(r)
    {
      r := NoneV;
    }

    /** Returns None, so the exception chain goes on to the next hook. */
    method ProcessException(request: Request) returns (r: Value)
      ensures r == NoneV && !Truthy(r)
    {
      r := NoneV;
    }

    /** Returns None, which is not an item, so the item chain goes on. */
    method ProcessItem(item: Item) returns (r: Value)
      ensures r == NoneV && !r.It?
    {
      r := NoneV;
    }
  }

  /** The three request fields that SetDefaultMiddleware may fill in. */
  datatype Defaults = Defaults(timeout: Option<int>, headers: Option<Headers>, meta: Option<Meta>)

  /** The fields after `process_request`: each missing one takes its default,
      each present one (an empty header map included) is kept. */
  function WithDefaults(d: Defaults, settings: Settings): Defaults {
    Defaults(
      if d.timeout.None? then Some(settings.defaultTimeout) else d.timeout,
      if d.headers.None? then Some(settings.defaultHeaders) else d.headers,
      if d.meta.None? then Some(map[]) else d.meta)
  }

  /** Filling in defaults a second time changes nothing. */
  lemma WithDefaultsIdempotent(d: Defaults, settings: Settings)
    ensures WithDefaults(WithDefaults(d, settings), settings) == WithDefaults(d, settings)
  {
  }

  /** Afterwards every field is present, and a field that was present is untouched. */
  lemma WithDefaultsFills(d: Defaults, settings: Settings)
    ensures var e := WithDefaults(d, settings);
      e.timeout.Some? && e.headers.Some? && e.meta.Some? &&
      (d.timeout.Some? ==> e.timeout == d.timeout) &&
      (d.headers.Some? ==> e.headers == d.headers) &&
      (d.meta.Some? ==> e.meta == d.meta)
  {
  }

  class SetDefaultMiddleware {
    var settings: Settings
    var engine: object

    /** The constructor inherited from BaseMiddleware. */
    constructor (settings: Settings, engine: object)
      ensures this.settings == settings && this.engine == engine
    {
      this.settings := settings;
      this.engine := engine;
    }

    ghost function RequestDefaults(request: Request): Defaults
      reads request
    {
      Defaults(request.timeout, request.headers, request.meta)
    }

    /** Fills in a missing timeout, headers and meta in place; no other field
        of the request is written, and the hook returns None. */
    method ProcessRequest(request: Request) returns (r: Value)
      modifies request`timeout, request`headers, request`meta
      ensures RequestDefaults(request) == WithDefaults(old(RequestDefaults(request)), settings)
      ensures old(request.timeout).None? ==> request.timeout == Some(settings.defaultTimeout)
      ensures old(request.headers).None? ==> request.headers == Some(settings.defaultHeaders)
      ensures old(request.meta).None? ==> request.meta == Some(map[])
      ensures r == NoneV
    {
      if request.timeout.None? {
        request.timeout := Some(settings.defaultTimeout);
      }
      if request.headers.None? {
        request.headers := Some(settings.defaultHeaders);
      }
      if request.meta.None? {
        request.meta := Some(map[]);
      }
      r := NoneV;
    }
  }

  /** Running the hook twice leaves the request as running it once does. */
  method ProcessRequestTwice(m: SetDefaultMiddleware, request: Request)
    modifies request`timeout, request`headers, request`meta
    ensures m.RequestDefaults(request) == WithDefaults(old(m.RequestDefaults(request)), m.settings)
  {
    var _ := m.ProcessRequest(request);
    var _ := m.ProcessRequest(request);
    WithDefaultsIdempotent(old(m.RequestDefaults(request)), m.settings);
  }
}
