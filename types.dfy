/**
 The values the crawler engine passes between its stages: requests, responses,
 items, settings, Python classes and the Python values that middleware hooks and
 spider callbacks may hand back, together with Python's truthiness test on them.
 */
module Types {

  datatype Option<+T> = None | Some(value: T)

  type Headers = map<string, string>
  type Meta = map<string, string>

  /** A Python class, identified by its name, with the names of every class in
      its method resolution order (itself included, down to `object`). Two
      distinct classes of the same name are not told apart: a user's own class
      named `BaseMiddleware` counts as the package's. */
  datatype PyClass = PyClass(name: string, mro: set<string>)

  /** `issubclass(sub, sup)` */
  predicate IsSubclass(sub: PyClass, sup: PyClass) {
    sup.name in sub.mro
  }

  const ObjectClass := PyClass("object", {"object"})

  /** A request. The fields a middleware may still fill in before the fetch
      (timeout, headers, meta) are mutable; the others are fixed once built. */
  class Request {
    const httpMethod: string
    const url: string
    /** `request.callback.__name__` */
    const callback: string
    /** `Some(name)` when `request.err_callback` is a plain function of that name,
        `None` when it is not a function at all. */
    const errCallback: Option<string>
    var timeout: Option<int>
    var headers: Option<Headers>
    var meta: Option<Meta>

    constructor (httpMethod: string, url: string, callback: string, errCallback: Option<string>,
                 timeout: Option<int>, headers: Option<Headers>, meta: Option<Meta>)
      ensures this.httpMethod == httpMethod && this.url == url
      ensures this.callback == callback && this.errCallback == errCallback
      ensures this.timeout == timeout && this.headers == headers && this.meta == meta
    {
      this.httpMethod := httpMethod;
      this.url := url;
      this.callback := callback;
      this.errCallback := errCallback;
      this.timeout := timeout;
      this.headers := headers;
      this.meta := meta;
    }
  }

  /** A downloaded response; `meta` is filled from the request before the
      spider callback sees it. */
  datatype Response = Response(status: int, url: string, body: string, meta: Option<Meta>)

  /** One entry of an item class's own `__dict__`: its name and whether the
      attribute is a `Field`. */
  datatype Attribute = Attribute(name: string, isField: bool)

  datatype ItemClass = ItemClass(name: string, attributes: seq<Attribute>)

  /** The value stored under an item key (`Null` is Python's None). */
  datatype FieldValue = Null | Data(text: string)

  /** An item: a dictionary of field values tagged with its class. */
  datatype Item = Item(cls: ItemClass, fields: map<string, FieldValue>)

  /** The Python values that a hook or a callback may return. */
  datatype Value =
    | NoneV                    // None
    | Falsy                    // a falsy value other than None: False, 0, '', (), {}
    | Req(request: Request)
    | Resp(response: Response)
    | It(item: Item)
    | ListV(elems: seq<Value>) // a list
    | IterV(elems: seq<Value>) // an iterator (a generator), with what it yields
    | OtherV                   // any other truthy value (a string, a tuple, ...)

  /** Python's `bool(v)`. An item is a dictionary, so an empty item is falsy;
      an iterator is truthy even when it yields nothing. */
  predicate Truthy(v: Value) {
    match v
    case NoneV => false
    case Falsy => false
    case It(item) => |item.fields| > 0
    case ListV(elems) => |elems| > 0
    case _ => true
  }

  /** What a call wrapped by the engine produced: a value, or a raised exception. */
  datatype Outcome = Returned(value: Value) | Raised

  /** The settings the engine and its middlewares read. */
  datatype Settings = Settings(
    defaultTimeout: int,
    defaultHeaders: Headers,
    /** DEFAULT_MIDDLEWARES: a dictionary from middleware name to priority, in insertion order */
    defaultMiddlewares: seq<(string, int)>,
    /** MIDDLEWARES: a list of (class, priority) pairs */
    middlewares: seq<(PyClass, int)>)

  /** The user's spider, reduced to the names its class defines. */
  datatype Spider = Spider(className: string, methods: set<string>) {
    /** `hasattr(spider.__class__, name)` */
    predicate HasAttr(name: string) {
      name in methods
    }
  }
}
