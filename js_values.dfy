/**
 * The JavaScript values that the loader inspects: only as much of JavaScript's
 * dynamic typing as the loader's truthiness tests and `Boolean(...)` coercion need.
 */
module JsValues {

  datatype Option<+T> = None | Some(value: T)

  /**
   * A JavaScript value. Numbers are modelled as integers. There is no case for
   * plain objects: an object-valued option (a sassport module, say) is stood in
   * for by a truthy case (`Arr` or `Fn`), which is enough for the truthiness tests the
   * loader makes, since every object is truthy.
   */
  datatype JsValue =
    | Undefined
    | Null
    | Bool(b: bool)
    | Num(n: int)
    | Str(s: string)
    | Arr(items: seq<JsValue>)
    | Fn(f: Function)

  /** The function values the loader handles: user code and the importers it builds. */
  datatype Function =
    | UserFunction(name: string)
    // the wrapper `proxyCustomImporters` puts around one custom importer
    | CustomImporterProxy(inner: JsValue, resourcePath: string)
    // the importer that serves sassport modules, built from the `modules` option
    | SassportImporter(modules: seq<JsValue>)
    // the importer that resolves through webpack, relative to the resource
    | WebpackImporter(resourcePath: string)

  /** JavaScript truthiness: `undefined`, `null`, `false`, `0` and `""` are falsy. */
  predicate Truthy(v: JsValue) {
    match v
    case Undefined => false
    case Null => false
    case Bool(b) => b
    case Num(n) => n != 0
    case Str(s) => s != ""
    case Arr(_) => true
    case Fn(_) => true
  }

  /** Reading an option key: an absent key reads as `undefined`. */
  function Read(o: Option<JsValue>): (v: JsValue)
    ensures o.None? ==> v == Undefined
  {
    match o
    case None => Undefined
    case Some(v) => v
  }

  /** Truthiness of a key that may be absent. */
  predicate OptTruthy(o: Option<JsValue>) {
    Truthy(Read(o))
  }

  /** Truthiness of a string-typed key that may be absent. */
  predicate StrTruthy(o: Option<string>) {
    o.Some? && o.value != ""
  }

  /** JavaScript's `Boolean(v)`. */
  function ToBoolean(v: JsValue): (r: JsValue)
    ensures r.Bool? && (r.b <==> Truthy(v))
    ensures v.Bool? ==> r == v
  {
    Bool(Truthy(v))
  }
}
