/** JavaScript values as the node sees them: parsed JSON responses, the
    IDataObject dictionaries it builds for query strings and bodies, and the
    errors that travel through its try/catch blocks. */
module JsValues {

  datatype Option<+T> = None | Some(value: T)

  /** A JavaScript value. Numbers are integers: the node only ever handles
      counts, prices in cents and timestamps. */
  datatype JsValue =
    | Undefined
    | Null
    | Bool(b: bool)
    | Num(n: int)
    | Str(s: string)
    | Arr(elems: seq<JsValue>)
    | Obj(props: map<string, JsValue>)

  /** An IDataObject: a plain object with string keys. */
  type Dict = map<string, JsValue>

  /** The falsy values of JavaScript that this model can hold. */
  const FalsyValues: set<JsValue> := {Undefined, Null, Bool(false), Num(0), Str("")}

  /** JavaScript's ToBoolean: `undefined`, `null`, `false`, `0` and `''` are
      falsy; every other value, empty arrays and empty objects included, is truthy. */
  predicate Truthy(v: JsValue)
    ensures Truthy(v) <==> v !in FalsyValues
  {
    match v
    case Undefined => false
    case Null => false
    case Bool(b) => b
    case Num(n) => n != 0
    case Str(s) => s != ""
    case Arr(_) => true
    case Obj(_) => true
  }

  /** The exceptions that reach the node's catch blocks. ApiError is the
      host's NodeApiError; TypeError and SyntaxError come from the JavaScript
      runtime (property reads on null, spreading a non-iterable, JSON.parse). */
  datatype Error =
    | ApiError(message: string)
    | TypeError(message: string)
    | SyntaxError(message: string)

  datatype Result<+T> = Ok(value: T) | Err(error: Error)

  /** Prepends `items` to a successful result; an error passes through, so
      nothing gathered before a failure survives it. */
  function Prepend(items: seq<JsValue>, r: Result<seq<JsValue>>): (p: Result<seq<JsValue>>)
    ensures p.Ok? <==> r.Ok?
    ensures p.Ok? ==> |p.value| == |items| + |r.value| && p.value[..|items|] == items && p.value[|items|..] == r.value
    ensures p.Err? ==> p == r
  {
    if r.Ok? then Ok(items + r.value) else r
  }

  /** The property read `v[key]`: reading from `null` or `undefined` throws;
      on an object a missing key reads as `undefined`; the other values
      carry none of the keys this model reads (`token`, `cursor` and the
      list fields of a page). */
  function Property(v: JsValue, key: string): (r: Result<JsValue>)
    ensures r.Err? <==> v.Null? || v.Undefined?
    ensures r.Err? ==> r.error.TypeError?
    ensures v.Obj? ==> r == Ok(if key in v.props then v.props[key] else Undefined)
    ensures !v.Obj? && r.Ok? ==> r.value == Undefined
  {
    match v
    case Undefined => Err(TypeError("Cannot read properties of undefined (reading '" + key + "')"))
    case Null => Err(TypeError("Cannot read properties of null (reading '" + key + "')"))
    case Obj(props) => Ok(if key in props then props[key] else Undefined)
    case _ => Ok(Undefined)
  }

  const NotIterable := "Spread syntax requires ...iterable[Symbol.iterator] to be a function"

  /** The elements `push(...v)` appends: an array's elements, a string's
      characters as one-character strings; any other value is not iterable. */
  function Spread(v: JsValue): (r: Result<seq<JsValue>>)
    ensures v.Arr? ==> r == Ok(v.elems)
    ensures v.Str? ==> r.Ok? && |r.value| == |v.s| && forall i :: 0 <= i < |v.s| ==> r.value[i] == Str([v.s[i]])
    ensures !v.Arr? && !v.Str? ==> r.Err? && r.error.TypeError?
  {
    match v
    case Arr(elems) => Ok(elems)
    case Str(s) => Ok(seq(|s|, i requires 0 <= i < |s| => Str([s[i]])))
    case _ => Err(TypeError(NotIterable))
  }
}
