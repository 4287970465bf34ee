/**
 * Python values as they reach the integration from `json.loads`: the upstream API's
 * response and the persisted cache. Objects are Python dicts, in order.
 */
module Json {
  import opened Wrappers
  import opened OrderedDict
  import Text

  datatype Value =
    | Null
    | Bool(b: bool)
    | Num(n: real)
    | Str(s: string)
    | Arr(items: seq<Value>)
    | Obj(fields: Dict<string, Value>)

  /** The exceptions the modelled code raises or catches. */
  datatype PyError = ValueError | TypeError | KeyError | AttributeError

  /** Python truthiness: `None`, `False`, zero and empty containers are false. */
  predicate Truthy(v: Value) {
    match v
    case Null => false
    case Bool(b) => b
    case Num(n) => n != 0.0
    case Str(s) => |s| > 0
    case Arr(xs) => |xs| > 0
    case Obj(fs) => |fs| > 0
  }

  /** Whether `hash(v)` succeeds: lists and dicts are unhashable and raise `TypeError`. */
  predicate Hashable(v: Value) {
    !v.Arr? && !v.Obj?
  }

  /** `v.get(key)` on a dict: the value stored under `key`, `None` if absent. */
  function Field(fields: Dict<string, Value>, key: string): Option<Value> {
    Get(fields, key)
  }

  /**
   * `float(v)`: numbers pass, booleans become 0.0 or 1.0, strings are parsed
   * (`ValueError` if not decimal), everything else is a `TypeError`.
   */
  function FloatOf(v: Value): (r: Result<real, PyError>)
    ensures r.Err? ==> (r.error == ValueError <==> v.Str?)
    ensures v.Num? ==> r == Ok(v.n)
  {
    match v
    case Num(n) => Ok(n)
    case Bool(b) => Ok(if b then 1.0 else 0.0)
    case Str(s) =>
      (match Text.DecimalOf(s)
       case Some(x) => Ok(x)
       case None => Err(ValueError))
    case _ => Err(TypeError)
  }

  /**
   * What `float()` makes of each kind of value: `True` and `False` are 1.0 and 0.0, a string
   * is read iff it is decimal text and then as its value, and `None`, lists and dicts raise
   * `TypeError`.
   */
  lemma FloatOfCases(v: Value)
    ensures v.Bool? ==> FloatOf(v).Ok? && (FloatOf(v).value == 1.0 <==> v.b) && (FloatOf(v).value == 0.0 <==> !v.b)
    ensures v.Str? ==> (FloatOf(v).Ok? <==> Text.DecimalOf(v.s).Some?)
    ensures v.Str? && FloatOf(v).Ok? ==> Text.DecimalOf(v.s) == Some(FloatOf(v).value)
    ensures v.Null? || v.Arr? || v.Obj? ==> FloatOf(v) == Err(TypeError)
  {
  }
}
