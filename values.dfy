/** Python-level values as the sensor core sees them: the result of parsing a
    JSON configuration, the attributes stored on sensor objects, and the
    exceptions the core lets escape. */
module Values {

  datatype Option<+T> = None | Some(value: T)

  /** A computation that either yields a value or raises a Python exception. */
  datatype Result<+T> = Ok(value: T) | Err(error: PyError) {
    predicate IsFailure() { Err? }
    function PropagateFailure<U>(): Result<U> requires Err? { Err(error) }
    function Extract(): T requires Ok? { value }
  }

  /** The exceptions the modelled code can raise. */
  datatype PyError =
    | KeyError(key: Value)        // dictionary lookup of a missing key
    | TypeError(reason: string)   // calling a non-callable, unexpected keyword, unhashable key
    | AttributeError(name: string)
    | NameError(name: string)     // reading a local variable that was never bound

  /** The driver entry points that sensor objects hold as attributes. */
  datatype Callable = ConfigureI2c | ConfigureSpi | GetI2cVal | GetSpiVal | GetUartVal

  /** A Python value. `Null` is both JSON `null` and Python `None`; a float is
      kept as the decimal literal mantissa * 10^exponent and never computed
      with; `Fn` is a reference to a driver function. */
  datatype Value =
    | Null
    | Bool(b: bool)
    | Int(i: int)
    | Float(mantissa: int, exponent: int)
    | Str(s: string)
    | Array(items: seq<Value>)
    | Object(fields: map<string, Value>)
    | Fn(f: Callable)

  /** Python truthiness: `None`, `False`, zero, and empty strings, lists and
      dictionaries are false; everything else is true. */
  predicate Truthy(v: Value) {
    match v
    case Null => false
    case Bool(b) => b
    case Int(i) => i != 0
    case Float(m, _) => m != 0
    case Str(s) => s != ""
    case Array(items) => items != []
    case Object(fields) => fields != map[]
    case Fn(_) => true
  }

  /** Python hashability: lists and dictionaries cannot be dictionary keys. */
  predicate Hashable(v: Value) {
    !v.Array? && !v.Object?
  }
}
