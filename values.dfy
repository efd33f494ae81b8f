/** The dynamically typed values that flow through OpenExtract: parsed YAML
    configuration, request payloads, provider responses and extracted tags
    are all Python dicts of JSON-like data. Python exceptions are modelled
    as `Error` values carrying the exception class and its `str()`. */
module Values {

  /** A JSON-like value. Numbers are exact reals: floating-point rounding
      is not modelled. Object keys are strings, as in JSON and YAML maps. */
  datatype Value =
    | Str(s: string)
    | Num(n: real)
    | Bool(b: bool)
    | Null
    | List(items: seq<Value>)
    | Obj(fields: map<string, Value>)

  /** A Python dict with string keys, such as a payload or a config block. */
  type Dict = map<string, Value>

  /** The Python exception classes the core raises or lets through. */
  datatype ErrorKind =
    | KeyError
    | IndexError
    | TypeError
    | ValueError
    | RuntimeError
    | FileNotFoundError
    /** A `str.format` feature outside this model (format specs,
        conversions, attribute or index access in a field name). */
    | Unmodelled

  /** An exception: its class and its message, `str(exc)`. */
  datatype Error = Error(kind: ErrorKind, message: string)

  /** Python's `d.get(key, default)`. */
  function Get(d: Dict, key: string, default: Value): (v: Value)
    ensures key in d ==> v == d[key]
    ensures key !in d ==> v == default
  {
    if key in d then d[key] else default
  }
}
