/** The Python values that flow through the plugin's configuration mappings,
    and the exceptions its code can raise. */
module PyValues {

  /** A configuration value: the scalar kinds a profile or model config can hold,
      and nested mappings with string keys. */
  datatype Value =
    | PyNone
    | Bool(b: bool)
    | Int(i: int)
    | Float(x: real)
    | Str(s: string)
    | Dict(entries: map<string, Value>)

  /** Python's `v == False`. Because `bool` is a subclass of `int`, the
      integer 0 and the float 0.0 compare equal to `False` as well. */
  predicate EqualsFalse(v: Value) {
    v == Bool(false) || v == Int(0) || v == Float(0.0)
  }

  /** Python's `d.get(key, default)`. */
  function Get(d: map<string, Value>, key: string, default: Value): Value {
    if key in d then d[key] else default
  }

  /** The exceptions the plugin's own code raises (library exceptions are not modelled). */
  datatype Error =
    | AssertionError
    | KeyError(key: string)
    // a subscript or `**` unpacking of a value that is not a mapping,
    // or a non-string assigned into `os.environ`
    | TypeError
    | AttributeError(name: string)

  /** How a call that returns nothing ends: normally, or by raising. */
  datatype Outcome = Ok | Raised(error: Error)

  /** How a call that returns a value ends. */
  datatype Result<T> = Success(value: T) | Failure(error: Error)
}
