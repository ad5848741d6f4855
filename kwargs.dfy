/** The failures the command layer can raise, and the keyword-argument binding
    that `Cls(**mapping)` performs when a value is built from a JSON object. */
module Kwargs {
  import opened Json

  datatype Error =
    /** The response bytes are not JSON (the protocol error of the exceptions module). */
    | ProtocolError
    /** The validator refused an instance against `schema`. */
    | SchemaError(schema: Json)
    /** A start response said the implementation is not ready. */
    | ImplementationNotReady
    /** A start response declared a protocol version other than the supported one. */
    | VersionMismatch(expected: int, got: int)
    /** `**x` or `x.pop` was applied to a value that is not a JSON object. */
    | NotAnObject
    /** A constructor call got an unexpected, a missing or a duplicated keyword (TypeError). */
    | BadArguments
    /** `d[key]` or `d.pop(key)` on an object without `key` (KeyError). */
    | MissingKey(key: string)
    /** A field whose JSON value does not have the field's declared type. */
    | IllTyped(name: string)

  datatype Result<+T> = Ok(value: T) | Err(error: Error) {
    predicate IsFailure() { Err? }

    function PropagateFailure<U>(): Result<U>
      requires Err?
    {
      Err(error)
    }

    function Extract(): T
      requires Ok?
    {
      value
    }
  }

  /** Whether `Cls(**kwargs)` binds, for a constructor whose keyword
      parameters are `required` (no default) and `optional` (with a default):
      every required name is given and no other name is. */
  predicate Binds(kwargs: map<string, Json>, required: set<string>, optional: set<string>) {
    required <= kwargs.Keys <= required + optional
  }

  /** A `str | None` field: JSON null and an absent key both give None. */
  function OptionalString(kwargs: map<string, Json>, name: string): Result<Option<string>> {
    if name !in kwargs then Ok(None)
    else match kwargs[name]
      case JNull => Ok(None)
      case JString(s) => Ok(Some(s))
      case _ => Err(IllTyped(name))
  }

  /** A `bool | None` field: JSON null and an absent key both give None. */
  function OptionalBool(kwargs: map<string, Json>, name: string): Result<Option<bool>> {
    if name !in kwargs then Ok(None)
    else match kwargs[name]
      case JNull => Ok(None)
      case JBool(b) => Ok(Some(b))
      case _ => Err(IllTyped(name))
  }

  /** Wire form of an optional string: present iff it is not None. */
  function PutOptional(m: map<string, Json>, name: string, v: Option<string>): map<string, Json> {
    if v.Some? then m[name := JString(v.value)] else m
  }
}
