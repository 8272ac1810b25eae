/**
 * Dynamically typed configuration and log-field values (Go's `interface{}`),
 * and the outcome of the opaque struct decoder applied to them.
 */
module Values {
  import opened Options

  /** A Go value of static type `interface{}`, by its dynamic type. */
  datatype Value =
    | Nil                              // the untyped nil
    | Str(s: string)
    | Int(i: int)
    | Bool(b: bool)
    | List(items: seq<Value>)          // []interface{}
    | AnyMap(entries: map<Value, Value>) // map[interface{}]interface{}
    | StrMap(fields: map<string, Value>) // map[string]interface{}
    | CodeVal(code: int)               // a gRPC status code
    | DurationVal(nanos: int)          // a time.Duration
    | ErrorVal(message: string)        // an error value
    | Other(typeName: string)          // any other dynamic type, named by its Go type

  /**
   * What decoding a value into a `*T` target through the struct decoder
   * (mapstructure) leaves behind: an error, a target pointer still nil, or a
   * decoded struct. The decoder is a library outside this model and is
   * passed in as a function.
   */
  datatype Decoded<+T> = DecodeFailed | DecodedNil | Decoded(value: T)

  /**
   * What a hook factory does as the source is written: it returns a hook or
   * no hook (`(hook, ok)` with `ok` false), or it dereferences a nil pointer
   * and panics.
   */
  datatype Built<+T> = Returned(hook: Option<T>) | NilPointerPanic
}
