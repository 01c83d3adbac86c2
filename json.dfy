/** The JSON values that configuration files, payloads and webhook replies carry,
    as Python's json module exposes them. */
module Json {

  datatype Value =
    | Null
    | Bool(b: bool)
    | Int(i: int)
    | Float(r: real)
    | Str(s: string)
    | Arr(items: seq<Value>)
    | Obj(fields: map<string, Value>)

  /** Python's `v == n` for a parsed JSON value and an int: True/False compare as 1/0
      and a float compares by its value. */
  predicate EqualsInt(v: Value, n: int) {
    v == Int(n) || v == Float(n as real) || (v == Bool(true) && n == 1) || (v == Bool(false) && n == 0)
  }

  /** dict.get(key) on a parsed JSON object, None (Python's) when the key is absent. */
  function Field(fields: map<string, Value>, key: string): Value {
    if key in fields then fields[key] else Null
  }
}
