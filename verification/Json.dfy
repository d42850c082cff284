/** JSON values as the program's stores hold them: an object is a map from key to value. */
module Json {
  import opened Wrappers

  /** A JSON number: one written as an integer, or one with a fraction or an exponent. */
  datatype Number = Integer(i: int) | Decimal(r: real)

  datatype Json =
    | Null
    | Bool(b: bool)
    | Num(n: Number)
    | Str(s: string)
    | Arr(items: seq<Json>)
    | Obj(fields: map<string, Json>)
  {
    /** The value under `key` of an object; nothing for any other value. */
    function Get(key: string): Option<Json> {
      if Obj? && key in fields then Some(fields[key]) else None
    }

    /** The string a value is, if it is one. */
    function AsStr(): Option<string> {
      if Str? then Some(s) else None
    }
  }
}
