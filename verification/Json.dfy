/** JSON values, as far as the code looks into them. */
module Json {
  import opened Wrappers

  datatype Value =
    | Null
    | Bool(truth: bool)
    | Number(number: int)
    | Fraction
    | Text(text: string)
    | List(items: seq<Value>)
    | Object(fields: map<string, Value>)

  function Field(v: Value, name: string): Option<Value> {
    if v.Object? && name in v.fields then Some(v.fields[name]) else None
  }

  /** `pointer`, along object fields. */
  function At(v: Value, path: seq<string>): Option<Value> {
    if path == [] then Some(v)
    else match Field(v, path[0]) case Some(inner) => At(inner, path[1..]) case None => None
  }

  function AsText(v: Option<Value>): Option<string> {
    match v case Some(Text(text)) => Some(text) case _ => None
  }

  /** `as_u64`. */
  function AsNat(v: Option<Value>): Option<nat> {
    match v
    case Some(Number(n)) => if 0 <= n < 0x1_0000_0000_0000_0000 then Some(n) else None
    case _ => None
  }
}
