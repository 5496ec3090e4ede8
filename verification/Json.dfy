/** Bytes and parsed JSON values, as the gateway sees them. Parsing and printing are parameters of
    the modules that need them. */
module Json {
  import opened Common

  type Byte = b: int | 0 <= b < 256
  type Bytes = seq<Byte>

  datatype Value =
    | Null
    | Bool(b: bool)
    | Unsigned(n: nat)           // a number that fits u64
    | OtherNumber(text: string)  // a negative number or a fraction
    | String(text: string)
    | Array(items: seq<Value>)
    | Object(fields: map<string, Value>)

  function Get(v: Value, field: string): Option<Value> {
    if v.Object? && field in v.fields then Some(v.fields[field]) else None
  }

  function GetUnsigned(v: Value, field: string): Option<nat> {
    match Get(v, field)
    case Some(Unsigned(n)) => Some(n)
    case _ => None
  }

  function GetString(v: Value, field: string): Option<string> {
    match Get(v, field)
    case Some(String(text)) => Some(text)
    case _ => None
  }

  function HasObject(v: Value, field: string): bool {
    var f := Get(v, field);
    f.Some? && f.value.Object?
  }
}
