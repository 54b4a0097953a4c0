/** JSON values as the runtime holds them.  A number keeps the form the parser gave it:
    an unsigned integer, a negative integer or a float. */
module Json {
  import opened Wrappers

  datatype Number = PosInt(u: nat) | NegInt(i: int) | Float(f: real)

  datatype Json =
    | Null
    | Bool(b: bool)
    | Num(n: Number)
    | Str(s: string)
    | Arr(items: seq<Json>)
    | Obj(fields: map<string, Json>)

  function Field(v: Json, key: string): Option<Json> {
    if v.Obj? && key in v.fields then Some(v.fields[key]) else None
  }

  function AsStr(v: Option<Json>): Option<string> {
    if v.Some? && v.value.Str? then Some(v.value.s) else None
  }

  function AsU64(v: Option<Json>): Option<nat> {
    if v.Some? && v.value.Num? && v.value.n.PosInt? then Some(v.value.n.u) else None
  }
}
