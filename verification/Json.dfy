/** JSON values, as the program holds them after parsing. */
module Json {
  import opened Text

  datatype Number = PosInt(n: nat) | NegInt(i: int) | Float(r: real)

  datatype Json =
    | Null
    | Bool(b: bool)
    | Num(number: Number)
    | Str(s: string)
    | Arr(items: seq<Json>)
    | Obj(fields: seq<Field>)

  datatype Field = Field(key: string, value: Json)

  const I64_MAX := 0x7FFF_FFFF_FFFF_FFFF
  const I64_MIN := -0x8000_0000_0000_0000
  const U64_MAX := 0xFFFF_FFFF_FFFF_FFFF

  function Find(fields: seq<Field>, key: string): (v: Option<Json>)
    ensures v.Some? <==> exists i | 0 <= i < |fields| :: fields[i].key == key
  {
    if fields == [] then None
    else if fields[0].key == key then Some(fields[0].value)
    else Find(fields[1..], key)
  }

  /** The value under `key`; none when there is no such key or `v` is not an object. */
  function Get(v: Json, key: string): Option<Json> {
    if v.Obj? then Find(v.fields, key) else None
  }

  function GetString(v: Json, key: string): Option<string> {
    match Get(v, key)
    case Some(Str(s)) => Some(s)
    case _ => None
  }

  function GetInteger(v: Json, key: string): Option<int> {
    match Get(v, key)
    case Some(Num(PosInt(n))) => if n <= I64_MAX then Some(n) else None
    case Some(Num(NegInt(i))) => Some(i)
    case _ => None
  }
}
