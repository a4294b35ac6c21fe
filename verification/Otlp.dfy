/** Attribute values for telemetry, as the OTLP JSON encoding writes them, and back. */
module Otlp {
  import opened Text
  import opened Json

  /** Numbers as the program's JSON values hold them. */
  predicate IsNumber(n: Number) {
    match n
    case PosInt(n) => n <= U64_MAX
    case NegInt(i) => I64_MIN <= i < 0
    case Float(_) => true
  }

  predicate IsValue(v: Json)
    decreases v
  {
    match v
    case Num(n) => IsNumber(n)
    case Arr(items) => forall i | 0 <= i < |items| :: IsValue(items[i])
    case Obj(fields) => forall i | 0 <= i < |fields| :: IsValue(fields[i].value)
    case _ => true
  }

  function Signed(i: int): string {
    if i < 0 then "-" + Decimal(-i) else Decimal(i)
  }

  function One(key: string, v: Json): Json {
    Obj([Field(key, v)])
  }

  function Pair(key: string, v: Json): Json {
    Obj([Field("key", Str(key)), Field("value", v)])
  }

  function NumberValue(n: Number): Json {
    match n
    case PosInt(n) => One("intValue", Str(Signed(n)))
    case NegInt(i) => One("intValue", Str(Signed(i)))
    case Float(_) => One("doubleValue", Num(n))
  }

  function Attribute(key: string, v: Json): Json
    decreases v, 1
  {
    Pair(key, AnyValue(v))
  }

  function AnyValue(v: Json): Json
    decreases v, 0
  {
    match v
    case Bool(_) => One("boolValue", v)
    case Num(n) => NumberValue(n)
    case Str(_) => One("stringValue", v)
    case Arr(items) =>
      One("arrayValue", One("values", Arr(seq(|items|, i requires 0 <= i < |items| => AnyValue(items[i])))))
    case Obj(fields) =>
      One("kvlistValue", One("values", Arr(seq(|fields|, i requires 0 <= i < |fields| => Attribute(fields[i].key, fields[i].value)))))
    case Null => One("stringValue", Str(""))
  }

  // Reading back

  predicate AreDigits(s: string) {
    s != "" && forall i | 0 <= i < |s| :: IsDigit(s[i])
  }

  function ReadInteger(s: string): Option<Number> {
    if s != "" && s[0] == '-' && AreDigits(s[1..]) then Some(NegInt(0 - Value(s[1..])))
    else if AreDigits(s) then Some(PosInt(Value(s)))
    else None
  }

  predicate IsOne(e: Json, key: string) {
    e.Obj? && |e.fields| == 1 && e.fields[0].key == key
  }

  function Inner(e: Json): (v: Json)
    requires e.Obj? && |e.fields| == 1
    ensures v < e
  {
    e.fields[0].value
  }

  predicate IsList(e: Json) {
    IsOne(e, "values") && Inner(e).Arr?
  }

  predicate IsPair(e: Json) {
    e.Obj? && |e.fields| == 2 && e.fields[0].key == "key" && e.fields[0].value.Str? && e.fields[1].key == "value"
  }

  predicate AllRead(read: seq<Option<Json>>) {
    forall i | 0 <= i < |read| :: read[i].Some?
  }

  /** The JSON value that an encoded one stands for; none when it is no encoding. */
  function Read(e: Json): Option<Json>
    decreases e
  {
    if IsOne(e, "boolValue") && Inner(e).Bool? then Some(Inner(e))
    else if IsOne(e, "stringValue") && Inner(e).Str? then Some(Inner(e))
    else if IsOne(e, "doubleValue") && Inner(e).Num? && Inner(e).number.Float? then Some(Inner(e))
    else if IsOne(e, "intValue") && Inner(e).Str? then
      match ReadInteger(Inner(e).s)
      case None => None
      case Some(n) => Some(Num(n))
    else if IsOne(e, "arrayValue") && IsList(Inner(e)) then
      var items := Inner(Inner(e)).items;
      var read := seq(|items|, i requires 0 <= i < |items| => Read(items[i]));
      if AllRead(read) then Some(Arr(seq(|items|, i requires 0 <= i < |items| => read[i].value))) else None
    else if IsOne(e, "kvlistValue") && IsList(Inner(e)) && (forall i | 0 <= i < |Inner(Inner(e)).items| :: IsPair(Inner(Inner(e)).items[i])) then
      var items := Inner(Inner(e)).items;
      var read := seq(|items|, i requires 0 <= i < |items| => Read(items[i].fields[1].value));
      if AllRead(read)
      then Some(Obj(seq(|items|, i requires 0 <= i < |items| => Field(items[i].fields[0].value.s, read[i].value))))
      else None
    else None
  }

  function ReadAttribute(e: Json): Option<Field> {
    if !IsPair(e) then None
    else
      match Read(e.fields[1].value)
      case None => None
      case Some(v) => Some(Field(e.fields[0].value.s, v))
  }

  /** The value with the empty text in place of every null. */
  function WithoutNulls(v: Json): Json
    decreases v
  {
    match v
    case Null => Str("")
    case Arr(items) => Arr(seq(|items|, i requires 0 <= i < |items| => WithoutNulls(items[i])))
    case Obj(fields) => Obj(seq(|fields|, i requires 0 <= i < |fields| => Field(fields[i].key, WithoutNulls(fields[i].value))))
    case _ => v
  }

  lemma KeysDiffer()
    ensures "boolValue" != "stringValue" && "boolValue" != "intValue" && "boolValue" != "doubleValue" && "boolValue" != "arrayValue"
    ensures "boolValue" != "kvlistValue" && "stringValue" != "intValue" && "stringValue" != "doubleValue" && "stringValue" != "arrayValue"
    ensures "stringValue" != "kvlistValue" && "intValue" != "doubleValue" && "intValue" != "arrayValue" && "intValue" != "kvlistValue"
    ensures "doubleValue" != "arrayValue" && "doubleValue" != "kvlistValue" && "arrayValue" != "kvlistValue"
  {
    assert "boolValue"[0] == 'b' && "stringValue"[0] == 's' && "intValue"[0] == 'i' && "doubleValue"[0] == 'd';
    assert "arrayValue"[0] == 'a' && "kvlistValue"[0] == 'k';
  }

  lemma ReadSigned(i: int)
    ensures ReadInteger(Signed(i)) == Some(if i < 0 then NegInt(i) else PosInt(i))
  {
    hide Decimal, Value;
    var digits := Decimal(if i < 0 then -i else i);
    ValueOfDecimal(if i < 0 then -i else i);
    assert IsDigit(digits[0]) && !IsDigit('-');
    assert ("-" + digits)[1..] == digits;
  }

  lemma ReadNumber(n: Number)
    requires IsNumber(n)
    ensures Read(NumberValue(n)) == Some(Num(n))
  {
    hide Signed, ReadInteger;
    KeysDiffer();
    match n
    case PosInt(n) => ReadSigned(n);
    case NegInt(i) => ReadSigned(i);
    case Float(_) =>
  }

  /** Reading an encoded value gives it back, but for its nulls, at every depth and for every integer of 64 bits. */
  lemma {:induction false} ReadAnyValue(v: Json)
    requires IsValue(v)
    ensures Read(AnyValue(v)) == Some(WithoutNulls(v))
    decreases v
  {
    KeysDiffer();
    match v
    case Num(n) => ReadNumber(n);
    case Arr(items) => ReadArray(items);
    case Obj(fields) => ReadObject(fields);
    case _ =>
  }

  lemma {:induction false} ReadArray(items: seq<Json>)
    requires IsValue(Arr(items))
    ensures Read(AnyValue(Arr(items))) == Some(WithoutNulls(Arr(items)))
    decreases Arr(items), 0
  {
    KeysDiffer();
    var encoded := seq(|items|, i requires 0 <= i < |items| => AnyValue(items[i]));
    var e := One("arrayValue", One("values", Arr(encoded)));
    var read := seq(|encoded|, i requires 0 <= i < |encoded| => Read(encoded[i]));
    forall i | 0 <= i < |items|
      ensures read[i] == Some(WithoutNulls(items[i]))
    {
      ReadAnyValue(items[i]);
    }
    assert AllRead(read);
    var result := seq(|encoded|, i requires 0 <= i < |encoded| => read[i].value);
    assert Read(e) == Some(Arr(result));
    assert result == seq(|items|, i requires 0 <= i < |items| => WithoutNulls(items[i]));
  }

  lemma {:induction false} ReadObject(fields: seq<Field>)
    requires IsValue(Obj(fields))
    ensures Read(AnyValue(Obj(fields))) == Some(WithoutNulls(Obj(fields)))
    decreases Obj(fields), 0
  {
    KeysDiffer();
    var encoded := seq(|fields|, i requires 0 <= i < |fields| => Attribute(fields[i].key, fields[i].value));
    var e := One("kvlistValue", One("values", Arr(encoded)));
    var read := seq(|encoded|, i requires 0 <= i < |encoded| => Read(encoded[i].fields[1].value));
    forall i | 0 <= i < |fields|
      ensures read[i] == Some(WithoutNulls(fields[i].value))
    {
      ReadAnyValue(fields[i].value);
    }
    assert AllRead(read);
    var result := seq(|encoded|, i requires 0 <= i < |encoded| => Field(encoded[i].fields[0].value.s, read[i].value));
    assert Read(e) == Some(Obj(result));
    assert result == seq(|fields|, i requires 0 <= i < |fields| => Field(fields[i].key, WithoutNulls(fields[i].value)));
  }

  /** The same for an attribute, which keeps its key. */
  lemma AttributeRead(key: string, v: Json)
    requires IsValue(v)
    ensures ReadAttribute(Attribute(key, v)) == Some(Field(key, WithoutNulls(v)))
  {
    hide Read, AnyValue, WithoutNulls;
    ReadAnyValue(v);
  }
}
