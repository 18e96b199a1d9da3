/** Parsed JSON values and the ways the components look into them. */
module Json {
  import opened Wrappers

  /** Numbers keep the text they are printed with. */
  datatype Value =
    | Null
    | Bool(flag: bool)
    | Number(text: string)
    | String(s: string)
    | Array(items: seq<Value>)
    | Object(fields: map<string, Value>)

  function Get(value: Value, key: string): Option<Value> {
    if value.Object? && key in value.fields then Some(value.fields[key]) else None
  }

  function GetEither(value: Value, key: string, other: string): Option<Value> {
    if Get(value, key).Some? then Get(value, key) else Get(value, other)
  }

  function At(value: Value, key: string, inner: string): Option<Value> {
    match Get(value, key)
    case Some(v) => Get(v, inner)
    case None => None
  }

  function AsStr(value: Option<Value>): Option<string> {
    if value.Some? && value.value.String? then Some(value.value.s) else None
  }

  function AsArray(value: Option<Value>): Option<seq<Value>> {
    if value.Some? && value.value.Array? then Some(value.value.items) else None
  }

  function OrElse<T>(value: Option<T>, other: T): T {
    if value.Some? then value.value else other
  }

  /** Indexing that yields null for what is not there. */
  function Field(value: Value, key: string): Value {
    OrElse(Get(value, key), Null)
  }

  predicate IsDigit(c: char) {
    '0' <= c <= '9'
  }

  function Digits(text: string): nat
    requires forall i :: 0 <= i < |text| ==> IsDigit(text[i])
  {
    if text == "" then 0
    else
      assert IsDigit(text[|text| - 1]);
      Digits(text[..|text| - 1]) * 10 + (text[|text| - 1] as int - '0' as int)
  }

  const TWO_TO_THE_64 := 0x1_0000_0000_0000_0000

  function ParseNat(text: string): Option<nat> {
    if text != "" && (forall i :: 0 <= i < |text| ==> IsDigit(text[i])) && Digits(text) < TWO_TO_THE_64
    then Some(Digits(text)) else None
  }

  function AsNat(value: Value): Option<nat> {
    if value.Number? then ParseNat(value.text) else None
  }

  function Decimal(n: nat): (text: string)
    ensures text != "" && forall i :: 0 <= i < |text| ==> IsDigit(text[i])
  {
    if n < 10 then [('0' as int + n) as char] else Decimal(n / 10) + [('0' as int + n % 10) as char]
  }

  lemma {:induction false} DecimalParses(n: nat)
    ensures Digits(Decimal(n)) == n
    ensures n < TWO_TO_THE_64 ==> ParseNat(Decimal(n)) == Some(n)
    decreases n
  {
    var text := Decimal(n);
    if n >= 10 {
      DecimalParses(n / 10);
      assert text[..|text| - 1] == Decimal(n / 10);
    } else {
      assert text[..0] == "";
    }
  }
}
