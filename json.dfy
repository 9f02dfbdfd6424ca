/**
 * Qt's JSON value (QJsonValue / QJsonArray / QJsonObject) as the
 * application reads and writes it, with the accessors' default values,
 * and the decimal text form of integers used for the keys of JSON objects
 * (QString::number and QString::toInt).
 */
module Json {

  datatype Option<T> = None | Some(value: T)

  /** A JSON value. A missing object member reads as JNull (Qt's Undefined
    * behaves the same way under every accessor used here). Numbers are
    * exact reals: Qt stores them as doubles. */
  datatype Json =
    | JNull
    | JBool(b: bool)
    | JNum(n: real)
    | JStr(s: string)
    | JArr(items: seq<Json>)
    | JObj(fields: map<string, Json>)

  const INT32_MIN: int := -0x8000_0000
  const INT32_MAX: int := 0x7FFF_FFFF

  predicate IsInt32(i: int) {
    INT32_MIN <= i <= INT32_MAX
  }

  /** QJsonObject::value / operator[] */
  function Get(o: map<string, Json>, key: string): Json {
    if key in o then o[key] else JNull
  }

  /** QJsonValue::toInt(): a whole number that fits an int, otherwise 0. */
  function ToInt(v: Json): (r: int)
    ensures IsInt32(r)
    ensures v.JNum? && v.n == v.n.Floor as real && IsInt32(v.n.Floor) ==> r == v.n.Floor
    ensures !v.JNum? ==> r == 0
  {
    match v
    case JNum(n) => if n == n.Floor as real && IsInt32(n.Floor) then n.Floor else 0
    case _ => 0
  }

  /** QJsonValue::toDouble(): 0 for anything but a number. */
  function ToDouble(v: Json): real {
    if v.JNum? then v.n else 0.0
  }

  /** QJsonValue::toString(): "" for anything but a string. */
  function ToStr(v: Json): string {
    if v.JStr? then v.s else ""
  }

  /** QJsonValue::toArray(): empty for anything but an array. */
  function ToArr(v: Json): seq<Json> {
    if v.JArr? then v.items else []
  }

  /** QJsonValue::toObject(): empty for anything but an object. */
  function ToObj(v: Json): map<string, Json> {
    if v.JObj? then v.fields else map[]
  }

  /** QVariant::toLongLong on a JSON value: a number rounded to the nearest
    * whole number (halves away from zero), a boolean as 0 or 1, and 0
    * for anything else. */
  function ToLongLong(v: Json): (r: int)
    ensures v.JNum? && v.n == v.n.Floor as real ==> r == v.n.Floor
  {
    match v
    case JNum(n) => if 0.0 <= n then (n + 0.5).Floor else -((0.5 - n).Floor)
    case JBool(b) => if b then 1 else 0
    case _ => 0
  }

  /** An int written into a QJsonValue. */
  function IntValue(i: int): Json {
    JNum(i as real)
  }

  lemma IntValueRoundTrip(i: int)
    requires IsInt32(i)
    ensures ToInt(IntValue(i)) == i
  {
  }

  // ---------------------------------------------------------------------
  // Decimal text of integers: QString::number(int) and QString::toInt()

  predicate IsDigit(c: char) {
    '0' <= c <= '9'
  }

  predicate AllDigits(s: string) {
    forall k :: 0 <= k < |s| ==> IsDigit(s[k])
  }

  function DigitChar(d: nat): (c: char)
    requires d < 10
    ensures IsDigit(c)
  {
    "0123456789"[d]
  }

  function DigitValue(c: char): (d: nat)
    requires IsDigit(c)
    ensures d < 10
  {
    (c as int - '0' as int) as nat
  }

  /** Decimal digits of n, most significant first, no leading zeros. */
  function NatToString(n: nat): (s: string)
    decreases n
  {
    if n < 10 then [DigitChar(n)] else NatToString(n / 10) + [DigitChar(n % 10)]
  }

  /** QString::number(int) */
  function IntToString(i: int): string {
    if i < 0 then "-" + NatToString(-i) else NatToString(i)
  }

  /** Value of a string of decimal digits. */
  function DigitsValue(s: string): nat
    requires AllDigits(s)
  {
    if s == [] then 0 else DigitsValue(s[..|s| - 1]) * 10 + DigitValue(s[|s| - 1])
  }

  /** QString::toInt(): an optional sign and at least one digit, in the
    * range of int; anything else gives 0. */
  function ParseInt(s: string): (r: int)
    ensures IsInt32(r)
  {
    var signed := |s| > 0 && (s[0] == '-' || s[0] == '+');
    var digits := if signed then s[1..] else s;
    if digits == [] || !AllDigits(digits) then 0
    else
      var magnitude: int := DigitsValue(digits);
      var v := if signed && s[0] == '-' then -magnitude else magnitude;
      if IsInt32(v) then v else 0
  }

  lemma {:induction false} NatToStringDigits(n: nat)
    ensures |NatToString(n)| > 0
    ensures AllDigits(NatToString(n))
    ensures DigitsValue(NatToString(n)) == n
    decreases n
  {
    if n >= 10 {
      NatToStringDigits(n / 10);
      var s := NatToString(n);
      var prefix := NatToString(n / 10);
      assert s == prefix + [DigitChar(n % 10)];
      assert s[..|s| - 1] == prefix;
      assert DigitValue(DigitChar(n % 10)) == n % 10;
    } else {
      assert DigitValue(DigitChar(n)) == n;
    }
  }

  /** QString::toInt inverts QString::number on every int. */
  lemma IntToStringRoundTrip(i: int)
    requires IsInt32(i)
    ensures ParseInt(IntToString(i)) == i
  {
    var m: nat := if i < 0 then -i else i;
    NatToStringDigits(m);
    var s := IntToString(i);
    if i < 0 {
      assert s[0] == '-' && s[1..] == NatToString(m);
    } else {
      assert IsDigit(s[0]);
    }
  }

  /** Distinct ints have distinct decimal text. */
  lemma IntToStringInjective(i: int, j: int)
    requires IntToString(i) == IntToString(j)
    ensures i == j
  {
    var a: nat := if i < 0 then -i else i;
    var b: nat := if j < 0 then -j else j;
    NatToStringDigits(a);
    NatToStringDigits(b);
    var s := IntToString(i);
    assert IsDigit(NatToString(a)[0]) && IsDigit(NatToString(b)[0]);
    assert (i < 0) == (s[0] == '-') == (j < 0);
    if i < 0 {
      assert s[1..] == NatToString(a) == NatToString(b);
    }
  }

  lemma IntToStringInjectiveAll()
    ensures forall i, j :: IntToString(i) == IntToString(j) ==> i == j
  {
    forall i, j | IntToString(i) == IntToString(j)
      ensures i == j
    {
      IntToStringInjective(i, j);
    }
  }
}
