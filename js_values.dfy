/** JavaScript values as the storefront script sees them: decoded JSON payloads
    plus `undefined`, with the coercions the script relies on (truthiness,
    `??`, `||`, `String(x)`, `Number(x)`). Numbers are restricted to integers
    and NaN. */
module JsValues {

  datatype Option<T> = None | Some(value: T)

  /** A JavaScript number, restricted to the integers plus NaN. */
  datatype Number = Int(i: int) | NaN

  datatype Value =
    | Undefined
    | Null
    | Bool(b: bool)
    | Num(n: Number)
    | Str(s: string)
    | Arr(items: seq<Value>)
    | Obj(fields: map<string, Value>)

  /** `v === null || v === undefined` */
  predicate Nullish(v: Value) {
    v.Undefined? || v.Null?
  }

  /** JavaScript truthiness: `undefined`, `null`, `false`, `0`, `NaN` and `""` are falsy. */
  predicate Truthy(v: Value) {
    match v
    case Undefined => false
    case Null => false
    case Bool(b) => b
    case Num(n) => n.Int? && n.i != 0
    case Str(s) => s != ""
    case Arr(_) => true
    case Obj(_) => true
  }

  /** Property read with optional chaining, `v?.k`. Only own data properties
      of objects are modelled; no key the script reads names a built-in
      property of strings, numbers or arrays. */
  function Get(v: Value, k: string): (r: Value)
    ensures !v.Obj? ==> r == Undefined
    ensures v.Obj? && k !in v.fields ==> r == Undefined
    ensures v.Obj? && k in v.fields ==> r == v.fields[k]
  {
    if v.Obj? && k in v.fields then v.fields[k] else Undefined
  }

  /** `a || b` */
  function Or(a: Value, b: Value): (r: Value)
    ensures Truthy(a) ==> r == a
    ensures !Truthy(a) ==> r == b
  {
    if Truthy(a) then a else b
  }

  /** `a ?? b` */
  function Coalesce(a: Value, b: Value): (r: Value)
    ensures !Nullish(a) ==> r == a
    ensures Nullish(a) ==> r == b
  {
    if Nullish(a) then b else a
  }

  /** A destructuring default `{ k = d } = o`: the default replaces `undefined` only. */
  function Default(v: Value, d: Value): (r: Value)
    ensures v.Undefined? ==> r == d
    ensures !v.Undefined? ==> r == v
  {
    if v.Undefined? then d else v
  }

  /** Numeric `+`: NaN absorbs everything. */
  function Add(a: Number, b: Number): (r: Number)
    ensures r.Int? <==> a.Int? && b.Int?
    ensures r.Int? ==> r.i == a.i + b.i
  {
    if a.Int? && b.Int? then Int(a.i + b.i) else NaN
  }

  // ---------------------------------------------------------------------
  // Decimal notation
  // ---------------------------------------------------------------------

  predicate IsDigit(c: char) {
    '0' <= c <= '9'
  }

  predicate AllDigits(s: string) {
    forall k :: 0 <= k < |s| ==> IsDigit(s[k])
  }

  function DigitChar(d: nat): (c: char)
    requires d < 10
    ensures IsDigit(c) && c as int - '0' as int == d
  {
    ['0', '1', '2', '3', '4', '5', '6', '7', '8', '9'][d]
  }

  /** Decimal digits of a natural number, most significant first, no leading zeros. */
  function NatToString(n: nat): (s: string)
    ensures |s| >= 1 && AllDigits(s)
    ensures |s| > 1 ==> s[0] != '0'
  {
    if n < 10 then [DigitChar(n)] else NatToString(n / 10) + [DigitChar(n % 10)]
  }

  /** The value of a string of decimal digits. */
  function DigitsValue(s: string): nat
    requires AllDigits(s)
  {
    if s == [] then 0
    else DigitsValue(s[..|s| - 1]) * 10 + (s[|s| - 1] as int - '0' as int)
  }

  /** How a JavaScript integer is printed by `String(n)` and template literals. */
  function IntToString(n: int): (s: string)
    ensures |s| >= 1
    ensures n >= 0 <==> s[0] != '-'
  {
    if n < 0 then "-" + NatToString(-n) else NatToString(n)
  }

  /** `Number(s)` for a string: the empty string is 0, an optional minus sign
      followed by decimal digits is that integer, anything else is NaN. */
  function StringToNumber(s: string): (r: Number)
    ensures s == "" ==> r == Int(0)
    ensures s != "" && AllDigits(s) ==> r == Int(DigitsValue(s))
    ensures |s| > 1 && s[0] == '-' && AllDigits(s[1..]) ==> r == Int(-(DigitsValue(s[1..]) as int))
  {
    if s == "" then Int(0)
    else if AllDigits(s) then Int(DigitsValue(s))
    else if |s| > 1 && s[0] == '-' && AllDigits(s[1..]) then Int(-(DigitsValue(s[1..]) as int))
    else NaN
  }

  lemma {:induction false} DigitsOfNat(n: nat)
    ensures DigitsValue(NatToString(n)) == n
  {
    if n >= 10 {
      var s := NatToString(n);
      DigitsOfNat(n / 10);
      assert s[..|s| - 1] == NatToString(n / 10);
    }
  }

  /** Printing an integer and reading it back with `Number` gives the integer. */
  lemma IntToStringRoundTrip(n: int)
    ensures StringToNumber(IntToString(n)) == Int(n)
  {
    if n < 0 {
      var t := NatToString(-n);
      var s := "-" + t;
      assert s == IntToString(n);
      DigitsOfNat(-n);
      assert s[1..] == t;
      assert !AllDigits(s) by { assert !IsDigit(s[0]); }
      assert StringToNumber(s) == Int(-(DigitsValue(t) as int));
    } else {
      DigitsOfNat(n);
    }
  }

  function NumberToString(x: Number): (s: string)
    ensures x.NaN? ==> s == "NaN"
    ensures x.Int? ==> StringToNumber(s) == x
  {
    match x
    case NaN => "NaN"
    case Int(i) => IntToStringRoundTrip(i); IntToString(i)
  }

  /** `String(v)`, as used by template literals. An array prints its elements
      joined by commas, with `null` and `undefined` elements printed empty. */
  function ToStr(v: Value): string
    decreases v, 1
  {
    match v
    case Undefined => "undefined"
    case Null => "null"
    case Bool(b) => if b then "true" else "false"
    case Num(n) => NumberToString(n)
    case Str(s) => s
    case Arr(items) => JoinFrom(v, 0)
    case Obj(_) => "[object Object]"
  }

  /** The comma-joined rendering of the elements of array `a` from index `i` on. */
  function JoinFrom(a: Value, i: nat): string
    requires a.Arr? && i <= |a.items|
    decreases a, 0, |a.items| - i
  {
    if i == |a.items| then ""
    else
      var e := a.items[i];
      var here := if Nullish(e) then "" else ToStr(e);
      if i + 1 == |a.items| then here else here + "," + JoinFrom(a, i + 1)
  }

  /** `Number(v)`. Objects and arrays convert through their string form. */
  function ToNumber(v: Value): (r: Number)
    ensures v.Num? ==> r == v.n
    ensures v.Str? ==> r == StringToNumber(v.s)
    ensures v.Null? ==> r == Int(0)
    ensures v.Undefined? ==> r == NaN
  {
    match v
    case Undefined => NaN
    case Null => Int(0)
    case Bool(b) => if b then Int(1) else Int(0)
    case Num(n) => n
    case Str(s) => StringToNumber(s)
    case Arr(_) => StringToNumber(ToStr(v))
    case Obj(_) => StringToNumber(ToStr(v))
  }

  /** A printed price converts back with `Number` to the price: `Number(String(n)) == n`
      at the level of values, and a printed NaN converts back to NaN. */
  lemma ToNumberOfPrinted(x: Number)
    ensures ToNumber(Str(NumberToString(x))) == x
  {
    if x.Int? {
      IntToStringRoundTrip(x.i);
    } else {
      assert !AllDigits("NaN") by { assert !IsDigit("NaN"[0]); }
    }
  }
}
