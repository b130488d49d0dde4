/** JavaScript values as the storefront reads them from the realtime database,
    from form fields and from the browser's storage, with the coercions the
    code applies to them: truthiness, `??`, `||`, optional property access,
    `String(x)`, `Number(x)` and `Math.round`. */
module JsValue {
  import opened JsText

  datatype Option<T> = None | Some(value: T)

  /** A completed call, or a thrown `Error` with its message. */
  datatype Result<T> = Ok(value: T) | Err(message: string)

  /** A JSON-like value. A number held in a value is finite, as JSON has no
      NaN or Infinity; a text such as "Infinity" stays a text here, and
      `ToNumber` reads it as `Infinite`. */
  datatype Value =
    | Undefined
    | Null
    | Bool(b: bool)
    | Num(n: real)
    | Str(s: string)
    | Arr(items: seq<Value>)
    | Obj(fields: map<string, Value>)

  /** The result of `Number(x)`. */
  datatype Number = Fin(r: real) | NaN | Infinite(negative: bool)

  /** How a read of one database path ended: no value stored there, the
      stored value, or a thrown error. */
  datatype Read = Missing | Found(value: Value) | Failed

  /** Null and undefined are falsy, arrays and objects truthy, and a number
      is truthy exactly when it is not zero. */
  predicate Truthy(v: Value)
    ensures Nullish(v) ==> !Truthy(v)
    ensures v.Arr? || v.Obj? ==> Truthy(v)
    ensures v.Num? ==> (Truthy(v) <==> ToNumber(v) != Fin(0.0))
  {
    match v
    case Undefined => false
    case Null => false
    case Bool(b) => b
    case Num(n) => n != 0.0
    case Str(s) => s != ""
    case Arr(_) => true
    case Obj(_) => true
  }

  predicate Nullish(v: Value) { v == Undefined || v == Null }

  /** `a ?? b` */
  function Coalesce(a: Value, b: Value): (r: Value)
    ensures Nullish(a) ==> r == b
    ensures !Nullish(a) ==> r == a
  {
    if Nullish(a) then b else a
  }

  /** `a || b` */
  function Or(a: Value, b: Value): (r: Value)
    ensures Truthy(a) ==> r == a
    ensures !Truthy(a) ==> r == b
  {
    if Truthy(a) then a else b
  }

  /** `v?.[k]`: the property of an object, `undefined` for anything else. */
  function Get(v: Value, k: string): Value {
    if v.Obj? && k in v.fields then v.fields[k] else Undefined
  }

  /** `v?.[k1]?.[k2]` */
  function Get2(v: Value, k1: string, k2: string): Value {
    Get(Get(v, k1), k2)
  }

  function TextOf(v: Value, default: string): string {
    if v.Str? then v.s else default
  }

  /** `String(v)`; an array element that is null or undefined prints as "". */
  function ToText(v: Value): string
    decreases v, 1
  {
    match v
    case Undefined => "undefined"
    case Null => "null"
    case Bool(b) => if b then "true" else "false"
    case Num(n) => NumStr(n)
    case Str(s) => s
    case Arr(items) => Join(ElementTexts(v, items), ",")
    case Obj(_) => "[object Object]"
  }

  function ElementTexts(parent: Value, items: seq<Value>): (r: seq<string>)
    requires forall i :: 0 <= i < |items| ==> items[i] < parent
    ensures |r| == |items|
    decreases parent, 0, |items|
  {
    if items == [] then []
    else [if Nullish(items[0]) then "" else ToText(items[0])] + ElementTexts(parent, items[1..])
  }

  /** Position of the first occurrence of `c` in `s`. */
  function IndexOf(s: string, c: char): (r: Option<nat>)
    ensures r.None? <==> c !in s
    ensures r.Some? ==> r.value < |s| && s[r.value] == c && c !in s[..r.value]
  {
    if s == [] then None
    else if s[0] == c then Some(0)
    else match IndexOf(s[1..], c)
      case None => None
      case Some(i) => assert s[..i + 1] == [s[0]] + s[1..][..i]; Some(i + 1)
  }

  /** Optional sign followed by decimal digits, as in an exponent. */
  function SignedInt(s: string): Option<int> {
    if s != [] && (s[0] == '+' || s[0] == '-') then
      if s[1..] != [] && AllDigits(s[1..]) then
        var d: int := DigitsValue(s[1..]);
        Some(if s[0] == '-' then -d else d)
      else None
    else if s != [] && AllDigits(s) then Some(DigitsValue(s))
    else None
  }

  function Scale(m: real, e: int): real {
    if e >= 0 then m * Pow10(e) as real else m / Pow10(-e) as real
  }

  /** An unsigned decimal literal: `digits [. digits] [e exp]` or `. digits [e exp]`. */
  function UnsignedDecimal(s: string): Option<real> {
    var eAt := match IndexOf(s, 'e') case Some(i) => Some(i) case None => IndexOf(s, 'E');
    var mant := if eAt.Some? then s[..eAt.value] else s;
    var exp := if eAt.Some? then SignedInt(s[eAt.value + 1..]) else Some(0);
    if 'e' in mant || 'E' in mant || exp.None? then None
    else
      var dot := IndexOf(mant, '.');
      var ip := if dot.Some? then mant[..dot.value] else mant;
      var fp := if dot.Some? then mant[dot.value + 1..] else "";
      if AllDigits(ip) && AllDigits(fp) && |ip| + |fp| >= 1 then
        Some(Scale(DigitsValue(ip) as real + DigitsValue(fp) as real / Pow10(|fp|) as real, exp.value))
      else None
  }

  function RadixDigit(c: char): nat {
    if '0' <= c <= '9' then c as int - '0' as int
    else if 'a' <= c <= 'z' then c as int - 'a' as int + 10
    else if 'A' <= c <= 'Z' then c as int - 'A' as int + 10
    else 36
  }

  function RadixValue(s: string, radix: nat): Option<nat> {
    if s == [] || RadixDigit(s[|s| - 1]) >= radix then None
    else if |s| == 1 then Some(RadixDigit(s[0]))
    else match RadixValue(s[..|s| - 1], radix)
      case None => None
      case Some(v) => NatShift(v, radix); Some(v * radix + RadixDigit(s[|s| - 1]))
  }

  lemma NatShift(v: nat, radix: nat)
    ensures v * radix >= 0
  {
  }

  /** `Number(s)` for a string (StringToNumber): surrounding white space is
      ignored, the empty string is 0, then a signed decimal literal with an
      optional exponent, `Infinity`, or an unsigned 0x / 0o / 0b literal. */
  function StringToNumber(s: string): (r: Number)
    ensures r.Infinite? <==> Trim(s) == "Infinity" || Trim(s) == "+Infinity" || Trim(s) == "-Infinity"
    ensures r.Infinite? ==> (r.negative <==> Trim(s) == "-Infinity")
  {
    var t := Trim(s);
    if t == "" then Fin(0.0)
    else if t == "Infinity" || t == "+Infinity" then Infinite(false)
    else if t == "-Infinity" then Infinite(true)
    else if |t| > 2 && t[0] == '0' && t[1] in "xXoObB" then
      var radix := if t[1] in "xX" then 16 else if t[1] in "oO" then 8 else 2;
      match RadixValue(t[2..], radix)
      case Some(v) => Fin(v as real)
      case None => NaN
    else
      var neg := t[0] == '-';
      var body := if t[0] == '-' || t[0] == '+' then t[1..] else t;
      match UnsignedDecimal(body)
      case Some(m) => Fin(if neg then -m else m)
      case None => NaN
  }

  /** `Number(v)`: a number reads as itself, and only a text (or an array,
      through its text) can read as an infinity. */
  function ToNumber(v: Value): (r: Number)
    ensures v.Num? ==> r == Fin(v.n)
    ensures v.Str? ==> r == StringToNumber(v.s)
    ensures r.Infinite? ==> v.Str? || v.Arr?
  {
    match v
    case Undefined => NaN
    case Null => Fin(0.0)
    case Bool(b) => Fin(if b then 1.0 else 0.0)
    case Num(n) => Fin(n)
    case Str(s) => StringToNumber(s)
    case Arr(_) => StringToNumber(ToText(v))
    case Obj(_) => NaN
  }

  predicate IsFinite(x: Number) { x.Fin? }

  /** `x >= y` on numbers: false whenever either side is NaN. */
  predicate GreaterOrEqual(x: Number, y: Number) {
    match (x, y)
    case (Fin(a), Fin(b)) => a >= b
    case (Infinite(n), Fin(_)) => !n
    case (Fin(_), Infinite(n)) => n
    case (Infinite(n1), Infinite(n2)) => !n1 || n2
    case _ => false
  }

  /** `Number(v)` held where a value is expected. A finite result is the
      number itself; a value holds no NaN or infinity, so a result that is
      one is held as `v` itself, which `Number` reads the same way. */
  function NumberOf(v: Value): (w: Value)
    ensures ToNumber(w) == ToNumber(v)
    ensures ToNumber(v).Fin? ==> w == Num(ToNumber(v).r)
    ensures !ToNumber(v).Fin? ==> w == v
  {
    match ToNumber(v)
    case Fin(r) => Num(r)
    case _ => v
  }

  /** `x - y > 0`: false whenever either side is NaN, and for two equal
      infinities, whose difference is NaN. */
  predicate DifferencePositive(x: Number, y: Number) {
    match (x, y)
    case (Fin(a), Fin(b)) => a > b
    case (Infinite(n), Fin(_)) => !n
    case (Fin(_), Infinite(n)) => n
    case (Infinite(n1), Infinite(n2)) => !n1 && n2
    case _ => false
  }

  /** `x >= y` on numbers that are not NaN is a total order, and a positive
      difference is its strict part. */
  lemma GreaterOrEqualOrders(x: Number, y: Number, z: Number)
    requires !x.NaN? && !y.NaN? && !z.NaN?
    ensures GreaterOrEqual(x, y) || GreaterOrEqual(y, x)
    ensures GreaterOrEqual(x, y) && GreaterOrEqual(y, z) ==> GreaterOrEqual(x, z)
    ensures DifferencePositive(x, y) <==> !GreaterOrEqual(y, x)
  {
  }

  /** `Math.round(x)`: the nearest integer, halves rounded up. */
  function Round(x: real): (r: int)
    ensures x - 0.5 < r as real <= x + 0.5
  {
    (x + 0.5).Floor
  }

  function Max(a: real, b: real): (m: real)
    ensures m >= a && m >= b && (m == a || m == b)
  {
    if a >= b then a else b
  }

  lemma RoundMonotone(x: real, y: real)
    requires x <= y
    ensures Round(x) <= Round(y)
  {
  }

  lemma RoundNonNegative(x: real)
    requires x >= 0.0
    ensures Round(x) >= 0
  {
  }

  lemma ParseEmptyIsZero()
    ensures StringToNumber("") == Fin(0.0)
  {
  }

  lemma {:induction false} TrimWithoutSpaces(s: string)
    requires forall i :: 0 <= i < |s| ==> !IsJsSpace(s[i])
    ensures Trim(s) == s
  {
  }

  lemma IndexOfAbsent(s: string, c: char)
    requires c !in s
    ensures IndexOf(s, c) == None
  {
  }

  lemma DigitsHaveNoMarks(t: string)
    requires AllDigits(t)
    ensures 'e' !in t && 'E' !in t && '.' !in t
  {
    forall i | 0 <= i < |t| ensures t[i] != 'e' && t[i] != 'E' && t[i] != '.' {
      assert IsDigit(t[i]);
    }
  }

  lemma UnsignedDecimalOfDigits(t: string)
    requires |t| >= 1 && AllDigits(t)
    ensures UnsignedDecimal(t) == Some(DigitsValue(t) as real)
  {
    DigitsHaveNoMarks(t);
    IndexOfAbsent(t, 'e');
    IndexOfAbsent(t, 'E');
    IndexOfAbsent(t, '.');
    assert AllDigits("");
    WholeScale(DigitsValue(t));
  }

  /** A literal without fraction and exponent denotes its digits' value. */
  lemma WholeScale(d: nat)
    ensures Scale(d as real + DigitsValue("") as real / Pow10(|""|) as real, 0) == d as real
  {
    assert DigitsValue("") == 0 && Pow10(0) == 1;
  }

  lemma DigitsAreNoSpace(t: string)
    requires AllDigits(t)
    ensures forall i :: 0 <= i < |t| ==> !IsJsSpace(t[i])
  {
    forall i | 0 <= i < |t| ensures !IsJsSpace(t[i]) {
      assert IsDigit(t[i]);
    }
  }

  lemma DigitsAreNoWord(t: string)
    requires |t| >= 1 && AllDigits(t)
    ensures t != "Infinity" && t != "+Infinity" && t != "-Infinity"
    ensures t[0] != '-' && t[0] != '+'
  {
    assert IsDigit(t[0]);
    assert "Infinity"[0] == 'I' && "+Infinity"[0] == '+' && "-Infinity"[0] == '-';
  }

  /** A string of digits without a leading zero reads as its value. */
  lemma ParseDigits(t: string)
    requires |t| >= 1 && AllDigits(t) && (|t| > 1 ==> t[0] != '0')
    ensures StringToNumber(t) == Fin(DigitsValue(t) as real)
  {
    DigitsAreNoSpace(t);
    TrimWithoutSpaces(t);
    DigitsAreNoWord(t);
    UnsignedDecimalOfDigits(t);
  }

  /** The text of a natural number read as a value is that number. */
  lemma NumeralReadsAsNumber(n: nat)
    ensures ToNumber(Str(NatStr(n))) == Fin(n as real)
  {
    ParseNatStr(n);
  }

  /** "x" is no decimal literal: it has no digit. */
  lemma WordIsNoDecimal()
    ensures UnsignedDecimal("x") == None
  {
    IndexOfAbsent("x", 'e');
    IndexOfAbsent("x", 'E');
    IndexOfAbsent("x", '.');
    assert !AllDigits("x");
  }

  /** A word such as "x" reads as NaN. */
  lemma WordReadsAsNaN()
    ensures ToNumber(Str("x")) == NaN
  {
    assert Trim("x") == "x" by { TrimWithoutSpaces("x"); }
    WordIsNoDecimal();
    assert StringToNumber("x") == NaN;
  }

  /** `Number(String(n))` is `n` for every natural number `n`. */
  lemma ParseNatStr(n: nat)
    ensures StringToNumber(NatStr(n)) == Fin(n as real)
  {
    ParseDigits(NatStr(n));
    NatStrRoundTrip(n);
  }
}
