/** The slice of JavaScript value semantics the two provider adapters depend on:
    JSON-shaped values, truthiness (for `||`, `&&` and `!`), property reads,
    default parameters, template-literal string conversion, numeric coercion
    and object spread. */
module Js {
  import opened Results

  /** A JSON-shaped JavaScript value: what the environment, a caller or a
      decoded HTTP body can hand the adapters. Numbers are integers here. */
  datatype Value =
    | Undefined
    | Null
    | Bool(b: bool)
    | Num(n: int)
    | Str(s: string)
    | Arr(items: seq<Value>)
    | Obj(fields: map<string, Value>)

  /** What a `throw` carries out of an adapter operation. */
  datatype Fault =
    | Error(message: string)  // `new Error(message)`
    | TypeError               // a property read on null/undefined, or `.map` on a non-array

  /** JavaScript's ToBoolean: `false`, `0`, `""`, `null` and `undefined` are falsy. */
  predicate Truthy(v: Value) {
    match v
    case Undefined => false
    case Null => false
    case Bool(b) => b
    case Num(n) => n != 0
    case Str(s) => s != ""
    case Arr(_) => true
    case Obj(_) => true
  }

  predicate Nullish(v: Value) {
    v.Undefined? || v.Null?
  }

  /** `a || b` */
  function Or(a: Value, b: Value): Value {
    if Truthy(a) then a else b
  }

  /** A parameter declared `p = d`: the default replaces `undefined` only. */
  function DefaultParam(v: Value, d: Value): Value {
    if v.Undefined? then d else v
  }

  /** `process.env[name]`: a string, or undefined when the variable is unset. */
  function EnvVar(env: map<string, string>, name: string): Value {
    if name in env then Str(env[name]) else Undefined
  }

  /** `v?.key`. Only objects have own properties here: the keys the adapters
      read are never an array index or `length`. */
  function Field(v: Value, key: string): Value {
    match v
    case Obj(m) => if key in m then m[key] else Undefined
    case _ => Undefined
  }

  /** `v.key`, which throws a TypeError on null and undefined. */
  function Get(v: Value, key: string): (r: Result<Value, Fault>)
    ensures r.Failure? <==> Nullish(v)
    ensures r.Failure? ==> r.error == TypeError
    ensures r.Success? ==> r.value == Field(v, key)
  {
    if Nullish(v) then Failure(TypeError) else Success(Field(v, key))
  }

  // ---------------------------------------------------------------------------
  // Conversion to a primitive

  /** Whether JavaScript can convert `v` to a string or a number — as a
      template literal, `new Error(v)` or `*` do — without throwing. A decoded
      JSON object with its own `toString` property fails: that property is
      never a function, so ToPrimitive finds no usable method and throws a
      TypeError. An array converts through its elements. */
  predicate Convertible(v: Value)
    decreases v
  {
    match v
    case Obj(m) => "toString" !in m
    case Arr(a) => forall i :: 0 <= i < |a| ==> Convertible(a[i])
    case _ => true
  }

  // ---------------------------------------------------------------------------
  // Decimal digits

  predicate IsDigit(c: char) {
    '0' <= c <= '9'
  }

  predicate AllDigits(s: string) {
    forall i :: 0 <= i < |s| ==> IsDigit(s[i])
  }

  function DigitChar(d: nat): (c: char)
    requires d < 10
    ensures IsDigit(c) && c as int - '0' as int == d
  {
    ('0' as int + d) as char
  }

  /** The decimal numeral of `n` digit by digit, as `String(n)` writes an
      integer below 10^21 (JavaScript switches to exponent form from there on). */
  function Decimal(n: nat): (r: string)
    ensures |r| >= 1 && AllDigits(r)
    ensures (n < 10) == (|r| == 1)
  {
    if n < 10 then [DigitChar(n)] else Decimal(n / 10) + [DigitChar(n % 10)]
  }

  /** The number a string of decimal digits denotes. */
  function DigitsValue(s: string): nat
    requires AllDigits(s)
  {
    if s == [] then 0
    else DigitsValue(s[..|s| - 1]) * 10 + (s[|s| - 1] as int - '0' as int)
  }

  /** Reading back what `Decimal` wrote gives the number again. */
  lemma {:induction false} DecimalRoundTrip(n: nat)
    ensures DigitsValue(Decimal(n)) == n
  {
    if n >= 10 {
      var r := Decimal(n);
      assert r[..|r| - 1] == Decimal(n / 10);
      DecimalRoundTrip(n / 10);
    }
  }

  /** Distinct numbers have distinct numerals, so numerals can serve as keys. */
  lemma DecimalInjective(a: nat, b: nat)
    requires Decimal(a) == Decimal(b)
    ensures a == b
  {
    DecimalRoundTrip(a);
    DecimalRoundTrip(b);
  }

  // ---------------------------------------------------------------------------
  // String conversion, as a template literal `${v}` performs it

  /** `parts.join(sep)` */
  function Join(parts: seq<string>, sep: string): string {
    if |parts| == 0 then ""
    else if |parts| == 1 then parts[0]
    else parts[0] + sep + Join(parts[1..], sep)
  }

  /** `String(v)`: arrays join their elements with commas, writing null and
      undefined elements as empty strings; every plain object reads
      "[object Object]". */
  function ToStr(v: Value): string
    decreases v
  {
    match v
    case Undefined => "undefined"
    case Null => "null"
    case Bool(b) => if b then "true" else "false"
    case Num(n) => if n < 0 then "-" + Decimal(-n) else Decimal(n)
    case Str(s) => s
    case Arr(a) =>
      Join(seq(|a|, i requires 0 <= i < |a| => if Nullish(a[i]) then "" else ToStr(a[i])), ",")
    case Obj(_) => "[object Object]"
  }

  /** `${v}`: the string of `v`, or the TypeError its conversion throws. */
  function Interpolate(v: Value): (r: Result<string, Fault>)
    ensures r.Success? <==> Convertible(v)
    ensures r.Failure? ==> r.error == TypeError
  {
    if Convertible(v) then Success(ToStr(v)) else Failure(TypeError)
  }

  /** `new Error(v)`: an error whose message is `v` as a string, or the
      TypeError that converting `v` throws first. */
  function NewError(v: Value): (f: Fault)
    ensures f == TypeError <==> !Convertible(v)
  {
    match Interpolate(v)
    case Success(message) => Error(message)
    case Failure(e) => e
  }

  // ---------------------------------------------------------------------------
  // Numeric coercion

  /** A JavaScript number: NaN or an (integral) finite value. */
  datatype Number = NaN | Finite(v: int)

  /** `Number(s)` for the integer numerals: optional sign and decimal digits;
      the empty string is 0. Every other string is NaN here, although
      JavaScript reads some of them (fractions, exponents, hexadecimal,
      "Infinity", surrounding white space) as numbers: a `Finite` result
      agrees with JavaScript, a `NaN` one only where `NotANumeral` holds. */
  function ParseNumber(s: string): Number {
    if s == "" then Finite(0)
    else if AllDigits(s) then Finite(DigitsValue(s))
    else if |s| > 1 && s[0] == '-' && AllDigits(s[1..]) then Finite(-(DigitsValue(s[1..]) as int))
    else if |s| > 1 && s[0] == '+' && AllDigits(s[1..]) then Finite(DigitsValue(s[1..]))
    else NaN
  }

  /** JavaScript's ToNumber, as `*` applies it to its operands: objects and
      arrays go through their string, and one that cannot be converted throws. */
  function ToNumber(v: Value): (r: Result<Number, Fault>)
    ensures r.Failure? <==> !Convertible(v)
    ensures r.Failure? ==> r.error == TypeError
  {
    if !Convertible(v) then Failure(TypeError)
    else
      match v
      case Undefined => Success(NaN)
      case Null => Success(Finite(0))
      case Bool(b) => Success(Finite(if b then 1 else 0))
      case Num(n) => Success(Finite(n))
      case Str(s) => Success(ParseNumber(s))
      case Arr(_) => Success(ParseNumber(ToStr(v)))
      case Obj(_) => Success(ParseNumber(ToStr(v)))
  }

  /** `x * k` */
  function Times(x: Number, k: int): Number {
    match x
    case NaN => NaN
    case Finite(v) => Finite(v * k)
  }

  /** `t + x` for a number `t` */
  function Plus(t: int, x: Number): Number {
    match x
    case NaN => NaN
    case Finite(v) => Finite(t + v)
  }

  /** `t >= x`, which is false whenever `x` is NaN. */
  predicate AtLeast(t: int, x: Number) {
    x.Finite? && t >= x.v
  }

  /** A number written out by a template literal and coerced back is the same
      number: a provider may send `expiresIn` as a number or as its numeral. */
  lemma NumeralCoercesBack(n: int)
    ensures ToNumber(Str(ToStr(Num(n)))) == Success(Finite(n))
  {
    var s := if n < 0 then "-" + Decimal(-n) else Decimal(n);
    assert ToStr(Num(n)) == s;
    NumeralParsesBack(n);
    assert Convertible(Str(s));
  }

  /** The numeral of `n` parses as `n`. */
  lemma NumeralParsesBack(n: int)
    ensures ParseNumber(if n < 0 then "-" + Decimal(-n) else Decimal(n)) == Finite(n)
  {
    if n < 0 {
      DecimalRoundTrip(-n);
      SignedNumeralValue(Decimal(-n));
    } else {
      DecimalRoundTrip(n);
      assert Decimal(n) != "";
    }
  }

  /** Values JavaScript's ToNumber turns into NaN whatever the finer points of
      its numeral grammar: `undefined`, a plain object without its own
      `toString` (read as "[object Object]"), and a non-empty word of
      lower-case letters, which is neither a numeral nor "Infinity". */
  predicate NotANumeral(v: Value) {
    || v.Undefined?
    || (v.Obj? && "toString" !in v.fields)
    || (v.Str? && |v.s| > 0 && forall i :: 0 <= i < |v.s| ==> 'a' <= v.s[i] <= 'z')
  }

  /** On those values the model's coercion gives NaN, as JavaScript does. (On
      other strings it may not agree: see `ParseNumber`.) */
  lemma NotANumeralIsNaN(v: Value)
    requires NotANumeral(v)
    ensures ToNumber(v) == Success(NaN)
  {
    if v.Str? {
      assert !IsDigit(v.s[0]) && v.s[0] != '-' && v.s[0] != '+';
    } else if v.Obj? {
      assert ToStr(v)[0] == '[';
    }
  }

  /** A minus sign followed by digits parses as the negated digits. */
  lemma SignedNumeralValue(d: string)
    requires |d| >= 1 && AllDigits(d)
    ensures ParseNumber("-" + d) == Finite(-(DigitsValue(d) as int))
  {
    var s := "-" + d;
    assert s[1..] == d;
    assert !IsDigit(s[0]);
  }

  // ---------------------------------------------------------------------------
  // Object spread

  /** The own enumerable properties `{...v}` copies: an object's fields, the
      indexed elements of an array or the characters of a string, and nothing
      for any other value. */
  function Spread(v: Value): map<string, Value> {
    match v
    case Obj(m) => m
    case Arr(a) => Indexed(a)
    case Str(s) => Indexed(seq(|s|, i requires 0 <= i < |s| => Str([s[i]])))
    case _ => map[]
  }

  /** The properties "0", "1", ... of an array-like sequence. */
  function Indexed(a: seq<Value>): (m: map<string, Value>)
    ensures forall i :: 0 <= i < |a| ==> Decimal(i) in m && m[Decimal(i)] == a[i]
    ensures forall k :: k in m ==> exists i :: 0 <= i < |a| && k == Decimal(i)
  {
    DecimalsDistinct();
    map i | 0 <= i < |a| :: Decimal(i) := a[i]
  }

  lemma DecimalsDistinct()
    ensures forall a: nat, b: nat :: Decimal(a) == Decimal(b) ==> a == b
  {
    forall a: nat, b: nat | Decimal(a) == Decimal(b) ensures a == b {
      DecimalInjective(a, b);
    }
  }
}
