// The JavaScript value semantics the app leans on: untyped values as they
// come out of form fields and JSON backups, truthiness (`x || fallback`),
// Number-to-String conversion, parseFloat, parseInt and Math.round.
// Numbers are exact reals; NaN is kept where the source can produce it.

module Js {
  import opened Seqs
  import opened Text

  /** A JS number: NaN or a finite value. */
  datatype Num = NaN | Fin(val: real)

  /** An untyped JS value. */
  datatype Value = Undefined | Null | Bool(b: bool) | Number(n: Num) | Str(s: string)

  /** ToBoolean. */
  predicate Truthy(v: Value)
  {
    match v
      case Undefined => false
      case Null => false
      case Bool(b) => b
      case Number(n) => n.Fin? && n.val != 0.0
      case Str(s) => s != ""
  }

  /** `parsed || 0` for a parse that yields NaN as None. */
  function OrZero(x: Option<real>): (r: real)
    ensures x.None? ==> r == 0.0
    ensures x.Some? ==> r == x.value
  {
    match x
      case None => 0.0
      case Some(v) => v
  }

  /** `parsed || 1`: NaN and 0 both fall back to 1. */
  function OrOne(x: Option<real>): (r: real)
    ensures r != 0.0
    ensures x.Some? && x.value != 0.0 ==> r == x.value
  {
    match x
      case None => 1.0
      case Some(v) => if v == 0.0 then 1.0 else v
  }

  /** Math.round: the nearest integer, halves rounded up. */
  function Round(x: real): (r: int)
    ensures r as real - 0.5 <= x < r as real + 0.5
  {
    (x + 0.5).Floor
  }

  /** The % operator on integers: the remainder takes the dividend's sign. */
  function Rem(a: int, n: int): (r: int)
    requires n > 0
    ensures a >= 0 ==> 0 <= r < n
    ensures a < 0 ==> -n < r <= 0
  {
    if a >= 0 then a % n else -((-a) % n)
  }

  // ------------------------------------------------------ number to string

  /** Decimal digits of a fraction in [0, 1), stopping when it is exhausted;
      at most k digits. */
  function FracDigits(f: real, k: nat): (r: string)
    requires 0.0 <= f < 1.0
    ensures AllDigits(r)
    decreases k
  {
    if k == 0 || f == 0.0 then ""
    else
      var d := (f * 10.0).Floor;
      [DigitChar(d)] + FracDigits(f * 10.0 - d as real, k - 1)
  }

  function UnsignedToString(r: real): string
    requires r >= 0.0
  {
    var n := r.Floor;
    var f := FracDigits(r - n as real, 20);
    NatToString(n) + (if f == "" then "" else "." + f)
  }

  /** Number.prototype.toString in plain decimal notation. */
  function NumberToString(r: real): string
  {
    if r < 0.0 then "-" + UnsignedToString(-r) else UnsignedToString(r)
  }

  /** A whole number prints as its digits, without a fraction. */
  lemma NumberToStringNat(n: nat)
    ensures NumberToString(n as real) == NatToString(n)
  {
    assert (n as real).Floor == n;
  }

  /** n hundredths written with two decimals: the integer part, a point and
      two digits. */
  function Fixed2(n: nat): string
  {
    NatToString(n / 100) + "." + Pad2(n % 100)
  }

  /** Number.prototype.toFixed(2): the nearest hundredth, a tie going to the
      larger magnitude, with a leading '-' for a negative number. */
  function ToFixed2(x: real): string
  {
    if x < 0.0 then "-" + Fixed2(Round(-x * 100.0)) else Fixed2(Round(x * 100.0))
  }

  /** ToString of a value. */
  function ToStr(v: Value): string
  {
    match v
      case Undefined => "undefined"
      case Null => "null"
      case Bool(b) => if b then "true" else "false"
      case Number(n) => (match n case NaN => "NaN" case Fin(r) => NumberToString(r))
      case Str(s) => s
  }

  // ------------------------------------------------------------ parseFloat

  /** The longest prefix of s made of digits. */
  function LeadingDigits(s: string): (r: string)
    ensures AllDigits(r) && |r| <= |s| && r == s[..|r|]
    ensures |r| < |s| ==> !IsDigit(s[|r|])
  {
    if s != [] && IsDigit(s[0]) then [s[0]] + LeadingDigits(s[1..]) else []
  }

  lemma {:induction false} LeadingDigitsOf(a: string, rest: string)
    requires AllDigits(a)
    requires rest == [] || !IsDigit(rest[0])
    ensures LeadingDigits(a + rest) == a
  {
    if a != [] {
      assert (a + rest)[1..] == a[1..] + rest;
      LeadingDigitsOf(a[1..], rest);
    } else {
      assert a + rest == rest;
    }
  }

  /** x * 10^e, one power of ten at a time. */
  function Scale(x: real, e: int): real
    decreases if e >= 0 then e else -e
  {
    if e == 0 then x else if e > 0 then Scale(x * 10.0, e - 1) else Scale(x / 10.0, e + 1)
  }

  /** The exponent of an ExponentPart (e or E, an optional sign, digits) at the
      start of s; 0 when s does not start with a complete one. */
  function Exponent(s: string): int
  {
    if |s| >= 2 && (s[0] == 'e' || s[0] == 'E') then
      var signed := s[1..];
      var neg := signed[0] == '-';
      var body := if signed[0] == '+' || signed[0] == '-' then signed[1..] else signed;
      var d := LeadingDigits(body);
      if d == [] then 0 else if neg then -(DigitsValue(d) as int) else DigitsValue(d)
    else 0
  }

  /** The value of fraction digits b read after a decimal point. */
  function FracValue(b: string): (r: real)
    requires AllDigits(b)
    ensures 0.0 <= r < 1.0
  {
    if b == [] then 0.0 else (DigitVal(b[0]) as real + FracValue(b[1..])) / 10.0
  }

  /** The value of digits a, a decimal point and fraction digits b. */
  function DecimalValue(a: string, b: string): (r: real)
    requires AllDigits(a) && AllDigits(b)
    ensures DigitsValue(a) as real <= r < DigitsValue(a) as real + 1.0
  {
    DigitsValue(a) as real + FracValue(b)
  }

  /** The value of an unsigned decimal literal at the start of u (digits, an
      optional fraction, an optional exponent); None when u starts with neither
      a digit nor a point followed by a digit. */
  function UnsignedPrefix(u: string): Option<real>
  {
    var a := LeadingDigits(u);
    var rest := u[|a|..];
    var dot := rest != [] && rest[0] == '.';
    var b := if dot then LeadingDigits(rest[1..]) else [];
    var tail := if dot then rest[1 + |b|..] else rest;
    if a == [] && b == [] then None
    else Some(Scale(DecimalValue(a, b), Exponent(tail)))
  }

  /** parseFloat: leading white space skipped, an optional sign, then the
      longest decimal literal; None stands for NaN. */
  function ParseFloat(s: string): Option<real>
  {
    var t := TrimStart(s);
    var neg := t != [] && t[0] == '-';
    var u := if t != [] && (t[0] == '-' || t[0] == '+') then t[1..] else t;
    match UnsignedPrefix(u)
      case None => None
      case Some(x) => Some(if neg then -x else x)
  }

  /** Text that starts with a digit is parsed as an unsigned literal. */
  lemma ParseFloatUnsigned(s: string)
    requires s != [] && IsDigit(s[0])
    ensures ParseFloat(s) == UnsignedPrefix(s)
  {
    assert !IsSpace(s[0]);
    assert TrimStart(s) == s;
  }

  lemma UnsignedDecimal(a: string, b: string)
    requires AllDigits(a) && AllDigits(b) && a != []
    ensures UnsignedPrefix(a + "." + b) == Some(DecimalValue(a, b))
  {
    var s := a + "." + b;
    assert s == a + ("." + b);
    LeadingDigitsOf(a, "." + b);
    assert s[|a|..] == "." + b;
    assert ("." + b)[1..] == b;
    LeadingDigitsAll(b);
    assert s[|a|..][1 + |b|..] == [];
  }

  /** parseFloat of "<digits>.<digits>". */
  lemma ParseFloatDecimal(a: string, b: string)
    requires AllDigits(a) && AllDigits(b) && a != []
    ensures ParseFloat(a + "." + b) == Some(DecimalValue(a, b))
  {
    UnsignedDecimal(a, b);
    ParseFloatUnsigned(a + "." + b);
  }

  lemma UnsignedDigits(a: string)
    requires AllDigits(a) && a != []
    ensures UnsignedPrefix(a) == Some(DigitsValue(a) as real)
  {
    LeadingDigitsAll(a);
    assert a[|a|..] == [];
  }

  /** parseFloat of a digit string. */
  lemma ParseFloatDigits(a: string)
    requires AllDigits(a) && a != []
    ensures ParseFloat(a) == Some(DigitsValue(a) as real)
  {
    UnsignedDigits(a);
    ParseFloatUnsigned(a);
  }

  /** parseFloat of a value: a finite number is its own string's value. */
  function ParseFloatOf(v: Value): Option<real>
  {
    match v
      case Number(n) => (match n case NaN => None case Fin(r) => Some(r))
      case _ => ParseFloat(ToStr(v))
  }

  // -------------------------------------------------------------- parseInt

  /** The value of the digits at the start of u; None when there are none. */
  function UnsignedInt(u: string): (r: Option<nat>)
    ensures r.None? <==> u == [] || !IsDigit(u[0])
  {
    var a := LeadingDigits(u);
    if a == [] then None else Some(DigitsValue(a))
  }

  /** parseInt(s) in base 10: the signed leading digits after white space. */
  function ParseInt(s: string): Option<int>
  {
    var t := TrimStart(s);
    var neg := t != [] && t[0] == '-';
    var u := if t != [] && (t[0] == '-' || t[0] == '+') then t[1..] else t;
    match UnsignedInt(u)
      case None => None
      case Some(n) => Some(if neg then -(n as int) else n)
  }

  /** The leading digits of a digit string are all of it. */
  lemma {:induction false} LeadingDigitsAll(a: string)
    requires AllDigits(a)
    ensures LeadingDigits(a) == a
  {
    if a != [] {
      LeadingDigitsAll(a[1..]);
    }
  }

  lemma UnsignedIntOfDigits(d: string)
    requires AllDigits(d) && d != []
    ensures UnsignedInt(d) == Some(DigitsValue(d))
  {
    LeadingDigitsAll(d);
  }

  /** parseInt of a digit string. */
  lemma ParseIntOfDigits(d: string)
    requires AllDigits(d) && d != []
    ensures ParseInt(d) == Some(DigitsValue(d))
  {
    UnsignedIntOfDigits(d);
    TrimStartNoSpace(d);
  }

  /** parseInt of a minus sign followed by a digit string. */
  lemma ParseIntOfNegDigits(d: string, m: string)
    requires AllDigits(d) && d != [] && m == ['-'] + d
    ensures ParseInt(m) == Some(-(DigitsValue(d) as int))
  {
    UnsignedIntOfDigits(d);
    TrimStartNoSpace(m);
    assert m[1..] == d;
  }

  /** parseInt reads back the decimal text of any integer. */
  lemma ParseIntToString(i: int)
    ensures ParseInt(IntToString(i)) == Some(i)
  {
    var n: nat := if i < 0 then -i else i;
    NatToStringValue(n);
    ParseIntOfDigits(NatToString(n));
    if i < 0 {
      ParseIntOfNegDigits(NatToString(n), IntToString(i));
    }
  }
}
