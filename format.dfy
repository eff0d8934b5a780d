// src/utils/format.ts: the masks every money and quantity input goes
// through, and the parser that turns Brazilian-style text ("1.234,56")
// back into a number.

module Format {
  import opened Seqs
  import opened Text
  import opened Js

  // ------------------------------------------------------------ parseValue

  /** Thousands dots removed, then the first comma turned into a decimal point. */
  function CleanNumber(s: string): string
  {
    ReplaceFirstChar(RemoveChar(s, '.'), ',', '.')
  }

  /** parseValue: a number is returned as it is, a false-y value reads as 0 and
      anything else is cleaned and parsed, with NaN read as 0. */
  function ParseValue(v: Value): Num
  {
    match v
      case Number(n) => n
      case _ =>
        if !Truthy(v) then Fin(0.0)
        else Fin(OrZero(ParseFloat(CleanNumber(ToStr(v)))))
  }

  /** parseValue of a text field: never NaN. */
  function ParseText(s: string): (r: real)
    ensures s == "" ==> r == 0.0
  {
    if s == "" then 0.0 else OrZero(ParseFloat(CleanNumber(s)))
  }

  /** ParseText is parseValue on text: it never gives NaN. */
  lemma ParseTextIsParseValue(s: string)
    ensures ParseValue(Str(s)) == Fin(ParseText(s))
  {
  }

  /** A number passes through unchanged; every other false-y value gives 0. */
  lemma ParseValueFalsy(v: Value)
    ensures v.Number? ==> ParseValue(v) == v.n
    ensures !v.Number? && !Truthy(v) ==> ParseValue(v) == Fin(0.0)
    ensures !v.Number? ==> ParseValue(v).Fin?
  {
  }

  /** Text whose cleaned form does not parse reads as 0. */
  lemma ParseTextUnparseable(s: string)
    requires ParseFloat(CleanNumber(s)) == None
    ensures ParseText(s) == 0.0
  {
  }

  /** A grouped integer part, a comma and a fraction parse as the digits of the
      integer part (dots deleted) with the fraction after the decimal point. */
  lemma ParseTextBrazilian(g: string, frac: string)
    requires GroupedDigits(g) && AllDigits(frac)
    ensures AllDigits(RemoveChar(g, '.'))
    ensures ParseText(g + "," + frac) == DecimalValue(RemoveChar(g, '.'), frac)
  {
    var a := RemoveChar(g, '.');
    GroupedDigitsUngroup(g);
    var s := g + "," + frac;
    assert s == g + ([','] + frac);
    RemoveCharAppend(g, [','] + frac, '.');
    RemoveCharAppend([','], frac, '.');
    RemoveCharAbsent(frac, '.');
    assert RemoveChar([','], '.') == [','];
    assert RemoveChar(s, '.') == a + "," + frac;
    assert CleanNumber(s) == a + "." + frac by {
      var t := a + "," + frac;
      assert ',' !in a;
      assert t[|a|] == ',';
      assert t[..|a|] == a;
      assert IndexOf(t, ',') == Some(|a|);
      assert t[|a| + 1..] == frac;
    }
    ParseFloatDecimal(a, frac);
  }

  /** Deleting the dots of a grouped integer leaves a non-empty digit string. */
  lemma {:induction false} GroupedDigitsUngroup(g: string)
    requires GroupedDigits(g)
    ensures AllDigits(RemoveChar(g, '.')) && RemoveChar(g, '.') != []
    decreases |g|
  {
    if 1 <= |g| <= 3 && AllDigits(g) {
      RemoveCharAbsent(g, '.');
    } else {
      var h, t := g[..|g| - 4], g[|g| - 3..];
      GroupedDigitsUngroup(h);
      assert g == h + ("." + t);
      RemoveCharAppend(h, "." + t, '.');
      RemoveCharAppend(".", t, '.');
      RemoveCharAbsent(t, '.');
      assert RemoveChar(".", '.') == "";
    }
  }

  lemma ParseTextExample(t: string)
    requires t == "1.234,56"
    ensures ParseText(t) == 1234.56
  {
    var g := "1.234";
    GroupExample();
    assert g + "," + "56" == t;
    ParseTextBrazilian(g, "56");
    DecimalExample();
  }

  lemma GroupExample()
    ensures GroupedDigits("1.234") && RemoveChar("1.234", '.') == "1234"
  {
    var a := "1234";
    assert GroupThousands(a) == "1.234" by {
      assert a[..1] == "1" && a[1..] == "234";
    }
    GroupThousandsShape(a);
    GroupThousandsUngroup(a);
  }

  lemma DecimalExample()
    ensures DecimalValue("1234", "56") == 1234.56
  {
    assert DigitsValue("1") == 1;
    assert DigitsValue("12") == 12 by { assert "12"[..1] == "1"; }
    assert DigitsValue("123") == 123 by { assert "123"[..2] == "12"; }
    assert DigitsValue("1234") == 1234 by { assert "1234"[..3] == "123"; }
    assert DigitsValue("56") == 56 by { assert "56"[..1] == "5"; }
    TwoDigitFraction("56");
  }

  // ------------------------------------------------------------- maskValue

  /** The text maskValue shows for a count of cents: grouped integer, a comma
      and two decimals (toFixed(2) of cents/100, then the grouping regex). */
  function CentsText(n: nat): string
  {
    GroupThousands(NatToString(n / 100)) + "," + Pad2(n % 100)
  }

  /** value.toString().replace(/\D/g, ''). */
  function DigitsOf(v: Value): (d: string)
    ensures AllDigits(d)
  {
    Keep(ToStr(v), IsDigit)
  }

  /** maskValue: '' for an empty input (0 is a value), otherwise all the
      input's digits read as cents. */
  function MaskValue(v: Value): string
  {
    if !Truthy(v) && v != Number(Fin(0.0)) then ""
    else
      var digits := DigitsOf(v);
      if digits == "" then "" else CentsText(DigitsValue(digits))
  }

  /** The shape maskValue produces: a grouped integer part, one comma and
      exactly two digits. It is also the amount shape of the receipt parser. */
  predicate MoneyText(r: string)
  {
    |r| >= 4 && r[|r| - 3] == ',' && AllDigits(r[|r| - 2..]) && GroupedDigits(r[..|r| - 3])
  }

  lemma CentsTextShape(n: nat)
    ensures MoneyText(CentsText(n))
  {
    var g := GroupThousands(NatToString(n / 100));
    GroupThousandsShape(NatToString(n / 100));
    var r := CentsText(n);
    assert r[..|r| - 3] == g;
    assert r[|r| - 2..] == Pad2(n % 100);
  }

  /** A false-y value other than 0 prints as text without digits. */
  lemma FalsyHasNoDigits(v: Value)
    requires !Truthy(v) && v != Number(Fin(0.0))
    ensures DigitsOf(v) == ""
  {
    var s := ToStr(v);
    assert forall i :: 0 <= i < |s| ==> !IsDigit(s[i]);
    FilterNone(s, IsDigit);
  }

  /** maskValue is empty exactly when the input has no digits; otherwise it has
      the money shape. */
  lemma MaskValueShape(v: Value)
    ensures MaskValue(v) == "" <==> DigitsOf(v) == ""
    ensures MaskValue(v) != "" ==> MoneyText(MaskValue(v))
  {
    if !Truthy(v) && v != Number(Fin(0.0)) {
      FalsyHasNoDigits(v);
    } else if DigitsOf(v) != "" {
      CentsTextShape(DigitsValue(DigitsOf(v)));
    }
  }

  /** Round trip: parseValue(maskValue(x)) is the input's digits read as cents. */
  lemma MaskValueRoundTrip(v: Value)
    ensures ParseText(MaskValue(v)) == DigitsValue(DigitsOf(v)) as real / 100.0
  {
    if !Truthy(v) && v != Number(Fin(0.0)) {
      FalsyHasNoDigits(v);
    } else if DigitsOf(v) != "" {
      CentsTextValue(DigitsValue(DigitsOf(v)));
    }
  }

  /** The masked text of n cents parses back to n / 100. */
  lemma CentsTextValue(n: nat)
    ensures ParseText(CentsText(n)) == n as real / 100.0
  {
    CentsTextParse(n);
    CentsTextDecimal(n);
    CentsArithmetic(n);
  }

  lemma CentsTextParse(n: nat)
    ensures ParseText(CentsText(n)) == DecimalValue(NatToString(n / 100), Pad2(n % 100))
  {
    var q := NatToString(n / 100);
    GroupThousandsShape(q);
    GroupThousandsUngroup(q);
    ParseTextBrazilian(GroupThousands(q), Pad2(n % 100));
  }

  lemma CentsTextDecimal(n: nat)
    ensures DecimalValue(NatToString(n / 100), Pad2(n % 100)) == (n / 100) as real + (n % 100) as real / 100.0
  {
    NatToStringValue(n / 100);
    TwoDigitFraction(Pad2(n % 100));
  }

  /** Two fraction digits are that many hundredths. */
  lemma TwoDigitFraction(d: string)
    requires |d| == 2 && AllDigits(d)
    ensures FracValue(d) == DigitsValue(d) as real / 100.0
  {
    var d0, d1 := DigitVal(d[0]), DigitVal(d[1]);
    var t := d[1..];
    assert t[0] == d[1] && t[1..] == [];
    assert FracValue(t) == d1 as real / 10.0;
    assert FracValue(d) == (d0 as real + d1 as real / 10.0) / 10.0;
    var h := d[..1];
    assert h[..0] == [] && h[0] == d[0];
    assert DigitsValue(h) == d0;
    assert DigitsValue(d) == d0 * 10 + d1;
  }

  lemma CentsArithmetic(n: nat)
    ensures (n / 100) as real + (n % 100) as real / 100 as real == n as real / 100.0
  {
    var q, k := n / 100, n % 100;
    assert n == q * 100 + k;
    assert n as real == q as real * 100.0 + k as real;
  }

  /** The digits of CentsText(n) are those of n/100 followed by two cent digits. */
  lemma CentsTextDigits(n: nat)
    ensures AllDigits(NatToString(n / 100) + Pad2(n % 100))
    ensures Keep(CentsText(n), IsDigit) == NatToString(n / 100) + Pad2(n % 100)
  {
    var q := NatToString(n / 100);
    var g := GroupThousands(q);
    var dd := Pad2(n % 100);
    FilterAppend(g + ",", dd, IsDigit);
    FilterAppend(g, ",", IsDigit);
    KeepDigitsUngroup(q);
    FilterAll(dd, IsDigit);
    assert Keep(",", IsDigit) == "";
  }

  /** Keeping the digits of a grouped numeral is deleting its dots. */
  lemma {:induction false} KeepDigitsUngroup(s: string)
    requires AllDigits(s)
    ensures Keep(GroupThousands(s), IsDigit) == s
    decreases |s|
  {
    if |s| <= 3 {
      FilterAll(s, IsDigit);
    } else {
      var a, b := s[..|s| - 3], s[|s| - 3..];
      var ga := GroupThousands(a);
      var db := ['.'] + b;
      KeepDigitsUngroup(a);
      assert GroupThousands(s) == ga + db;
      FilterAppend(ga, db, IsDigit);
      FilterAll(b, IsDigit);
      assert db[1..] == b;
      assert Filter(db, IsDigit) == b;
      assert s == a + b;
    }
  }

  /** The digits of the masked text of n cents read back as n. */
  lemma CentsTextDigitsValue(n: nat)
    ensures Keep(CentsText(n), IsDigit) != ""
    ensures DigitsValue(Keep(CentsText(n), IsDigit)) == n
  {
    var q, dd := NatToString(n / 100), Pad2(n % 100);
    CentsTextDigits(n);
    DigitsValueAppend(q, dd);
    NatToStringValue(n / 100);
    assert Pow10(|dd|) == 100;
  }

  /** Masking a masked value changes nothing. */
  lemma MaskValueIdempotent(v: Value)
    ensures MaskValue(Str(MaskValue(v))) == MaskValue(v)
  {
    var r := MaskValue(v);
    if r != "" {
      var n := DigitsValue(DigitsOf(v));
      assert r == CentsText(n);
      CentsTextDigitsValue(n);
      assert DigitsOf(Str(r)) == Keep(r, IsDigit);
    }
  }

  /** maskValue(12.5) reads the digits 1, 2, 5 as cents. */
  lemma MaskValueExample()
    ensures MaskValue(Number(Fin(12.5))) == "1,25"
  {
    PrintExample();
    KeepDigitsExample();
    assert DigitsValue("125") == 125 by {
      assert "12"[..1] == "1";
      assert "125"[..2] == "12";
    }
    assert CentsText(125) == "1,25";
  }

  lemma PrintExample()
    ensures ToStr(Number(Fin(12.5))) == "12.5"
  {
    assert (12.5).Floor == 12;
    assert FracDigits(0.5, 20) == "5" by {
      assert (0.5 * 10.0).Floor == 5;
      assert FracDigits(0.0, 19) == "";
    }
    assert NatToString(12) == "12";
  }

  lemma KeepDigitsExample()
    ensures Keep("12.5", IsDigit) == "125"
  {
    var a, dot, b := "12", ".", "5";
    assert "12.5" == a + (dot + b);
    FilterAppend(a, dot + b, IsDigit);
    FilterAppend(dot, b, IsDigit);
    FilterAll(a, IsDigit);
    FilterAll(b, IsDigit);
    assert Keep(dot, IsDigit) == "";
  }

  // ------------------------------------------------------------ maskNumber

  predicate IsNumberChar(c: char)
  {
    IsDigit(c) || c == ',' || c == '.'
  }

  predicate DigitsAndCommas(r: string)
  {
    forall i :: 0 <= i < |r| ==> IsDigit(r[i]) || r[i] == ','
  }

  predicate AtMostOneComma(r: string)
  {
    forall i, j :: 0 <= i < j < |r| && r[i] == ',' ==> r[j] != ','
  }

  /** Digits, dots and commas kept, and every dot made a comma. */
  function Sanitized(v: Value): (w: string)
    ensures DigitsAndCommas(w)
  {
    ReplaceChar(Keep(ToStr(v), IsNumberChar), '.', ',')
  }

  /** The comma step of maskNumber: split on ',' and, when that gives more than
      two parts, keep the first comma and glue the other parts together. */
  function CommaRule(w: string): string
  {
    var parts := Split(w, ',');
    if |parts| > 2 then parts[0] + "," + Join(parts[1..], "") else w
  }

  /** maskNumber: '' for an empty input (0 is a value), otherwise the
      sanitized text under the comma rule. */
  function MaskNumber(v: Value): string
  {
    if !Truthy(v) && v != Number(Fin(0.0)) then "" else CommaRule(Sanitized(v))
  }

  /** Reference reading of the comma rule: the first comma stays, the others go. */
  function FirstCommaOnly(w: string): string
  {
    match IndexOf(w, ',')
      case None => w
      case Some(i) => w[..i] + "," + RemoveChar(w[i + 1..], ',')
  }

  /** Splitting and gluing is the same as keeping only the first comma. */
  lemma CommaRuleSpec(w: string)
    ensures CommaRule(w) == FirstCommaOnly(w)
  {
    match IndexOf(w, ',')
      case None =>
      case Some(i) =>
        var head, rest := w[..i], w[i + 1..];
        var tail := Split(rest, ',');
        assert Split(w, ',') == [head] + tail;
        if |tail| > 1 {
          assert CommaRule(w) == head + "," + Join(tail, "") by {
            assert Split(w, ',')[1..] == tail;
          }
          JoinSplitEmpty(rest, ',');
        } else {
          assert RemoveChar(rest, ',') == rest by {
            assert IndexOf(rest, ',').None?;
            RemoveCharAbsent(rest, ',');
          }
          assert w == head + "," + rest;
        }
  }

  /** Deleting the commas from digits and commas leaves digits. */
  lemma RemoveCommasDigits(w: string)
    requires DigitsAndCommas(w)
    ensures AllDigits(RemoveChar(w, ','))
  {
    var b := RemoveChar(w, ',');
    RemoveCharMembers(w, ',');
    assert forall k :: 0 <= k < |b| ==> b[k] in w;
  }

  lemma FirstCommaOnlyShape(w: string)
    requires DigitsAndCommas(w)
    ensures DigitsAndCommas(FirstCommaOnly(w)) && AtMostOneComma(FirstCommaOnly(w))
  {
    match IndexOf(w, ',')
      case None =>
        assert forall k :: 0 <= k < |w| ==> w[k] != ',';
      case Some(i) =>
        var a := w[..i];
        var b := RemoveChar(w[i + 1..], ',');
        RemoveCommasDigits(w[i + 1..]);
        var r := a + "," + b;
        assert FirstCommaOnly(w) == r;
        assert forall k :: 0 <= k < i ==> r[k] == a[k] && a[k] in a;
        assert forall k :: i < k < |r| ==> r[k] == b[k - i - 1];
  }

  /** Text of digits and at most one comma is its own comma-normal form. */
  lemma FirstCommaOnlyFixed(r: string)
    requires AtMostOneComma(r)
    ensures FirstCommaOnly(r) == r
  {
    match IndexOf(r, ',')
      case None =>
      case Some(i) =>
        var rest := r[i + 1..];
        forall k | 0 <= k < |rest| ensures rest[k] != ',' {
          assert rest[k] == r[i + 1 + k];
        }
        RemoveCharAbsent(rest, ',');
        assert r == r[..i] + "," + rest;
  }

  /** maskNumber keeps digits and the first comma (a '.' counting as a comma)
      and drops everything else: digits and at most one comma remain. */
  lemma MaskNumberSpec(v: Value)
    ensures Truthy(v) || v == Number(Fin(0.0)) ==> MaskNumber(v) == FirstCommaOnly(Sanitized(v))
    ensures DigitsAndCommas(MaskNumber(v)) && AtMostOneComma(MaskNumber(v))
  {
    if Truthy(v) || v == Number(Fin(0.0)) {
      CommaRuleSpec(Sanitized(v));
      FirstCommaOnlyShape(Sanitized(v));
    }
  }

  /** maskNumber is idempotent. */
  lemma MaskNumberIdempotent(v: Value)
    ensures MaskNumber(Str(MaskNumber(v))) == MaskNumber(v)
  {
    var r := MaskNumber(v);
    MaskNumberSpec(v);
    if r != "" {
      FilterAll(r, IsNumberChar);
      assert ReplaceChar(r, '.', ',') == r;
      assert Sanitized(Str(r)) == r;
      CommaRuleSpec(r);
      FirstCommaOnlyFixed(r);
    }
  }

  /** Both masks give '' for an empty input, but 0 is a value. */
  lemma MasksOnEmptyAndZero()
    ensures MaskValue(Undefined) == "" && MaskValue(Null) == "" && MaskValue(Str("")) == ""
    ensures MaskNumber(Undefined) == "" && MaskNumber(Null) == "" && MaskNumber(Str("")) == ""
    ensures MaskNumber(Number(Fin(0.0))) == "0"
    ensures MaskValue(Number(Fin(0.0))) == "0,00"
  {
    MaskNumberZero();
    MaskValueZero();
  }

  lemma MaskNumberZero()
    ensures MaskNumber(Number(Fin(0.0))) == "0"
  {
    var zero := Number(Fin(0.0));
    assert ToStr(zero) == "0" by {
      NumberToStringNat(0);
    }
    FilterAll("0", IsNumberChar);
    assert Sanitized(zero) == "0";
    assert IndexOf("0", ',') == None;
  }

  lemma MaskValueZero()
    ensures MaskValue(Number(Fin(0.0))) == "0,00"
  {
    var zero := Number(Fin(0.0));
    assert ToStr(zero) == "0" by {
      NumberToStringNat(0);
    }
    FilterAll("0", IsDigit);
    assert DigitsOf(zero) == "0";
    assert DigitsValue("0") == 0 by { assert "0"[..0] == ""; }
    assert CentsText(0) == "0,00";
  }

  // ------------------------------------------------- whole numbers, round trip

  /** maskNumber of a whole number is its decimal digits. */
  lemma MaskNumberNat(n: nat)
    ensures MaskNumber(Number(Fin(n as real))) == NatToString(n)
  {
    var s := NatToString(n);
    assert Sanitized(Number(Fin(n as real))) == s by {
      NumberToStringNat(n);
      FilterAll(s, IsNumberChar);
      assert ReplaceChar(s, '.', ',') == s;
    }
    assert CommaRule(s) == s by {
      assert IndexOf(s, ',') == None;
    }
  }

  /** parseValue reads a whole number's digits back as that number. */
  lemma ParseTextNat(n: nat)
    ensures ParseText(NatToString(n)) == n as real
  {
    var s := NatToString(n);
    RemoveCharAbsent(s, '.');
    assert IndexOf(s, ',') == None;
    assert CleanNumber(s) == s;
    ParseFloatDigits(s);
    NatToStringValue(n);
  }

  // ------------------------------------------------------- amount prefill

  /** The edit forms prefill a stored amount (in reais) with maskValue, which
      reads every digit of the amount as cents. */
  function AmountPrefillAsWritten(amount: real): string
  {
    MaskValue(Number(Fin(amount)))
  }

  /** A whole amount comes back a hundred times smaller when the prefilled
      text is parsed again. */
  lemma AmountPrefillShrinks(n: nat)
    ensures ParseText(AmountPrefillAsWritten(n as real)) == n as real / 100.0
  {
    var v := Number(Fin(n as real));
    assert DigitsValue(DigitsOf(v)) == n by {
      NumberToStringNat(n);
      FilterAll(NatToString(n), IsDigit);
      NatToStringValue(n);
    }
    MaskValueRoundTrip(v);
  }

  /** A price of 12 is prefilled as "0,12" and saved back as 0.12. */
  lemma AmountPrefillCounterexample()
    ensures ParseText(AmountPrefillAsWritten(12.0)) == 0.12
  {
    AmountPrefillShrinks(12);
  }

  /** A whole part plus a fraction in [0, 1) has that whole part as floor. */
  lemma FloorPlus(q: int, f: real)
    requires 0.0 <= f < 1.0
    ensures (q as real + f).Floor == q
  {
  }

  /** One non-zero tenth prints as its digit. */
  lemma FracDigitsTenth(b: nat, k: nat)
    requires 0 < b < 10
    ensures FracDigits(b as real / 10.0, k + 1) == [DigitChar(b)]
  {
    var f := b as real / 10.0;
    assert f * 10.0 == b as real;
    FloorPlus(b, 0.0);
    assert FracDigits(0.0, k) == "";
  }

  /** One step of the fraction's digits: the digit of f * 10, then the rest. */
  lemma FracDigitsStep(f: real, k: nat, d: nat, rest: real)
    requires 0.0 < f < 1.0 && k > 0 && d < 10
    requires (f * 10.0).Floor == d && rest == f * 10.0 - d as real
    ensures 0.0 <= rest < 1.0
    ensures FracDigits(f, k) == [DigitChar(d)] + FracDigits(rest, k - 1)
  {
  }

  /** a tenths and b hundredths, b non-zero, print as the two digits. */
  lemma FracDigitsHundredth(a: nat, b: nat)
    requires a < 10 && 0 < b < 10
    ensures FracDigits(a as real / 10.0 + b as real / 100.0, 20) == [DigitChar(a), DigitChar(b)]
  {
    var f := a as real / 10.0 + b as real / 100.0;
    var t := b as real / 10.0;
    assert f * 10.0 == a as real + t by {
      assert (a as real / 10.0) * 10.0 == a as real;
      assert (b as real / 100.0) * 10.0 == t;
    }
    assert (f * 10.0).Floor == a by {
      FloorPlus(a, t);
    }
    assert FracDigits(f, 20) == [DigitChar(a)] + FracDigits(t, 19) by {
      FracDigitsStep(f, 20, a, t);
    }
    assert FracDigits(t, 19) == [DigitChar(b)] by {
      FracDigitsTenth(b, 18);
    }
  }

  /** A whole part q and a fraction f in (0, 1) with digits d print as q, a
      point and d. */
  lemma NumberToStringSplit(x: real, q: nat, f: real, d: string)
    requires 0.0 < f < 1.0 && x == q as real + f && FracDigits(f, 20) == d
    ensures NumberToString(x) == NatToString(q) + "." + d
  {
    assert x.Floor == q by {
      FloorPlus(q, f);
    }
    assert x - q as real == f;
    assert d != "";
    assert UnsignedToString(x) == NatToString(q) + "." + d;
  }

  /** n hundredths split into whole part, tenths and hundredths. */
  lemma CentsSplit(n: nat)
    requires n % 10 != 0
    ensures var a, b := (n % 100) / 10, n % 10;
      n as real / 100.0 == (n / 100) as real + (a as real / 10.0 + b as real / 100.0)
  {
    var q, r := n / 100, n % 100;
    assert n == q * 100 + r;
    assert r == (r / 10) * 10 + r % 10;
    LastDigit(n);
    assert n as real == q as real * 100.0 + (r / 10) as real * 10.0 + (n % 10) as real;
  }

  /** The last digit of n is the last digit of its last two digits. */
  lemma LastDigit(n: nat)
    ensures (n % 100) % 10 == n % 10
  {
    var q, r := n / 100, n % 100;
    var a, b := r / 10, r % 10;
    assert n == (q * 10 + a) * 10 + b;
  }

  /** q, a tenths and b hundredths, b non-zero, print as q, a point and the
      two digits. */
  lemma NumberToStringTwoPlaces(q: nat, a: nat, b: nat, x: real)
    requires a < 10 && 0 < b < 10 && x == q as real + (a as real / 10.0 + b as real / 100.0)
    ensures NumberToString(x) == NatToString(q) + "." + [DigitChar(a), DigitChar(b)]
  {
    var f := a as real / 10.0 + b as real / 100.0;
    FracDigitsHundredth(a, b);
    NumberToStringSplit(x, q, f, [DigitChar(a), DigitChar(b)]);
  }

  /** n hundredths with a last digit other than 0 print with two decimals,
      as their toFixed(2) text. */
  lemma NumberToStringCents(n: nat)
    requires n % 10 != 0
    ensures NumberToString(n as real / 100.0) == Fixed2(n)
  {
    var a, b := (n % 100) / 10, n % 10;
    var d := [DigitChar(a), DigitChar(b)];
    assert NumberToString(n as real / 100.0) == NatToString(n / 100) + "." + d by {
      CentsSplit(n);
      NumberToStringTwoPlaces(n / 100, a, b, n as real / 100.0);
    }
    assert Pad2(n % 100) == d by {
      LastDigit(n);
    }
  }

  /** n tenths split into whole part and tenths. */
  lemma TenthsSplit(n: nat)
    ensures n as real / 10.0 == (n / 10) as real + (n % 10) as real / 10.0
  {
    assert n == (n / 10) * 10 + n % 10;
  }

  /** x, n tenths with a last digit other than 0, prints with one decimal. */
  lemma NumberToStringTenths(n: nat, x: real)
    requires n % 10 != 0 && x == n as real / 10.0
    ensures NumberToString(x) == NatToString(n / 10) + "." + [DigitChar(n % 10)]
  {
    var b := n % 10;
    TenthsSplit(n);
    FracDigitsTenth(b, 19);
    NumberToStringSplit(x, n / 10, b as real / 10.0, [DigitChar(b)]);
  }

  /** The digits maskValue keeps of a number printed as a + "." + b. */
  lemma DigitsAroundPoint(v: Value, a: string, b: string)
    requires ToStr(v) == a + ("." + b) && AllDigits(a) && AllDigits(b)
    ensures DigitsOf(v) == a + b
  {
    assert Filter("." + b, IsDigit) == b by {
      FilterAppend(".", b, IsDigit);
      assert Filter(".", IsDigit) == "";
      FilterAll(b, IsDigit);
    }
    FilterAppend(a, "." + b, IsDigit);
    FilterAll(a, IsDigit);
  }

  /** As written, a price with two decimals survives the prefill. */
  lemma AmountPrefillTwoDecimals(n: nat)
    requires n % 10 != 0
    ensures ParseText(AmountPrefillAsWritten(n as real / 100.0)) == n as real / 100.0
  {
    var v := Number(Fin(n as real / 100.0));
    NumberToStringCents(n);
    assert DigitsValue(DigitsOf(v)) == n by {
      assert ToStr(v) == NatToString(n / 100) + ("." + Pad2(n % 100));
      DigitsAroundPoint(v, NatToString(n / 100), Pad2(n % 100));
      Fixed2Digits(n);
    }
    MaskValueRoundTrip(v);
  }

  /** As written, a price x with one decimal (n tenths) comes back ten times
      smaller. */
  lemma AmountPrefillOneDecimal(n: nat, x: real)
    requires n % 10 != 0 && x == n as real / 10.0
    ensures ParseText(AmountPrefillAsWritten(x)) == x / 10.0
  {
    var v := Number(Fin(x));
    var a, b := NatToString(n / 10), [DigitChar(n % 10)];
    NumberToStringTenths(n, x);
    assert DigitsValue(DigitsOf(v)) == n by {
      assert ToStr(v) == a + ("." + b);
      DigitsAroundPoint(v, a, b);
      assert (a + b)[..|a + b| - 1] == a;
      NatToStringValue(n / 10);
    }
    MaskValueRoundTrip(v);
  }

  /** As written, a whole price x comes back a hundred times smaller. */
  lemma AmountPrefillWhole(k: nat, x: real)
    requires x == k as real
    ensures ParseText(AmountPrefillAsWritten(x)) == x / 100.0
  {
    AmountPrefillShrinks(k);
  }

  /** For an amount of whole cents, the prefill as written gives the amount
      back exactly when it is 0 or prints with two decimals; a whole amount
      shrinks a hundredfold and one with one decimal tenfold. */
  lemma AmountPrefillCents(n: nat)
    ensures ParseText(AmountPrefillAsWritten(n as real / 100.0)) == n as real / 100.0
      <==> n == 0 || n % 10 != 0
  {
    var x := n as real / 100.0;
    var y := ParseText(AmountPrefillAsWritten(x));
    assert ParseText(AmountPrefillAsWritten(n as real / 100.0)) == y;
    if n % 10 != 0 {
      assert y == x by {
        AmountPrefillTwoDecimals(n);
      }
      assert (y == x) <==> (n == 0 || n % 10 != 0);
    } else if n % 100 != 0 {
      var m := n / 10;
      assert y == x / 10.0 && x > 0.0 by {
        TensDigit(n);
        TenthsOfTens(n, m);
        AmountPrefillOneDecimal(m, x);
      }
      assert y != x;
      assert (y == x) <==> (n == 0 || n % 10 != 0);
    } else {
      var k := n / 100;
      assert y == x / 100.0 && x == k as real by {
        HundredsWhole(n);
        AmountPrefillWhole(k, x);
      }
      assert y == x <==> n == 0;
      assert (y == x) <==> (n == 0 || n % 10 != 0);
    }
  }

  /** A multiple of ten that is no multiple of a hundred is positive and has
      a non-zero tens digit. */
  lemma TensDigit(n: nat)
    requires n % 10 == 0 && n % 100 != 0
    ensures n > 0 && (n / 10) % 10 != 0 && n == (n / 10) * 10
  {
  }

  lemma TenthsOfTens(n: nat, m: nat)
    requires n == m * 10
    ensures n as real / 100.0 == m as real / 10.0
  {
  }

  lemma HundredsWhole(n: nat)
    requires n % 100 == 0
    ensures n as real / 100.0 == (n / 100) as real
  {
    assert n == (n / 100) * 100;
  }

  /** 12.5 is prefilled as "1,25" and saved back as 1.25; 12.34 survives. */
  lemma AmountPrefillDecimalExamples()
    ensures ParseText(AmountPrefillAsWritten(12.5)) == 1.25
    ensures ParseText(AmountPrefillAsWritten(12.34)) == 12.34
  {
    AmountPrefillOneDecimal(125, 12.5);
    AmountPrefillTwoDecimals(1234);
  }

  /** The prefill the mask expects: the amount's cents, masked. */
  function AmountPrefill(amount: real): string
  {
    MaskValue(Number(Fin(Round(amount * 100.0) as real)))
  }

  /** A non-negative amount of whole cents survives prefill and parse. */
  lemma AmountPrefillRoundTrip(amount: real)
    requires amount >= 0.0 && (amount * 100.0).Floor as real == amount * 100.0
    ensures ParseText(AmountPrefill(amount)) == amount
  {
    var k := (amount * 100.0).Floor;
    assert Round(amount * 100.0) == k by {
      assert (k as real + 0.5).Floor == k;
    }
    assert AmountPrefill(amount) == AmountPrefillAsWritten(k as real);
    AmountPrefillShrinks(k);
  }

  /** The prefilled text of a non-negative amount has the money shape. */
  lemma AmountPrefillShape(amount: real)
    requires amount >= 0.0
    ensures MoneyText(AmountPrefill(amount))
  {
    var n := Round(amount * 100.0);
    assert n >= 0;
    NumberToStringNat(n);
    FilterAll(NatToString(n), IsDigit);
    assert DigitsOf(Number(Fin(n as real))) == NatToString(n);
    MaskValueShape(Number(Fin(n as real)));
  }

  // ------------------------------------------------------ toFixed(2) text

  /** The digits of a toFixed(2) text, read together, are its hundredths. */
  lemma Fixed2Digits(n: nat)
    ensures AllDigits(NatToString(n / 100) + Pad2(n % 100))
    ensures DigitsValue(NatToString(n / 100) + Pad2(n % 100)) == n
  {
    var a, b := NatToString(n / 100), Pad2(n % 100);
    DigitsValueAppend(a, b);
    assert Pow10(2) == 100;
    NatToStringValue(n / 100);
  }

  /** Deleting a point between two texts without points joins them. */
  lemma RemovePointBetween(a: string, b: string)
    requires '.' !in a && '.' !in b
    ensures RemoveChar(a + ("." + b), '.') == a + b
  {
    assert RemoveChar("." + b, '.') == b by {
      RemoveCharAppend(".", b, '.');
      assert RemoveChar(".", '.') == "";
      RemoveCharAbsent(b, '.');
    }
    RemoveCharAppend(a, "." + b, '.');
    RemoveCharAbsent(a, '.');
  }

  /** Deleting the point of a toFixed(2) text leaves its digits. */
  lemma Fixed2WithoutPoint(n: nat)
    ensures RemoveChar(Fixed2(n), '.') == NatToString(n / 100) + Pad2(n % 100)
  {
    var a, b := NatToString(n / 100), Pad2(n % 100);
    assert Fixed2(n) == a + ("." + b);
    assert !IsDigit('.');
    RemovePointBetween(a, b);
  }

  /** parseValue deletes the decimal point of a toFixed(2) text as if it
      were a thousands dot, so n hundredths read back as n whole units. */
  lemma ParseTextFixed2(n: nat)
    ensures ParseText(Fixed2(n)) == n as real
  {
    var d := NatToString(n / 100) + Pad2(n % 100);
    Fixed2WithoutPoint(n);
    Fixed2Digits(n);
    assert IndexOf(d, ',') == None;
    assert CleanNumber(Fixed2(n)) == d;
    ParseFloatDigits(d);
  }

  /** maskValue keeps only the digits of a toFixed(2) text, so it shows the
      same n hundredths in the money shape. */
  lemma MaskFixed2(n: nat)
    ensures MaskValue(Str(Fixed2(n))) == CentsText(n)
  {
    var a, b := NatToString(n / 100), Pad2(n % 100);
    assert Fixed2(n) == a + ("." + b);
    assert Filter("." + b, IsDigit) == b by {
      FilterAppend(".", b, IsDigit);
      assert Filter(".", IsDigit) == "";
      FilterAll(b, IsDigit);
    }
    FilterAppend(a, "." + b, IsDigit);
    FilterAll(a, IsDigit);
    assert DigitsOf(Str(Fixed2(n))) == a + b;
    Fixed2Digits(n);
  }
}
