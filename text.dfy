// String vocabulary of the app: digit strings and their values, the
// String.prototype methods the pages use (includes, startsWith, split, join,
// trim, replace, substring, toUpperCase/toLowerCase) and the thousands
// grouping that the masks and the receipt parser share.

module Text {
  import opened Seqs

  // ---------------------------------------------------------------- digits

  /** The regex class \d: ASCII digits only. */
  predicate IsDigit(c: char)
  {
    '0' <= c <= '9'
  }

  predicate AllDigits(s: string)
  {
    forall i :: 0 <= i < |s| ==> IsDigit(s[i])
  }

  function DigitVal(c: char): (d: nat)
    requires IsDigit(c)
    ensures d < 10
  {
    c as int - '0' as int
  }

  function DigitChar(d: nat): (c: char)
    requires d < 10
    ensures IsDigit(c) && DigitVal(c) == d
  {
    ('0' as int + d) as char
  }

  /** The base-10 value of a digit string ("" reads as 0). */
  function DigitsValue(s: string): nat
    requires AllDigits(s)
  {
    if s == [] then 0 else DigitsValue(s[..|s| - 1]) * 10 + DigitVal(s[|s| - 1])
  }

  /** Number.prototype.toString of a natural number: decimal, no leading zero. */
  function NatToString(n: nat): (r: string)
    ensures |r| >= 1 && AllDigits(r)
    ensures r[0] == '0' ==> n == 0
  {
    if n < 10 then [DigitChar(n)] else NatToString(n / 10) + [DigitChar(n % 10)]
  }

  lemma {:induction false} NatToStringValue(n: nat)
    ensures DigitsValue(NatToString(n)) == n
  {
    if n >= 10 {
      var r := NatToString(n);
      NatToStringValue(n / 10);
      assert r[..|r| - 1] == NatToString(n / 10);
    }
  }

  /** Number.prototype.toString of an integer. */
  function IntToString(i: int): (r: string)
  {
    if i < 0 then "-" + NatToString(-i) else NatToString(i)
  }

  /** String(k).padStart(2, '0') for 0 <= k < 100. */
  function Pad2(k: nat): (r: string)
    requires k < 100
    ensures |r| == 2 && AllDigits(r) && DigitsValue(r) == k
  {
    var r := [DigitChar(k / 10), DigitChar(k % 10)];
    assert r[..1] == [DigitChar(k / 10)];
    assert r[..1][..0] == [];
    assert DigitsValue(r[..1]) == k / 10;
    r
  }

  lemma {:induction false} DigitsValueAppend(a: string, b: string)
    requires AllDigits(a) && AllDigits(b)
    ensures AllDigits(a + b)
    ensures DigitsValue(a + b) == DigitsValue(a) * Pow10(|b|) + DigitsValue(b)
    decreases |b|
  {
    if b == [] {
      assert a + b == a;
    } else {
      var b' := b[..|b| - 1];
      var d := DigitVal(b[|b| - 1]);
      assert (a + b)[..|a + b| - 1] == a + b';
      assert (a + b)[|a + b| - 1] == b[|b| - 1];
      DigitsValueAppend(a, b');
      var va, vb := DigitsValue(a), DigitsValue(b');
      var p := Pow10(|b'|);
      assert DigitsValue(a + b) == (va * p + vb) * 10 + d;
      ShiftDigit(va, p, vb, d);
      assert DigitsValue(b) == vb * 10 + d by {
        assert b[..|b| - 1] == b';
      }
    }
  }

  lemma ShiftDigit(va: nat, p: nat, vb: nat, d: nat)
    ensures (va * p + vb) * 10 + d == va * (p * 10) + (vb * 10 + d)
  {
  }

  /** 10^n. */
  function Pow10(n: nat): (r: nat)
    ensures r >= 1
  {
    if n == 0 then 1 else 10 * Pow10(n - 1)
  }

  // -------------------------------------------------------------- grouping

  /** A digit string grouped in threes with '.', as the regex
      \d{1,3}(?:\.\d{3})* describes it. */
  predicate GroupedDigits(t: string)
    decreases |t|
  {
    (1 <= |t| <= 3 && AllDigits(t)) ||
    (|t| >= 5 && t[|t| - 4] == '.' && AllDigits(t[|t| - 3..]) && GroupedDigits(t[..|t| - 4]))
  }

  /** The replace(/\B(?=(\d{3})+(?!\d))/g, ".") step on a digit string: a '.'
      goes at every inner position followed by a multiple of three digits. */
  function GroupThousands(s: string): (r: string)
    requires AllDigits(s)
    decreases |s|
  {
    if |s| <= 3 then s else GroupThousands(s[..|s| - 3]) + "." + s[|s| - 3..]
  }

  lemma {:induction false} GroupThousandsShape(s: string)
    requires AllDigits(s) && s != []
    ensures GroupedDigits(GroupThousands(s))
    decreases |s|
  {
    if |s| > 3 {
      var g := GroupThousands(s[..|s| - 3]);
      GroupThousandsShape(s[..|s| - 3]);
      var r := g + "." + s[|s| - 3..];
      assert r[..|r| - 4] == g;
      assert r[|r| - 3..] == s[|s| - 3..];
    }
  }

  /** Deleting the grouping dots gives the digits back. */
  lemma {:induction false} GroupThousandsUngroup(s: string)
    requires AllDigits(s)
    ensures RemoveChar(GroupThousands(s), '.') == s
    decreases |s|
  {
    if |s| <= 3 {
      RemoveCharAbsent(s, '.');
    } else {
      var a, b := s[..|s| - 3], s[|s| - 3..];
      var g := GroupThousands(a);
      assert GroupThousands(s) == g + ("." + b);
      GroupThousandsUngroup(a);
      RemoveDotThen(g, b);
      assert s == a + b;
    }
  }

  lemma RemoveDotThen(g: string, b: string)
    requires AllDigits(b)
    ensures RemoveChar(g + ("." + b), '.') == RemoveChar(g, '.') + b
  {
    assert RemoveChar("." + b, '.') == b by {
      assert '.' !in b;
      RemoveCharAbsent(b, '.');
      RemoveCharAppend(".", b, '.');
      assert RemoveChar(".", '.') == "";
    }
    RemoveCharAppend(g, "." + b, '.');
  }

  // ------------------------------------------------------------ characters

  /** String.prototype.toUpperCase on one character (ASCII and Latin-1 letters;
      ß, which JavaScript turns into "SS", is kept). */
  function UpperChar(c: char): char
  {
    if 'a' <= c <= 'z' then (c as int - 32) as char
    else if 0xE0 <= c as int <= 0xFE && c as int != 0xF7 then (c as int - 32) as char
    else if c as int == 0xFF then 0x178 as char
    else if c as int == 0xB5 then 0x39C as char
    else c
  }

  /** String.prototype.toLowerCase on one character (ASCII and Latin-1 letters). */
  function LowerChar(c: char): char
  {
    if 'A' <= c <= 'Z' then (c as int + 32) as char
    else if 0xC0 <= c as int <= 0xDE && c as int != 0xD7 then (c as int + 32) as char
    else if c as int == 0x178 then 0xFF as char
    else c
  }

  function Upper(s: string): (r: string)
    ensures |r| == |s|
    ensures forall i :: 0 <= i < |s| ==> r[i] == UpperChar(s[i])
  {
    Map(s, UpperChar)
  }

  function Lower(s: string): (r: string)
    ensures |r| == |s|
    ensures forall i :: 0 <= i < |s| ==> r[i] == LowerChar(s[i])
  {
    Map(s, LowerChar)
  }

  /** Upper-casing twice is upper-casing once. */
  lemma UpperIdempotent(s: string)
    ensures Upper(Upper(s)) == Upper(s)
  {
    assert forall i :: 0 <= i < |s| ==> UpperChar(UpperChar(s[i])) == UpperChar(s[i]);
  }

  lemma LowerIdempotent(s: string)
    ensures Lower(Lower(s)) == Lower(s)
  {
    assert forall i :: 0 <= i < |s| ==> LowerChar(LowerChar(s[i])) == LowerChar(s[i]);
  }

  predicate IsUpper(s: string)
  {
    Upper(s) == s
  }

  /** The white space that String.prototype.trim and the regex class \s remove:
      WhiteSpace and LineTerminator of ECMAScript. */
  predicate IsSpace(c: char)
  {
    var k := c as int;
    k == 0x9 || k == 0xA || k == 0xB || k == 0xC || k == 0xD || k == 0x20 ||
    k == 0xA0 || k == 0x1680 || (0x2000 <= k <= 0x200A) || k == 0x2028 ||
    k == 0x2029 || k == 0x202F || k == 0x205F || k == 0x3000 || k == 0xFEFF
  }

  // ----------------------------------------------------------- substrings

  predicate StartsWith(s: string, p: string)
  {
    |p| <= |s| && s[..|p|] == p
  }

  predicate EndsWith(s: string, p: string)
  {
    |p| <= |s| && s[|s| - |p|..] == p
  }

  /** String.prototype.includes. */
  predicate Contains(s: string, t: string)
    decreases |s|
  {
    StartsWith(s, t) || (s != [] && Contains(s[1..], t))
  }

  /** t occurs in s at some position. */
  lemma {:induction false} ContainsAt(s: string, t: string, i: nat)
    requires i + |t| <= |s| && s[i..i + |t|] == t
    ensures Contains(s, t)
    decreases i
  {
    if i > 0 {
      assert s[1..][i - 1..i - 1 + |t|] == t;
      ContainsAt(s[1..], t, i - 1);
    }
  }

  lemma {:induction false} ContainsEmpty(s: string)
    ensures Contains(s, "")
  {
    assert s[..0] == "";
  }

  /** String.prototype.substring(0, n). */
  function Take(s: string, n: nat): (r: string)
    ensures |r| <= n && |r| <= |s|
    ensures r == s[..if n < |s| then n else |s|]
  {
    if n < |s| then s[..n] else s
  }

  /** The position of the first c in s. */
  function IndexOf(s: string, c: char): (r: Option<nat>)
    ensures r.None? ==> c !in s
    ensures r.Some? ==> r.value < |s| && s[r.value] == c && c !in s[..r.value]
  {
    if s == [] then None
    else if s[0] == c then Some(0)
    else match IndexOf(s[1..], c)
      case None => None
      case Some(i) =>
        assert s[..i + 1] == [s[0]] + s[1..][..i];
        Some(i + 1)
  }

  /** String.prototype.split with a one-character separator. */
  function Split(s: string, c: char): (r: seq<string>)
    ensures |r| >= 1
    ensures forall k :: 0 <= k < |r| ==> c !in r[k]
    decreases |s|
  {
    match IndexOf(s, c)
      case None => [s]
      case Some(i) => [s[..i]] + Split(s[i + 1..], c)
  }

  /** Array.prototype.join. */
  function Join(parts: seq<string>, sep: string): string
  {
    if parts == [] then ""
    else if |parts| == 1 then parts[0]
    else parts[0] + sep + Join(parts[1..], sep)
  }

  /** Splitting on c and joining with c gives the string back. */
  lemma {:induction false} JoinSplit(s: string, c: char)
    ensures Join(Split(s, c), [c]) == s
    decreases |s|
  {
    match IndexOf(s, c)
      case None =>
      case Some(i) =>
        JoinSplit(s[i + 1..], c);
        assert s == s[..i] + [c] + s[i + 1..];
  }

  /** The first c after a stretch without one is where that stretch ends. */
  lemma {:induction false} IndexOfAfter(a: string, b: string, c: char)
    requires c !in a
    ensures IndexOf(a + [c] + b, c) == Some(|a|)
  {
    if a != [] {
      IndexOfAfter(a[1..], b, c);
      assert (a + [c] + b)[1..] == a[1..] + [c] + b;
    }
  }

  /** Joining parts without c by c and splitting on c gives the parts back. */
  lemma {:induction false} SplitJoin(parts: seq<string>, c: char)
    requires |parts| >= 1
    requires forall k :: 0 <= k < |parts| ==> c !in parts[k]
    ensures Split(Join(parts, [c]), c) == parts
  {
    var head := parts[0];
    if |parts| == 1 {
      assert IndexOf(head, c).None?;
    } else {
      var tail := parts[1..];
      SplitJoin(tail, c);
      var rest := Join(tail, [c]);
      var s := head + [c] + rest;
      assert Join(parts, [c]) == s;
      IndexOfAfter(head, rest, c);
      assert s[|head| + 1..] == rest;
      assert s[..|head|] == head;
      assert Split(s, c) == [head] + Split(rest, c);
      assert parts == [head] + tail;
    }
  }

  /** replace(/x/g, '') for a single character x. */
  function RemoveChar(s: string, c: char): (r: string)
    ensures c !in r
    ensures |r| <= |s|
  {
    if s == [] then [] else (if s[0] == c then [] else [s[0]]) + RemoveChar(s[1..], c)
  }

  lemma {:induction false} RemoveCharAppend(a: string, b: string, c: char)
    ensures RemoveChar(a + b, c) == RemoveChar(a, c) + RemoveChar(b, c)
  {
    if a == [] {
      assert a + b == b;
    } else {
      var t := a[1..];
      var h := if a[0] == c then [] else [a[0]];
      assert (a + b)[0] == a[0] && (a + b)[1..] == t + b;
      calc {
        RemoveChar(a + b, c);
        h + RemoveChar(t + b, c);
      == { RemoveCharAppend(t, b, c); }
        h + (RemoveChar(t, c) + RemoveChar(b, c));
        (h + RemoveChar(t, c)) + RemoveChar(b, c);
        RemoveChar(a, c) + RemoveChar(b, c);
      }
    }
  }

  lemma {:induction false} RemoveCharAbsent(s: string, c: char)
    requires c !in s
    ensures RemoveChar(s, c) == s
  {
    if s != [] {
      RemoveCharAbsent(s[1..], c);
    }
  }

  /** A character survives exactly when it is in s and is not c. */
  lemma {:induction false} RemoveCharMembers(s: string, c: char)
    ensures forall x :: x in RemoveChar(s, c) <==> x in s && x != c
  {
    if s != [] {
      RemoveCharMembers(s[1..], c);
      assert s == [s[0]] + s[1..];
    }
  }

  /** Joining with "" is deleting the separator. */
  lemma {:induction false} JoinSplitEmpty(s: string, c: char)
    ensures Join(Split(s, c), "") == RemoveChar(s, c)
    decreases |s|
  {
    match IndexOf(s, c)
      case None =>
        RemoveCharAbsent(s, c);
      case Some(i) =>
        var a, b := s[..i], s[i + 1..];
        var rest := Split(b, c);
        assert Join(Split(s, c), "") == a + Join(rest, "") by {
          assert Split(s, c) == [a] + rest;
          JoinCons(a, rest, "");
        }
        assert RemoveChar(s, c) == a + RemoveChar(b, c) by {
          assert s == a + [c] + b;
          RemoveCharAround(a, b, c);
        }
        JoinSplitEmpty(b, c);
  }

  lemma JoinCons(a: string, rest: seq<string>, sep: string)
    requires |rest| >= 1
    ensures Join([a] + rest, sep) == a + sep + Join(rest, sep)
  {
    assert ([a] + rest)[1..] == rest;
  }

  lemma {:induction false} RemoveCharAround(a: string, b: string, c: char)
    requires c !in a
    ensures RemoveChar(a + [c] + b, c) == a + RemoveChar(b, c)
  {
    var s := a + [c] + b;
    if a == [] {
      assert s[0] == c && s[1..] == b;
    } else {
      assert s[0] == a[0] && s[1..] == a[1..] + [c] + b;
      RemoveCharAround(a[1..], b, c);
      assert a == [a[0]] + a[1..];
    }
  }

  /** replace(/a/g, b) for single characters. */
  function ReplaceChar(s: string, a: char, b: char): (r: string)
    ensures |r| == |s|
    ensures forall i :: 0 <= i < |s| ==> r[i] == if s[i] == a then b else s[i]
  {
    Map(s, (x: char) => if x == a then b else x)
  }

  /** replace(a, b) with a one-character string pattern: only the first a. */
  function ReplaceFirstChar(s: string, a: char, b: char): (r: string)
    ensures |r| == |s|
  {
    match IndexOf(s, a)
      case None => s
      case Some(i) => s[..i] + [b] + s[i + 1..]
  }

  /** The characters of s that satisfy keep (replace(/[^...]/g, '')). */
  function Keep(s: string, keep: char -> bool): (r: string)
    ensures |r| <= |s|
    ensures forall i :: 0 <= i < |r| ==> keep(r[i])
  {
    Filter(s, keep)
  }

  function TrimStart(s: string): (r: string)
    ensures |r| <= |s| && r == s[|s| - |r|..]
    ensures r != [] ==> !IsSpace(r[0])
    decreases |s|
  {
    if s != [] && IsSpace(s[0]) then TrimStart(s[1..]) else s
  }

  /** Text that does not start with white space is left alone. */
  lemma TrimStartNoSpace(s: string)
    requires s != [] && !IsSpace(s[0])
    ensures TrimStart(s) == s
  {
  }

  function TrimEnd(s: string): (r: string)
    ensures |r| <= |s| && r == s[..|r|]
    ensures r != [] ==> !IsSpace(r[|r| - 1])
    decreases |s|
  {
    if s != [] && IsSpace(s[|s| - 1]) then TrimEnd(s[..|s| - 1]) else s
  }

  /** String.prototype.trim. */
  function Trim(s: string): (r: string)
    ensures r != [] ==> !IsSpace(r[0]) && !IsSpace(r[|r| - 1])
  {
    TrimEnd(TrimStart(s))
  }

  /** s.trim() === '' */
  predicate IsBlank(s: string)
  {
    Trim(s) == ""
  }

  // ----------------------------------------------------------- string order

  /** The default order of Array.prototype.sort on strings: code unit by
      code unit, a proper prefix first. */
  predicate CodeUnitLess(a: string, b: string)
  {
    if b == [] then false
    else if a == [] then true
    else if a[0] != b[0] then a[0] < b[0]
    else CodeUnitLess(a[1..], b[1..])
  }

  lemma {:induction false} CodeUnitLessAsymmetric(a: string, b: string)
    ensures CodeUnitLess(a, b) ==> !CodeUnitLess(b, a)
  {
    if a != [] && b != [] && a[0] == b[0] {
      CodeUnitLessAsymmetric(a[1..], b[1..]);
    }
  }

  lemma {:induction false} CodeUnitLessTransitive(a: string, b: string, c: string)
    requires CodeUnitLess(a, b) && CodeUnitLess(b, c)
    ensures CodeUnitLess(a, c)
  {
    if a != [] && a[0] == b[0] && b[0] == c[0] {
      CodeUnitLessTransitive(a[1..], b[1..], c[1..]);
    }
  }

  /** Two different strings are ordered one way or the other. */
  lemma {:induction false} CodeUnitLessTotal(a: string, b: string)
    ensures a == b || CodeUnitLess(a, b) || CodeUnitLess(b, a)
  {
    if a != [] && b != [] && a[0] == b[0] {
      CodeUnitLessTotal(a[1..], b[1..]);
      if a[1..] == b[1..] {
        assert a == [a[0]] + a[1..] && b == [b[0]] + b[1..];
      }
    }
  }

  /** A comparator that orders by a text key in code-unit order is a strict
      order. */
  lemma TextKeyIsStrictOrder<T(!new)>(key: T -> string, before: (T, T) -> bool)
    requires forall x, y :: before(x, y) == CodeUnitLess(key(x), key(y))
    ensures StrictOrder(before)
  {
    forall x: T, y: T
      ensures CodeUnitLess(key(x), key(y)) ==> !CodeUnitLess(key(y), key(x))
    {
      CodeUnitLessAsymmetric(key(x), key(y));
    }
    forall x: T, y: T, z: T | CodeUnitLess(key(x), key(y)) && CodeUnitLess(key(y), key(z))
      ensures CodeUnitLess(key(x), key(z))
    {
      CodeUnitLessTransitive(key(x), key(y), key(z));
    }
  }

  /** The comparison of Array.prototype.sort without a comparator on strings. */
  function CodeUnitOrder(): (string, string) -> bool
  {
    (a: string, b: string) => CodeUnitLess(a, b)
  }

  lemma CodeUnitOrderIsStrictOrder()
    ensures StrictOrder(CodeUnitOrder())
  {
    TextKeyIsStrictOrder((x: string) => x, CodeUnitOrder());
  }
}
