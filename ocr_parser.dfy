// src/utils/ocr-parser.ts: pulls an amount, a date and a description out of
// the raw text a receipt scan produced. The three regular expressions are
// modelled as deterministic matchers, and matchAll as a left-to-right scan of
// non-overlapping matches.

module OcrParser {
  import opened Seqs
  import opened Text
  import Format

  datatype ExtractedData = ExtractedData(amount: string, date: string, description: string)

  // ------------------------------------------------------ amount pattern

  /** Length of the run of digits starting at j. */
  function DigitRun(s: string, j: nat): (n: nat)
    requires j <= |s|
    ensures j + n <= |s|
    ensures forall k :: j <= k < j + n ==> IsDigit(s[k])
    ensures j + n == |s| || !IsDigit(s[j + n])
    decreases |s| - j
  {
    if j < |s| && IsDigit(s[j]) then 1 + DigitRun(s, j + 1) else 0
  }

  /** A '.' and three digits at k. */
  predicate GroupAt(s: string, k: nat)
  {
    k + 4 <= |s| && s[k] == '.' && IsDigit(s[k + 1]) && IsDigit(s[k + 2]) && IsDigit(s[k + 3])
  }

  /** End of the greedy (?:\.\d{3})* starting at k. */
  function GroupsEnd(s: string, k: nat): (e: nat)
    requires k <= |s|
    ensures k <= e <= |s| && !GroupAt(s, e)
    decreases |s| - k
  {
    if GroupAt(s, k) then GroupsEnd(s, k + 4) else k
  }

  /** End of a match of \d{1,3}(?:\.\d{3})*,\d{2} that starts at j. Taking
      fewer digits or fewer groups leaves a digit or a '.' where ',' is needed,
      so the greedy choice is the only one that can succeed. */
  function MoneyAt(s: string, j: nat): (r: Option<nat>)
    requires j <= |s|
    ensures r.Some? ==> j + 4 <= r.value <= |s|
  {
    var n := DigitRun(s, j);
    if n < 1 || n > 3 then None
    else
      var k := GroupsEnd(s, j + n);
      if k + 3 <= |s| && s[k] == ',' && IsDigit(s[k + 1]) && IsDigit(s[k + 2]) then Some(k + 3)
      else None
  }

  lemma {:induction false} GroupsEndGrouped(s: string, j: nat, k: nat)
    requires j < k <= |s| && GroupedDigits(s[j..k])
    ensures GroupedDigits(s[j..GroupsEnd(s, k)])
    decreases |s| - k
  {
    if GroupAt(s, k) {
      var t := s[j..k + 4];
      assert t[..|t| - 4] == s[j..k];
      assert t[|t| - 4] == '.';
      assert t[|t| - 3..] == s[k + 1..k + 4];
      GroupsEndGrouped(s, j, k + 4);
    }
  }

  /** Whatever the amount pattern matches has the shape maskValue prints. */
  lemma MoneyAtShape(s: string, j: nat)
    requires j <= |s| && MoneyAt(s, j).Some?
    ensures Format.MoneyText(s[j..MoneyAt(s, j).value])
  {
    var n := DigitRun(s, j);
    var k := GroupsEnd(s, j + n);
    assert MoneyAt(s, j).value == k + 3;
    assert GroupedDigits(s[j..k]) by {
      assert GroupedDigits(s[j..j + n]);
      GroupsEndGrouped(s, j, j + n);
    }
    var t := s[j..k + 3];
    assert t[..|t| - 3] == s[j..k];
    assert t[|t| - 3] == ',';
    assert AllDigits(t[|t| - 2..]) by {
      assert t[|t| - 2..] == s[k + 1..k + 3];
    }
  }

  // ------------------------------------------------------ amount prefix

  /** Canonical form of a character in a non-Unicode case-insensitive regex,
      as far as ASCII letters go. */
  function Fold(c: char): char
  {
    if 'a' <= c <= 'z' then (c as int - 32) as char else c
  }

  /** The word w, in any letter case, at position j. */
  predicate WordAt(s: string, j: nat, w: string)
    decreases |w|
  {
    w == [] || (j < |s| && Fold(s[j]) == w[0] && WordAt(s, j + 1, w[1..]))
  }

  /** Length of the R$ / VALOR / TOTAL / PAGO keyword at j; 0 when there is none. */
  function KeywordLength(s: string, j: nat): nat
  {
    if WordAt(s, j, "R$") then 2
    else if WordAt(s, j, "VALOR") then 5
    else if WordAt(s, j, "TOTAL") then 5
    else if WordAt(s, j, "PAGO") then 4
    else 0
  }

  /** Index of the first non-white-space character at or after k (\s*). */
  function SkipSpaces(s: string, k: nat): (e: nat)
    requires k <= |s|
    ensures k <= e <= |s|
    ensures e == |s| || !IsSpace(s[e])
    decreases |s| - k
  {
    if k < |s| && IsSpace(s[k]) then SkipSpaces(s, k + 1) else k
  }

  /** Where the number must start after the keyword at j: \s* [:=]? \s*
      leaves only one way to reach a digit. */
  function SkipAfterKeyword(s: string, j: nat): (c: nat)
    ensures j <= c <= |s| || c == j
  {
    var w := KeywordLength(s, j);
    if w == 0 || j + w > |s| then j
    else
      var a := SkipSpaces(s, j + w);
      var b := if a < |s| && (s[a] == ':' || s[a] == '=') then a + 1 else a;
      SkipSpaces(s, b)
  }

  /** A match of the prefixed amount pattern at j: the bounds of the captured number. */
  function PrefixedAt(s: string, j: nat): (r: Option<(nat, nat)>)
    requires j <= |s|
    ensures r.Some? ==> j < r.value.0 <= |s| && MoneyAt(s, r.value.0) == Some(r.value.1)
  {
    var c := SkipAfterKeyword(s, j);
    if c == j then None
    else
      match MoneyAt(s, c)
        case None => None
        case Some(e) => Some((c, e))
  }

  // ------------------------------------------------------ matchAll scans

  /** The captured numbers of text.matchAll(amountRegex) from position i on. */
  function PrefixedMatches(s: string, i: nat): seq<string>
    requires i <= |s|
    decreases |s| - i
  {
    if i == |s| then []
    else
      var m := PrefixedAt(s, i);
      if m.Some? then [Captured(s, m.value)] + PrefixedMatches(s, m.value.1)
      else PrefixedMatches(s, i + 1)
  }

  /** The matches of text.matchAll(fallbackAmountRegex) from position i on. */
  function BareMatches(s: string, i: nat): seq<string>
    requires i <= |s|
    decreases |s| - i
  {
    if i == |s| then []
    else match MoneyAt(s, i)
      case Some(e) => [s[i..e]] + BareMatches(s, e)
      case None => BareMatches(s, i + 1)
  }

  /** The last prefixed match, else the last bare match, else ''. */
  function Amount(text: string): string
  {
    var p := PrefixedMatches(text, 0);
    if |p| > 0 then p[|p| - 1]
    else
      var b := BareMatches(text, 0);
      if |b| > 0 then b[|b| - 1] else ""
  }

  /** Each scanned match is an occurrence of the amount pattern at or after i. */
  predicate Occurs(s: string, i: nat, m: string)
  {
    exists j :: i <= j <= |s| && MoneyAt(s, j).Some? && s[j..MoneyAt(s, j).value] == m
  }

  lemma {:induction false} BareMatchesOccur(s: string, i: nat)
    requires i <= |s|
    ensures forall k :: 0 <= k < |BareMatches(s, i)| ==> Occurs(s, i, BareMatches(s, i)[k])
    decreases |s| - i
  {
    if i < |s| {
      match MoneyAt(s, i)
        case Some(e) =>
          BareMatchesOccur(s, e);
          var r := BareMatches(s, i);
          forall k | 0 <= k < |r| ensures Occurs(s, i, r[k]) {
            if k > 0 {
              assert r[k] == BareMatches(s, e)[k - 1];
              OccursLater(s, i, e, r[k]);
            } else {
              assert i <= i <= |s| && MoneyAt(s, i).Some? && s[i..MoneyAt(s, i).value] == r[k];
            }
          }
        case None =>
          BareMatchesOccur(s, i + 1);
          var r := BareMatches(s, i + 1);
          assert BareMatches(s, i) == r;
          forall k | 0 <= k < |r| ensures Occurs(s, i, r[k]) {
            OccursLater(s, i, i + 1, r[k]);
          }
    }
  }

  /** An occurrence at or after a later position is one at or after i. */
  lemma OccursLater(s: string, i: nat, e: nat, m: string)
    requires i <= e && Occurs(s, e, m)
    ensures Occurs(s, i, m)
  {
  }

  /** The text of a capture. */
  function Captured(s: string, ce: (nat, nat)): string
  {
    if ce.0 <= ce.1 <= |s| then s[ce.0..ce.1] else ""
  }

  /** m is the number captured by some prefixed match in s. */
  predicate CapturedAt(s: string, m: string)
  {
    exists j :: 0 <= j <= |s| && PrefixedAt(s, j).Some? && Captured(s, PrefixedAt(s, j).value) == m
  }

  lemma {:induction false} PrefixedMatchesCaptured(s: string, i: nat)
    requires i <= |s|
    ensures forall k :: 0 <= k < |PrefixedMatches(s, i)| ==> CapturedAt(s, PrefixedMatches(s, i)[k])
    decreases |s| - i
  {
    if i < |s| {
      var m := PrefixedAt(s, i);
      if m.Some? {
        PrefixedMatchesCaptured(s, m.value.1);
        var r := PrefixedMatches(s, i);
        forall k | 0 <= k < |r| ensures CapturedAt(s, r[k]) {
          if k > 0 {
            assert r[k] == PrefixedMatches(s, m.value.1)[k - 1];
          }
        }
      } else {
        PrefixedMatchesCaptured(s, i + 1);
      }
    }
  }

  /** The bare scan from i finds something whenever the pattern occurs at or after i. */
  lemma {:induction false} BareMatchesFind(s: string, i: nat, j: nat)
    requires i <= j <= |s| && MoneyAt(s, j).Some?
    ensures BareMatches(s, i) != []
    decreases j - i
  {
    if i < j && MoneyAt(s, i).None? {
      BareMatchesFind(s, i + 1, j);
    } else if i == j {
      assert j < |s|;
    }
  }

  /** The bare scan from i finds nothing when the pattern occurs nowhere at or after i. */
  lemma {:induction false} BareMatchesNone(s: string, i: nat)
    requires i <= |s|
    requires forall j :: i <= j <= |s| ==> MoneyAt(s, j).None?
    ensures BareMatches(s, i) == []
    decreases |s| - i
  {
    if i < |s| {
      BareMatchesNone(s, i + 1);
    }
  }

  /** The prefixed scan finds nothing when the pattern occurs nowhere. */
  lemma {:induction false} PrefixedMatchesNone(s: string, i: nat)
    requires i <= |s|
    requires forall j :: 0 <= j <= |s| ==> MoneyAt(s, j).None?
    ensures PrefixedMatches(s, i) == []
    decreases |s| - i
  {
    if i < |s| {
      assert MoneyAt(s, SkipAfterKeyword(s, i)).None?;
      PrefixedMatchesNone(s, i + 1);
    }
  }

  /** The extracted amount always has the shape 1-3 digits, '.ddd' groups, ',dd'. */
  lemma AmountShape(text: string)
    ensures Amount(text) != "" ==> Format.MoneyText(Amount(text))
    ensures Amount(text) != "" ==> Occurs(text, 0, Amount(text))
  {
    var p := PrefixedMatches(text, 0);
    var m := Amount(text);
    if |p| > 0 {
      PrefixedMatchesCaptured(text, 0);
      assert CapturedAt(text, p[|p| - 1]);
      var j :| 0 <= j <= |text| && PrefixedAt(text, j).Some? && Captured(text, PrefixedAt(text, j).value) == m;
      MoneyAtShape(text, PrefixedAt(text, j).value.0);
    } else if m != "" {
      var b := BareMatches(text, 0);
      BareMatchesOccur(text, 0);
      assert Occurs(text, 0, b[|b| - 1]);
      var j :| 0 <= j <= |text| && MoneyAt(text, j).Some? && text[j..MoneyAt(text, j).value] == m;
      MoneyAtShape(text, j);
    }
  }

  /** A prefixed capture is at least four characters long. */
  lemma CapturedNonEmpty(s: string, j: nat)
    requires j <= |s| && PrefixedAt(s, j).Some?
    ensures |Captured(s, PrefixedAt(s, j).value)| >= 4
  {
  }

  lemma BareLastNonEmpty(s: string)
    requires BareMatches(s, 0) != []
    ensures BareMatches(s, 0)[|BareMatches(s, 0)| - 1] != ""
  {
    var b := BareMatches(s, 0);
    BareMatchesOccur(s, 0);
    assert Occurs(s, 0, b[|b| - 1]);
  }

  lemma PrefixedLastNonEmpty(s: string)
    requires PrefixedMatches(s, 0) != []
    ensures PrefixedMatches(s, 0)[|PrefixedMatches(s, 0)| - 1] != ""
  {
    var p := PrefixedMatches(s, 0);
    PrefixedMatchesCaptured(s, 0);
    assert CapturedAt(s, p[|p| - 1]);
    var i :| 0 <= i <= |s| && PrefixedAt(s, i).Some? && Captured(s, PrefixedAt(s, i).value) == p[|p| - 1];
    CapturedNonEmpty(s, i);
  }

  lemma AmountFound(text: string, j: nat)
    requires j <= |text| && MoneyAt(text, j).Some?
    ensures Amount(text) != ""
  {
    if PrefixedMatches(text, 0) == [] {
      BareMatchesFind(text, 0, j);
      BareLastNonEmpty(text);
    } else {
      PrefixedLastNonEmpty(text);
    }
  }

  /** The amount is empty exactly when the amount pattern occurs nowhere. */
  lemma AmountEmpty(text: string)
    ensures Amount(text) == "" <==> forall j :: 0 <= j <= |text| ==> MoneyAt(text, j).None?
  {
    if forall j :: 0 <= j <= |text| ==> MoneyAt(text, j).None? {
      PrefixedMatchesNone(text, 0);
      BareMatchesNone(text, 0);
    } else {
      var j :| 0 <= j <= |text| && MoneyAt(text, j).Some?;
      AmountFound(text, j);
    }
  }

  /** When some keyword-prefixed amount occurs, the result is a prefixed capture. */
  lemma AmountPrefersPrefixed(text: string, j: nat)
    requires j <= |text| && PrefixedAt(text, j).Some?
    ensures CapturedAt(text, Amount(text))
  {
    PrefixedMatchesFind(text, 0, j);
    var p := PrefixedMatches(text, 0);
    PrefixedMatchesCaptured(text, 0);
    assert CapturedAt(text, p[|p| - 1]);
  }

  lemma {:induction false} PrefixedMatchesFind(s: string, i: nat, j: nat)
    requires i <= j <= |s| && PrefixedAt(s, j).Some?
    ensures PrefixedMatches(s, i) != []
    decreases j - i
  {
    if PrefixedAt(s, i).Some? {
      PrefixedMatchesHead(s, i);
    } else {
      PrefixedMatchesFind(s, i + 1, j);
      PrefixedMatchesSkip(s, i);
    }
  }

  lemma PrefixedMatchesHead(s: string, i: nat)
    requires i <= |s| && PrefixedAt(s, i).Some?
    ensures PrefixedMatches(s, i) != []
  {
  }

  lemma PrefixedMatchesSkip(s: string, i: nat)
    requires i < |s| && PrefixedAt(s, i).None?
    ensures PrefixedMatches(s, i) == PrefixedMatches(s, i + 1)
  {
  }

  // ------------------------------------------------------------------ date

  predicate DigitAt(s: string, k: nat)
  {
    k < |s| && IsDigit(s[k])
  }

  /** End of a match of \d{2}/\d{2}/(?:\d{4}|\d{2}) at j: the four-digit year
      is tried first. */
  function DateAt(s: string, j: nat): (r: Option<nat>)
    ensures r.Some? ==> r.value <= |s| && (r.value == j + 8 || r.value == j + 10)
  {
    if j + 8 <= |s| && DigitAt(s, j) && DigitAt(s, j + 1) && s[j + 2] == '/' &&
       DigitAt(s, j + 3) && DigitAt(s, j + 4) && s[j + 5] == '/' && DigitAt(s, j + 6) && DigitAt(s, j + 7)
    then
      if DigitAt(s, j + 8) && DigitAt(s, j + 9) then Some(j + 10) else Some(j + 8)
    else None
  }

  /** Start of the first date match at or after i. */
  function FirstDateFrom(s: string, i: nat): (r: Option<nat>)
    requires i <= |s|
    ensures r.Some? ==> i <= r.value < |s| && DateAt(s, r.value).Some?
    ensures r.Some? ==> forall k :: i <= k < r.value ==> DateAt(s, k).None?
    ensures r.None? ==> forall k :: i <= k <= |s| ==> DateAt(s, k).None?
    decreases |s| - i
  {
    if i == |s| then None
    else if DateAt(s, i).Some? then Some(i)
    else FirstDateFrom(s, i + 1)
  }

  /** The text of a date match: DD/MM/YY or DD/MM/YYYY. */
  predicate DateText(raw: string)
  {
    (|raw| == 8 || |raw| == 10) && raw[2] == '/' && raw[5] == '/' &&
    forall k :: 0 <= k < |raw| && k != 2 && k != 5 ==> IsDigit(raw[k])
  }

  lemma DateAtText(s: string, j: nat)
    requires DateAt(s, j).Some?
    ensures DateText(s[j..DateAt(s, j).value])
  {
  }

  /** YYYY-MM-DD. */
  predicate IsoDateText(r: string)
  {
    |r| == 10 && r[4] == '-' && r[7] == '-' &&
    forall k :: 0 <= k < 10 && k != 4 && k != 7 ==> IsDigit(r[k])
  }

  /** DD/MM/YY becomes 20YY-MM-DD and DD/MM/YYYY becomes YYYY-MM-DD. */
  function IsoFromRaw(raw: string): (r: string)
    requires |raw| == 8 || |raw| == 10
    ensures |r| == 10 && r[8..] == raw[..2] && r[5..7] == raw[3..5]
    ensures |raw| == 8 ==> r[..4] == "20" + raw[6..]
    ensures |raw| == 10 ==> r[..4] == raw[6..]
  {
    if |raw| == 8 then "20" + raw[6..8] + "-" + raw[3..5] + "-" + raw[0..2]
    else raw[6..10] + "-" + raw[3..5] + "-" + raw[0..2]
  }

  /** A date match always converts to a well-formed year-month-day text. */
  lemma IsoFromRawShape(raw: string)
    requires DateText(raw)
    ensures IsoDateText(IsoFromRaw(raw))
  {
    var r := IsoFromRaw(raw);
    if |raw| == 8 {
      assert r == "20" + raw[6..8] + "-" + raw[3..5] + "-" + raw[0..2];
    } else {
      assert r == raw[6..10] + "-" + raw[3..5] + "-" + raw[0..2];
    }
  }

  /** The date of the first match, or today's date when there is none. */
  function ExtractDate(text: string, today: string): string
  {
    match FirstDateFrom(text, 0)
      case None => today
      case Some(j) => IsoFromRaw(text[j..DateAt(text, j).value])
  }

  /** A found date is a well-formed year-month-day text; otherwise the result
      is today's date. */
  lemma ExtractDateShape(text: string, today: string)
    ensures FirstDateFrom(text, 0).Some? ==> IsoDateText(ExtractDate(text, today))
    ensures FirstDateFrom(text, 0).None? ==> ExtractDate(text, today) == today
  {
    match FirstDateFrom(text, 0)
      case None =>
      case Some(j) =>
        DateAtText(text, j);
        IsoFromRawShape(text[j..DateAt(text, j).value]);
  }

  /** Text after the first date never changes the extracted date, as long as the
      first match could already see a possible four-digit year. */
  lemma ExtractDateIgnoresLaterText(text: string, more: string, today: string)
    requires FirstDateFrom(text, 0).Some? && FirstDateFrom(text, 0).value + 10 <= |text|
    ensures ExtractDate(text + more, today) == ExtractDate(text, today)
  {
    var j := FirstDateFrom(text, 0).value;
    var s := text + more;
    DateAtPrefix(text, more, j);
    forall k | 0 <= k < j ensures DateAt(s, k).None? {
      DateAtPrefix(text, more, k);
    }
    FirstDateAt(s, 0, j);
    assert s[j..DateAt(s, j).value] == text[j..DateAt(text, j).value];
  }

  /** A date match only looks at the ten characters from its start. */
  lemma DateAtPrefix(text: string, more: string, k: nat)
    requires k + 10 <= |text|
    ensures DateAt(text + more, k) == DateAt(text, k)
  {
    var s := text + more;
    assert forall i :: k <= i < k + 10 ==> s[i] == text[i];
  }

  lemma {:induction false} FirstDateAt(s: string, i: nat, j: nat)
    requires i <= j < |s| && DateAt(s, j).Some?
    requires forall k :: i <= k < j ==> DateAt(s, k).None?
    ensures FirstDateFrom(s, i) == Some(j)
    decreases j - i
  {
    if i < j {
      FirstDateAt(s, i + 1, j);
    }
  }

  // ----------------------------------------------------------- description

  function TrimAll(ls: seq<string>): (r: seq<string>)
    ensures |r| == |ls| && forall k :: 0 <= k < |ls| ==> r[k] == Trim(ls[k])
  {
    Map(ls, Trim)
  }

  predicate NonEmpty(l: string)
  {
    |l| > 0
  }

  /** text.split('\n').map(trim).filter(nonempty). */
  function Lines(text: string): seq<string>
  {
    Filter(TrimAll(Split(text, '\n')), NonEmpty)
  }

  /** /^\d+$/ */
  predicate OnlyDigits(l: string)
  {
    l != [] && AllDigits(l)
  }

  predicate Candidate(l: string)
  {
    |l| > 5 && !Contains(l, "R$") && !Contains(l, "/") && !OnlyDigits(l)
  }

  /** The line the description is taken from: the first candidate line, else
      the first line, else ''. */
  function DescriptionLine(text: string): string
  {
    FirstOr(Lines(text), Candidate)
  }

  /** The first line satisfying p, else the first line, else ''. */
  function FirstOr(lines: seq<string>, p: string -> bool): string
  {
    var c := Filter(lines, p);
    if |c| > 0 then c[0] else if |lines| > 0 then lines[0] else ""
  }

  lemma FirstOrSpec(lines: seq<string>, p: string -> bool)
    ensures (exists k :: 0 <= k < |lines| && p(lines[k])) ==>
      exists k :: 0 <= k < |lines| && p(lines[k]) &&
        (forall m :: 0 <= m < k ==> !p(lines[m])) && FirstOr(lines, p) == lines[k]
    ensures (forall k :: 0 <= k < |lines| ==> !p(lines[k])) ==>
      FirstOr(lines, p) == if |lines| > 0 then lines[0] else ""
  {
    if exists k :: 0 <= k < |lines| && p(lines[k]) {
      var i :| 0 <= i < |lines| && p(lines[i]);
      FilterHead(lines, p, i);
    } else {
      FilterNone(lines, p);
    }
  }

  /** The chosen line upper-cased and cut to 50 characters. */
  function Description(text: string): string
  {
    Take(Upper(DescriptionLine(text)), 50)
  }

  lemma UpperTake(l: string)
    ensures |Take(Upper(l), 50)| <= 50
    ensures Upper(Take(Upper(l), 50)) == Take(Upper(l), 50)
  {
    var d := Upper(l);
    var r := Take(d, 50);
    assert forall k :: 0 <= k < |r| ==> r[k] == d[k];
    assert forall k :: 0 <= k < |d| ==> UpperChar(d[k]) == d[k];
  }

  /** The description is upper case and at most 50 characters long. */
  lemma DescriptionBounds(text: string)
    ensures |Description(text)| <= 50
    ensures Upper(Description(text)) == Description(text)
  {
    UpperTake(DescriptionLine(text));
  }

  /** The description comes from the first candidate line when there is one;
      otherwise from the first non-empty line; otherwise it is ''. */
  lemma DescriptionChoice(text: string)
    ensures (exists k :: 0 <= k < |Lines(text)| && Candidate(Lines(text)[k])) ==>
      exists k :: 0 <= k < |Lines(text)| && Candidate(Lines(text)[k]) &&
        (forall m :: 0 <= m < k ==> !Candidate(Lines(text)[m])) &&
        DescriptionLine(text) == Lines(text)[k]
    ensures (forall k :: 0 <= k < |Lines(text)| ==> !Candidate(Lines(text)[k])) ==>
      DescriptionLine(text) == if |Lines(text)| > 0 then Lines(text)[0] else ""
  {
    FirstOrSpec(Lines(text), Candidate);
  }

  /** Every line considered is trimmed and non-empty. */
  lemma LinesAreTrimmed(text: string)
    ensures forall k :: 0 <= k < |Lines(text)| ==> Lines(text)[k] != "" && Lines(text)[k] in TrimAll(Split(text, '\n'))
  {
    FilterMembers(TrimAll(Split(text, '\n')), NonEmpty);
  }

  // ----------------------------------------------------------------- parse

  /** parseOCRText; `today` stands for new Date().toISOString()'s date part. */
  function ParseOcrText(text: string, today: string): (r: ExtractedData)
    ensures r.amount == Amount(text) && r.date == ExtractDate(text, today) && r.description == Description(text)
  {
    ExtractedData(Amount(text), ExtractDate(text, today), Description(text))
  }
}
