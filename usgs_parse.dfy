/** The cell-level normalisers of the Mineral Commodity Summaries client:
    header normalisation and the year and value parsers. */
module UsgsParse {
  import opened Strings
  import opened Seqs
  import opened Tables

  /** What one character of a stripped header becomes: lower-cased, with spaces
      and hyphens turned into underscores. */
  function ColChar(c: char): (r: char)
    ensures r != ' ' && r != '-' && !IsUpper(r)
    ensures IsSpace(r) ==> IsSpace(c)
  {
    if c == ' ' || c == '-' then '_' else LowerChar(c)
  }

  /** `_normalize_col`: strip, lowercase, then spaces and hyphens become underscores. */
  function NormalizeCol(col: string): (r: string)
    ensures NoUpper(r) && Stripped(r)
    ensures ' ' !in r && '-' !in r
    ensures |r| == |Strip(col)|
    ensures forall i :: 0 <= i < |r| ==> r[i] == ColChar(Strip(col)[i])
  {
    var t := Strip(col);
    ColChars(t);
    ReplaceChar(ReplaceChar(Lower(t), ' ', '_'), '-', '_')
  }

  /** The replacements map each character by `ColChar`; a stripped header stays
      stripped. */
  lemma ColChars(t: string)
    ensures var r := ReplaceChar(ReplaceChar(Lower(t), ' ', '_'), '-', '_');
            |r| == |t| && (forall i :: 0 <= i < |r| ==> r[i] == ColChar(t[i]))
            && NoUpper(r) && ' ' !in r && '-' !in r
            && (Stripped(t) ==> Stripped(r))
  {
    var r := ReplaceChar(ReplaceChar(Lower(t), ' ', '_'), '-', '_');
    forall i | 0 <= i < |r| ensures r[i] == ColChar(t[i]) {
      ColSteps(t[i]);
    }
  }

  /** The two replacements after lowercasing, on one character. */
  lemma ColSteps(c: char)
    ensures var l := LowerChar(c);
            var a := if l == ' ' then '_' else l;
            (if a == '-' then '_' else a) == ColChar(c)
  {
  }

  lemma ReplaceCharAbsent(s: string, a: char, b: char)
    requires a !in s
    ensures ReplaceChar(s, a, b) == s
  {
  }

  /** Normalising a normalised header changes nothing. */
  lemma NormalizeColIdempotent(col: string)
    ensures NormalizeCol(NormalizeCol(col)) == NormalizeCol(col)
  {
    var n := NormalizeCol(col);
    StripNoop(n);
    LowerNoop(n);
    ReplaceCharAbsent(n, ' ', '_');
    ReplaceCharAbsent(n, '-', '_');
  }

  function DigitValue(c: char): nat
    requires IsDigit(c)
  {
    c as int - '0' as int
  }

  predicate AllDigits(s: string) {
    forall i :: 0 <= i < |s| ==> IsDigit(s[i])
  }

  /** The number a run of decimal digits spells. */
  function DigitsValue(s: string): nat
    requires AllDigits(s)
  {
    if s == [] then 0 else DigitsValue(s[..|s| - 1]) * 10 + DigitValue(s[|s| - 1])
  }

  predicate FourDigitsAt(s: string, i: int) {
    0 <= i && i + 4 <= |s| && AllDigits(s[i..i + 4])
  }

  function YearFrom(s: string, from: nat): (r: Option<int>)
    requires from <= |s|
    ensures r.None? <==> forall i :: from <= i <= |s| ==> !FourDigitsAt(s, i)
    ensures r.Some? ==> exists i :: from <= i <= |s| && FourDigitsAt(s, i)
                          && (forall j :: from <= j < i ==> !FourDigitsAt(s, j))
                          && r.value == DigitsValue(s[i..i + 4])
    decreases |s| - from
  {
    if from + 4 > |s| then None
    else if AllDigits(s[from..from + 4]) then
      assert FourDigitsAt(s, from);
      Some(DigitsValue(s[from..from + 4]))
    else
      assert !FourDigitsAt(s, from);
      YearFrom(s, from + 1)
  }

  /** `_parse_year` on one cell: the first run of four digits, read as a number
      ("2021–24" gives 2021); None when the text has no such run. */
  function ParseYear(s: string): (r: Option<int>)
    ensures r.None? <==> forall i :: 0 <= i <= |s| ==> !FourDigitsAt(s, i)
    ensures r.Some? ==> 0 <= r.value <= 9999
    ensures r.Some? ==> exists i :: 0 <= i <= |s| && FourDigitsAt(s, i)
                          && (forall j :: 0 <= j < i ==> !FourDigitsAt(s, j))
                          && r.value == DigitsValue(s[i..i + 4])
  {
    var r := YearFrom(s, 0);
    if r.Some? then
      var i :| 0 <= i <= |s| && FourDigitsAt(s, i)
               && (forall j :: 0 <= j < i ==> !FourDigitsAt(s, j))
               && r.value == DigitsValue(s[i..i + 4]);
      FourDigitsBound(s[i..i + 4]);
      r
    else r
  }

  lemma FourDigitsBound(s: string)
    requires |s| == 4 && AllDigits(s)
    ensures DigitsValue(s) <= 9999
  {
    DigitsBound(s);
    assert Pow10(4) == 10000;
  }

  lemma {:induction false} DigitsBound(s: string)
    requires AllDigits(s)
    ensures DigitsValue(s) < Pow10(|s|)
  {
    if s != [] {
      DigitsBound(s[..|s| - 1]);
    }
  }

  /** `_parse_year` applied to a cell after `astype(str)`. */
  function ParseYearCell(c: Cell): Option<int> {
    ParseYear(CellText(c))
  }

  /** The characters `[^0-9.\\-]` does not remove: digits, the dot, the minus sign
      and, because the raw pattern doubles its escape, the backslash too. */
  predicate KeptChar(c: char) {
    IsDigit(c) || c == '.' || c == '-' || c == '\\'
  }

  /** The first four cleaning steps of `_parse_value`, in its order: drop commas,
      em dashes, runs of two dots and ellipses. */
  function Unmarked(s: string): string {
    Remove(Remove(Remove(Remove(s, ","), "\U{2014}"), ".."), "\U{2026}")
  }

  /** The cleaning chain of `_parse_value`: the markers, then every character
      outside the kept class. */
  function CleanValue(s: string): (r: string)
    ensures forall i :: 0 <= i < |r| ==> KeptChar(r[i])
    ensures Filter(r, KeptNonDot) == Filter(s, KeptNonDot)
  {
    var u := Unmarked(s);
    UnmarkedKeeps(s);
    FilterFilter(u, KeptChar, KeptNonDot);
    Filter(u, KeptChar)
  }

  /** The kept characters other than the dot, which no marker contains. */
  predicate KeptNonDot(c: char) {
    KeptChar(c) && c != '.'
  }

  /** Dropping the markers keeps every digit, minus sign and backslash, in order. */
  lemma UnmarkedKeeps(s: string)
    ensures Filter(Unmarked(s), KeptNonDot) == Filter(s, KeptNonDot)
  {
    var a := Remove(s, ",");
    var b := Remove(a, "\U{2014}");
    var c := Remove(b, "..");
    RemoveKeeps(s, ",", KeptNonDot);
    RemoveKeeps(a, "\U{2014}", KeptNonDot);
    RemoveKeeps(b, "..", KeptNonDot);
    RemoveKeeps(c, "\U{2026}", KeptNonDot);
  }

  function Pow10(k: nat): (r: nat)
    ensures r >= 1
  {
    if k == 0 then 1 else 10 * Pow10(k - 1)
  }

  /** Python's float syntax restricted to the kept characters: digits with at most
      one dot and at least one digit. */
  function ParseUnsigned(t: string): Option<real> {
    if '.' in t then
      var i := IndexOf(t, '.');
      var whole, frac := t[..i], t[i + 1..];
      if AllDigits(whole) && AllDigits(frac) && |whole| + |frac| > 0 then
        Some(DigitsValue(whole) as real + DigitsValue(frac) as real / Pow10(|frac|) as real)
      else None
    else if |t| > 0 && AllDigits(t) then Some(DigitsValue(t) as real)
    else None
  }

  /** `pd.to_numeric(.., errors="coerce")` on a cleaned string: a leading minus,
      then an unsigned number; anything else (empty, a lone dot or minus, a second
      dot, an inner minus, a backslash) is unparseable. */
  function ParseNumber(t: string): Option<real> {
    if |t| > 0 && t[0] == '-' then
      match ParseUnsigned(t[1..])
      case Some(x) => Some(-x)
      case None => None
    else ParseUnsigned(t)
  }

  /** `_parse_value` on one cell after `astype(str)`. */
  function ParseValue(s: string): Option<real> {
    ParseNumber(CleanValue(s))
  }

  function ParseValueCell(c: Cell): Option<real> {
    ParseValue(CellText(c))
  }

  /** The decimal spelling of a natural number, as Python's `str(n)` writes it. */
  function NatText(n: nat): (r: string)
    ensures |r| > 0 && AllDigits(r)
  {
    if n < 10 then ['0' + n as char]
    else NatText(n / 10) + ['0' + (n % 10) as char]
  }

  lemma {:induction false} NatTextValue(n: nat)
    ensures DigitsValue(NatText(n)) == n
  {
    if n >= 10 {
      var t := NatText(n);
      assert t[..|t| - 1] == NatText(n / 10);
      NatTextValue(n / 10);
    }
  }

  /** Parsing a number's own decimal spelling gives the number back. */
  lemma NumberRoundTrip(n: nat)
    ensures ParseNumber(NatText(n)) == Some(n as real)
    ensures ParseNumber(['-'] + NatText(n)) == Some(-(n as real))
  {
    var t := NatText(n);
    NatTextValue(n);
    assert forall i :: 0 <= i < |t| ==> t[i] != '.';
    assert (['-'] + t)[1..] == t;
  }

  /** A plain numeral needs no cleaning: `_parse_value` reads it back exactly. */
  lemma ParseValueOfNumeral(n: nat)
    ensures ParseValue(NatText(n)) == Some(n as real)
  {
    var t := NatText(n);
    NoMarkers(t);
    FilterAllKept(t);
    NumberRoundTrip(n);
  }

  /** Removing a pattern that never occurs changes nothing. */
  lemma {:induction false} RemoveAbsent(s: string, pat: string)
    requires |pat| > 0 && !Contains(s, pat)
    ensures Remove(s, pat) == s
    decreases |s|
  {
    if |s| >= |pat| {
      assert !OccursAt(s, pat, 0);
      assert s[0..|pat|] == s[..|pat|];
      forall i | 0 <= i <= |s[1..]| ensures !OccursAt(s[1..], pat, i) {
        if OccursAt(s[1..], pat, i) {
          assert s[1..][i..i + |pat|] == s[i + 1..i + 1 + |pat|];
          assert OccursAt(s, pat, i + 1);
        }
      }
      RemoveAbsent(s[1..], pat);
    }
  }

  /** A pattern whose first character is absent does not occur. */
  lemma FirstCharAbsent(s: string, pat: string)
    requires |pat| > 0 && pat[0] !in s
    ensures !Contains(s, pat)
  {
    forall i | 0 <= i <= |s| ensures !OccursAt(s, pat, i) {
    }
  }

  lemma NoMarkers(t: string)
    requires AllDigits(t)
    ensures Unmarked(t) == t
  {
    FirstCharAbsent(t, ",");
    FirstCharAbsent(t, "\U{2014}");
    FirstCharAbsent(t, "..");
    FirstCharAbsent(t, "\U{2026}");
    RemoveAbsent(t, ",");
    RemoveAbsent(t, "\U{2014}");
    RemoveAbsent(t, "..");
    RemoveAbsent(t, "\U{2026}");
  }

  lemma FilterAllKept(t: string)
    requires forall i :: 0 <= i < |t| ==> KeptChar(t[i])
    ensures Filter(t, KeptChar) == t
  {
    forall x | x in t ensures KeptChar(x) {
      var i :| 0 <= i < |t| && t[i] == x;
    }
    FilterAll(t, KeptChar);
  }

  lemma CommaDropped()
    ensures Remove("1,234.5", ",") == "1234.5"
  {
    assert "1,234.5"[..1] == "1" && "1,234.5"[1..] == ",234.5";
    CommaDroppedTail();
  }

  lemma CommaDroppedTail()
    ensures Remove(",234.5", ",") == "234.5"
  {
    FirstCharAbsent("234.5", ",");
    RemoveAbsent("234.5", ",");
    assert ",234.5"[..1] == "," && ",234.5"[1..] == "234.5";
  }

  lemma NoDoubleDot()
    ensures !Contains("1234.5", "..")
  {
    var t := "1234.5";
    forall i | 0 <= i <= 6 ensures !OccursAt(t, "..", i) {
      if i + 2 <= 6 {
        assert t[i..i + 2][0] == t[i] && t[i..i + 2][1] == t[i + 1];
        assert t[i] != '.' || t[i + 1] != '.';
      }
    }
  }

  /** Digits and dots only. */
  predicate DecimalChars(t: string) {
    forall i :: 0 <= i < |t| ==> IsDigit(t[i]) || t[i] == '.'
  }

  /** A string of digits and single dots has no marker to remove. */
  lemma MarkerFree(t: string)
    requires DecimalChars(t) && !Contains(t, "..")
    ensures Unmarked(t) == t
  {
    FirstCharAbsent(t, ",");
    RemoveAbsent(t, ",");
    FirstCharAbsent(t, "\U{2014}");
    RemoveAbsent(t, "\U{2014}");
    RemoveAbsent(t, "..");
    FirstCharAbsent(t, "\U{2026}");
    RemoveAbsent(t, "\U{2026}");
  }

  lemma CleanThousands()
    ensures CleanValue("1,234.5") == "1234.5"
  {
    var t := "1234.5";
    CommaDropped();
    assert DecimalChars(t);
    NoDoubleDot();
    MarkerFree(t);
    assert Unmarked("1,234.5") == Unmarked(t) == t;
    FilterAllKept(t);
  }

  lemma DecimalRead()
    ensures ParseNumber("1234.5") == Some(1234.5)
  {
    var t := "1234.5";
    assert t[0] != '-';
    assert IndexOf(t, '.') == 4;
    assert t[..4] == "1234" && t[5..] == "5";
    DigitsExample();
    assert DigitsValue("5") == 5;
  }

  lemma DigitsExample()
    ensures DigitsValue("1234") == 1234
  {
    assert "12"[..1] == "1" && "123"[..2] == "12" && "1234"[..3] == "123";
  }

  /** Thousands separators are dropped before parsing: "1,234.5" reads as 1234.5. */
  lemma ThousandsSeparator()
    ensures ParseValue("1,234.5") == Some(1234.5)
  {
    CleanThousands();
    DecimalRead();
  }

  /** A cell with no digit in it carries no number, whatever else it holds. */
  lemma NoDigitNoValue(s: string)
    requires forall i :: 0 <= i < |s| ==> !IsDigit(s[i])
    ensures ParseValue(s) == None
  {
    var t := CleanValue(s);
    assert forall i :: 0 <= i < |t| ==> !IsDigit(t[i]) by {
      forall i | 0 <= i < |t| ensures !IsDigit(t[i]) {
        assert t[i] in t;
      }
    }
    var u := if |t| > 0 && t[0] == '-' then t[1..] else t;
    assert forall i :: 0 <= i < |u| ==> !IsDigit(u[i]);
    NoDigitUnsigned(u);
  }

  lemma NoDigitUnsigned(u: string)
    requires forall i :: 0 <= i < |u| ==> !IsDigit(u[i])
    ensures ParseUnsigned(u) == None
  {
    if '.' in u {
      var i := IndexOf(u, '.');
      assert !(AllDigits(u[..i]) && |u[..i]| > 0) by {
        if |u[..i]| > 0 { assert u[..i][0] == u[0]; }
      }
      assert !(AllDigits(u[i + 1..]) && |u[i + 1..]| > 0) by {
        if |u[i + 1..]| > 0 { assert u[i + 1..][0] == u[i + 1]; }
      }
    } else {
      assert !(|u| > 0 && AllDigits(u)) by {
        if |u| > 0 { assert !IsDigit(u[0]); }
      }
    }
    assert ParseUnsigned(u) == None;
  }

  /** Placeholders carry no number: an em dash or an ellipsis is unparseable. */
  lemma PlaceholdersUnparseable()
    ensures ParseValue("\U{2014}") == None
    ensures ParseValue("\U{2026}") == None
    ensures ParseValue("nan") == None
  {
    NoDigitNoValue("\U{2014}");
    NoDigitNoValue("\U{2026}");
    NoDigitNoValue("nan");
  }
}
