/**
 * The string operations of Python's `str` and JavaScript's `String` that the
 * statement pipeline relies on: prefix tests, substring search, `split`,
 * `strip`, `replace`, `lower`, and conversion of a decimal numeral to a number.
 */
module Text {
  import opened Wrappers

  /** Python's `str.isspace`, restricted to the ASCII and Latin-1 range. */
  predicate IsSpace(c: char) {
    c == ' ' || ('\t' <= c <= '\r') || (28 <= c as int <= 31) || c as int == 0x85 || c as int == 0xA0
  }

  /** No whitespace at either end. */
  predicate Unpadded(s: string) {
    s == [] || (!IsSpace(s[0]) && !IsSpace(s[|s| - 1]))
  }

  /** Python's `str.startswith`. */
  predicate StartsWith(s: string, prefix: string) {
    |prefix| <= |s| && s[..|prefix|] == prefix
  }

  /** `sep` occurs in `s` starting at index `i`. */
  predicate OccursAt(s: string, sep: string, i: int) {
    0 <= i && i + |sep| <= |s| && s[i..i + |sep|] == sep
  }

  lemma OccursShift(s: string, sep: string)
    requires |s| > 0
    ensures forall j :: 1 <= j ==> (OccursAt(s[1..], sep, j - 1) <==> OccursAt(s, sep, j))
  {
    forall j | 1 <= j
      ensures OccursAt(s[1..], sep, j - 1) <==> OccursAt(s, sep, j)
    {
      if j - 1 + |sep| <= |s| - 1 {
        assert s[1..][j - 1..j - 1 + |sep|] == s[j..j + |sep|];
      }
    }
  }

  /** The index of the leftmost occurrence of `sep` in `s` (Python's `str.find`, with -1 as None). */
  function IndexOf(s: string, sep: string): (r: Option<nat>)
    ensures r.Some? ==> OccursAt(s, sep, r.value)
    ensures r.Some? ==> forall j :: 0 <= j < r.value ==> !OccursAt(s, sep, j)
    ensures r.None? ==> forall j :: !OccursAt(s, sep, j)
    decreases |s|
  {
    if |s| < |sep| then None
    else if s[..|sep|] == sep then Some(0)
    else
      assert !OccursAt(s, sep, 0) by { assert s[0..|sep|] == s[..|sep|]; }
      OccursShift(s, sep);
      match IndexOf(s[1..], sep)
      case None => None
      case Some(k) =>
        assert OccursAt(s[1..], sep, (k + 1) - 1);
        Some(k + 1)
  }

  /** Python's `sep in s`. */
  predicate Contains(s: string, sep: string) {
    IndexOf(s, sep).Some?
  }

  lemma ContainsAt(s: string, sep: string, i: int)
    requires OccursAt(s, sep, i)
    ensures Contains(s, sep)
  {
  }

  /** Python's `sep.join(parts)`. */
  function Join(parts: seq<string>, sep: string): string
    requires |parts| >= 1
  {
    if |parts| == 1 then parts[0] else parts[0] + sep + Join(parts[1..], sep)
  }

  /** No occurrence of `sep` before index `i` means none lies wholly inside `s[..i]`. */
  lemma NoneBefore(s: string, sep: string, i: nat)
    requires i <= |s|
    requires forall j :: 0 <= j < i ==> !OccursAt(s, sep, j)
    requires |sep| > 0
    ensures !Contains(s[..i], sep)
  {
    if Contains(s[..i], sep) {
      var j := IndexOf(s[..i], sep).value;
      assert s[..i][j..j + |sep|] == s[j..j + |sep|];
      assert OccursAt(s, sep, j);
      assert false;
    }
  }

  /** Python's `s.split(sep)`: the pieces between non-overlapping occurrences, scanned from the left. */
  function Split(s: string, sep: string): (r: seq<string>)
    requires |sep| > 0
    ensures |r| >= 1
    ensures forall k :: 0 <= k < |r| ==> !Contains(r[k], sep)
    ensures Join(r, sep) == s
    ensures |r| >= 2 <==> Contains(s, sep)
    ensures |r| >= 2 ==> r[0] == SplitOnce(s, sep)[0] && r[1..] == Split(SplitOnce(s, sep)[1], sep)
    decreases |s|
  {
    match IndexOf(s, sep)
    case None =>
      NoneBefore(s, sep, |s|);
      assert s[..|s|] == s;
      [s]
    case Some(i) =>
      NoneBefore(s, sep, i);
      var rest := Split(s[i + |sep|..], sep);
      var r := [s[..i]] + rest;
      assert r[1..] == rest;
      assert s[..i] + sep + s[i + |sep|..] == s by {
        assert s[i..i + |sep|] == sep;
        assert s == s[..i] + s[i..i + |sep|] + s[i + |sep|..];
      }
      r
  }

  /** A line that starts with `sep` splits into an empty first piece and at least one more. */
  lemma SplitAtStart(s: string, sep: string)
    requires |sep| > 0 && StartsWith(s, sep)
    ensures |Split(s, sep)| >= 2 && Split(s, sep)[0] == ""
    ensures Split(s, sep)[1..] == Split(s[|sep|..], sep)
  {
    assert OccursAt(s, sep, 0);
    assert IndexOf(s, sep) == Some(0);
  }

  /** A string without `sep` splits into itself alone, and only such a string does. */
  lemma SplitSingle(s: string, sep: string)
    requires |sep| > 0
    ensures |Split(s, sep)| == 1 <==> !Contains(s, sep)
    ensures !Contains(s, sep) ==> Split(s, sep) == [s]
  {
  }

  /** Python's `s.split(sep, 1)`: split at the leftmost occurrence only. */
  function SplitOnce(s: string, sep: string): (r: seq<string>)
    requires |sep| > 0
    ensures 1 <= |r| <= 2
    ensures |r| == 2 <==> Contains(s, sep)
    ensures !Contains(r[0], sep)
    ensures Join(r, sep) == s
  {
    match IndexOf(s, sep)
    case None =>
      NoneBefore(s, sep, |s|);
      assert s[..|s|] == s;
      [s]
    case Some(i) =>
      NoneBefore(s, sep, i);
      assert s[..i] + sep + s[i + |sep|..] == s by {
        assert s[i..i + |sep|] == sep;
        assert s == s[..i] + s[i..i + |sep|] + s[i + |sep|..];
      }
      [s[..i], s[i + |sep|..]]
  }

  /** Splitting `a + sep + b` once gives `a` and `b` when `sep` first occurs right after `a`. */
  lemma SplitOnceAt(a: string, sep: string, b: string)
    requires |sep| > 0
    requires !Contains(a + sep[..|sep| - 1], sep)
    ensures SplitOnce(a + sep + b, sep) == [a, b]
  {
    var s := a + sep + b;
    var i := |a|;
    assert s[..i] == a && s[i..i + |sep|] == sep && s[i + |sep|..] == b;
    var h := a + sep[..|sep| - 1];
    forall j | 0 <= j < i ensures !OccursAt(s, sep, j) {
      if OccursAt(s, sep, j) {
        assert s[j..j + |sep|] == h[j..j + |sep|];
        assert OccursAt(h, sep, j);
        ContainsAt(h, sep, j);
      }
    }
    IndexOfFirst(s, sep, i);
  }

  /** Trimming adds no character. */
  lemma TrimOmits(s: string, c: char)
    requires c !in s
    ensures c !in Trim(s)
  {
    var r := Trim(s);
    var i := TextStart(s, 0);
    forall k | 0 <= k < |r| ensures r[k] != c {
      assert r[k] == s[i + k];
    }
  }

  /** A string without a space contains no `" "`. */
  lemma NoSpace(s: string)
    requires ' ' !in s
    ensures !Contains(s, " ")
  {
    if Contains(s, " ") {
      OccursChar(s, ' ', IndexOf(s, " ").value);
      assert false;
    }
  }

  /** A one-character separator occurs exactly where that character is. */
  lemma OccursChar(s: string, c: char, j: int)
    requires OccursAt(s, [c], j)
    ensures s[j] == c && c in s
  {
    assert s[j..j + 1][0] == s[j];
  }

  /** `s.split(sep)` has exactly two pieces when `sep` occurs, and not again after its first occurrence. */
  lemma SplitPair(s: string, sep: string)
    requires |sep| > 0
    ensures |Split(s, sep)| == 2 <==> Contains(s, sep) && !Contains(SplitOnce(s, sep)[1], sep)
    ensures |Split(s, sep)| == 2 ==> Split(s, sep) == SplitOnce(s, sep)
  {
    if Contains(s, sep) {
      var i := IndexOf(s, sep).value;
      SplitSingle(s[i + |sep|..], sep);
    }
  }

  /** The index of the first non-whitespace character at or after `i`, or `|s|`. */
  function TextStart(s: string, i: nat): (j: nat)
    requires i <= |s|
    ensures i <= j <= |s|
    ensures forall k :: i <= k < j ==> IsSpace(s[k])
    ensures j == |s| || !IsSpace(s[j])
    decreases |s| - i
  {
    if i < |s| && IsSpace(s[i]) then TextStart(s, i + 1) else i
  }

  /** The index just past the last non-whitespace character of `s[lo..n]`, or `lo`. */
  function TextEnd(s: string, lo: nat, n: nat): (j: nat)
    requires lo <= n <= |s|
    ensures lo <= j <= n
    ensures forall k :: j <= k < n ==> IsSpace(s[k])
    ensures j == lo || !IsSpace(s[j - 1])
    decreases n
  {
    if n > lo && IsSpace(s[n - 1]) then TextEnd(s, lo, n - 1) else n
  }

  /**
   * Python's `s.strip()`: the infix of `s` left once leading and trailing
   * whitespace is removed, and `s` itself when it has none at either end.
   */
  function Trim(s: string): (r: string)
    ensures r == [] || (!IsSpace(r[0]) && !IsSpace(r[|r| - 1]))
    ensures var i := TextStart(s, 0);
      i + |r| <= |s| && r == s[i..i + |r|] &&
      (forall k :: 0 <= k < i ==> IsSpace(s[k])) &&
      (forall k :: i + |r| <= k < |s| ==> IsSpace(s[k]))
    ensures (s == [] || (!IsSpace(s[0]) && !IsSpace(s[|s| - 1]))) ==> r == s
  {
    var i := TextStart(s, 0);
    var j := TextEnd(s, i, |s|);
    assert s[i..j] == s[i..i + |s[i..j]|];
    s[i..j]
  }

  /** Every character of the trimmed string comes from the original. */
  lemma TrimChars(s: string)
    ensures forall c :: c in Trim(s) ==> c in s
  {
    var r := Trim(s);
    var i := TextStart(s, 0);
    forall c | c in r ensures c in s {
      var k :| 0 <= k < |r| && r[k] == c;
      assert s[i + k] == c;
    }
  }

  /** Python's `s.replace(c, "")` and JavaScript's `s.replace(/c/g, "")`: every `c` removed. */
  function RemoveAll(s: string, c: char): (r: string)
    ensures forall x :: x in r <==> x in s && x != c
    ensures c !in s ==> r == s
  {
    if s == [] then []
    else
      var rest := RemoveAll(s[1..], c);
      assert s == [s[0]] + s[1..];
      (if s[0] == c then [] else [s[0]]) + rest
  }

  /** Removal works piece by piece: the kept characters stay in their order. */
  lemma {:induction false} RemoveAllAppend(a: string, b: string, c: char)
    ensures RemoveAll(a + b, c) == RemoveAll(a, c) + RemoveAll(b, c)
    decreases |a|
  {
    if a == [] {
      assert a + b == b;
    } else {
      assert (a + b)[0] == a[0] && (a + b)[1..] == a[1..] + b;
      RemoveAllAppend(a[1..], b, c);
    }
  }

  /** A single character is dropped when it is `c` and kept otherwise. */
  lemma RemoveAllChar(x: char, c: char)
    ensures RemoveAll([x], c) == if x == c then [] else [x]
  {
    assert [x][1..] == [];
  }

  /** Removing one more `c` between two pieces changes nothing. */
  lemma DropOne(a: string, b: string, c: char)
    ensures RemoveAll(a + [c] + b, c) == RemoveAll(a + b, c)
  {
    RemoveAllAppend(a + [c], b, c);
    RemoveAllAppend(a, [c], c);
    RemoveAllChar(c, c);
    RemoveAllAppend(a, b, c);
  }

  /** One `c` between two pieces without it is dropped, and the pieces are joined in order. */
  lemma DropAt(a: string, b: string, c: char)
    requires c !in a && c !in b
    ensures RemoveAll(a + [c] + b, c) == a + b
  {
    RemoveAllAppend(a + [c], b, c);
    RemoveAllAppend(a, [c], c);
    RemoveAllChar(c, c);
  }

  /** Python's `s.replace(a, b)` for single characters. */
  function ReplaceChar(s: string, a: char, b: char): (r: string)
    ensures |r| == |s|
    ensures forall k :: 0 <= k < |s| ==> r[k] == (if s[k] == a then b else s[k])
    ensures a != b ==> a !in r
  {
    if s == [] then [] else [if s[0] == a then b else s[0]] + ReplaceChar(s[1..], a, b)
  }

  function LowerChar(c: char): char {
    if 'A' <= c <= 'Z' then (c as int + 32) as char else c
  }

  /** Python's `s.lower()` on the ASCII letters. */
  function ToLower(s: string): (r: string)
    ensures |r| == |s|
    ensures forall k :: 0 <= k < |s| ==> r[k] == LowerChar(s[k])
  {
    if s == [] then [] else [LowerChar(s[0])] + ToLower(s[1..])
  }

  predicate IsDigit(c: char) {
    '0' <= c <= '9'
  }

  predicate AllDigits(s: string) {
    forall k :: 0 <= k < |s| ==> IsDigit(s[k])
  }

  /** The value of a run of decimal digits, most significant first. */
  function Natural(s: string): nat
    requires AllDigits(s)
  {
    if s == [] then 0 else 10 * Natural(s[..|s| - 1]) + (s[|s| - 1] as int - '0' as int)
  }

  function Pow10(n: nat): (r: nat)
    ensures r >= 1
  {
    if n == 0 then 1 else 10 * Pow10(n - 1)
  }

  /**
   * A plain decimal numeral: at least one digit, nothing but digits and at
   * most one decimal point.
   */
  predicate IsNumeral(s: string) {
    && (forall k :: 0 <= k < |s| ==> IsDigit(s[k]) || s[k] == '.')
    && (exists k :: 0 <= k < |s| && IsDigit(s[k]))
    && (forall i, j :: 0 <= i < j < |s| && s[i] == '.' ==> s[j] != '.')
  }

  lemma DotAt(s: string, k: int)
    ensures OccursAt(s, ".", k) <==> 0 <= k < |s| && s[k] == '.'
  {
    if 0 <= k < |s| {
      assert s[k..k + 1] == [s[k]];
    }
  }

  /**
   * The number a decimal numeral denotes (Python's `float`, JavaScript's
   * `parseFloat`), or None where `float` raises ValueError and `parseFloat`
   * gives NaN. Digits after the point are exact: `"7233.00"` is 7233.
   */
  function ParseDecimal(s: string): (r: Option<real>)
    ensures r.Some? <==> IsNumeral(s)
    ensures r.Some? ==> r.value >= 0.0
  {
    match IndexOf(s, ".")
    case None =>
      assert forall k :: 0 <= k < |s| ==> s[k] != '.' by {
        forall k | 0 <= k < |s| ensures s[k] != '.' { DotAt(s, k); }
      }
      if s != [] && AllDigits(s) then
        assert IsDigit(s[0]);
        Some(Natural(s) as real)
      else
        None
    case Some(i) =>
      DotAt(s, i);
      var whole, frac := s[..i], s[i + 1..];
      assert forall k :: 0 <= k < i ==> s[k] != '.' by {
        forall k | 0 <= k < i ensures s[k] != '.' { DotAt(s, k); }
      }
      assert forall k :: 0 <= k < |s| && k != i ==> (k < i && s[k] == whole[k]) || (k > i && s[k] == frac[k - i - 1]);
      if AllDigits(whole) && AllDigits(frac) && |whole| + |frac| > 0 then
        assert |whole| > 0 ==> IsDigit(s[0]);
        assert |frac| > 0 ==> IsDigit(s[i + 1]);
        Some(PointValue(whole, frac))
      else
        None
  }

  /** The value of the digits `whole` before a point and `frac` after it. */
  function PointValue(whole: string, frac: string): real
    requires AllDigits(whole) && AllDigits(frac)
  {
    Natural(whole) as real + Natural(frac) as real / Pow10(|frac|) as real
  }

  /** The first occurrence is the one `IndexOf` finds. */
  lemma IndexOfFirst(s: string, sep: string, i: nat)
    requires OccursAt(s, sep, i)
    requires forall j :: 0 <= j < i ==> !OccursAt(s, sep, j)
    ensures IndexOf(s, sep) == Some(i)
  {
    match IndexOf(s, sep)
    case None =>
    case Some(m) =>
  }

  /** A run of digits without a point denotes its whole number. */
  lemma WholeNumeral(s: string)
    requires s != [] && AllDigits(s)
    ensures ParseDecimal(s) == Some(Natural(s) as real)
  {
    match IndexOf(s, ".")
    case None =>
    case Some(i) =>
      DotAt(s, i);
      assert false;
  }

  /** The fraction counts: digits after the first point add their value over the matching power of ten. */
  lemma PointNumeral(s: string, i: nat)
    requires i < |s| && s[i] == '.' && |s| > 1
    requires forall j :: 0 <= j < i ==> s[j] != '.'
    requires AllDigits(s[..i]) && AllDigits(s[i + 1..])
    ensures ParseDecimal(s) == Some(PointValue(s[..i], s[i + 1..]))
  {
    DotAt(s, i);
    forall j | 0 <= j < i ensures !OccursAt(s, ".", j) {
      DotAt(s, j);
    }
    IndexOfFirst(s, ".", i);
  }

  /** The value of one decimal digit. */
  function DigitValue(c: char): int {
    c as int - '0' as int
  }

  /** The number four decimal digits denote, most significant first. */
  function FourDigits(a: char, b: char, c: char, d: char): int {
    1000 * DigitValue(a) + 100 * DigitValue(b) + 10 * DigitValue(c) + DigitValue(d)
  }

  /** Four digits denote their weighted sum. */
  lemma Natural4(s: string)
    requires |s| == 4 && AllDigits(s)
    ensures Natural(s) == 1000 * DigitValue(s[0]) + 100 * DigitValue(s[1]) + 10 * DigitValue(s[2]) + DigitValue(s[3])
  {
    assert s[..3][..2] == s[..2] && s[..2][..1] == s[..1] && s[..1][..0] == [];
    assert Natural(s[..1]) == DigitValue(s[0]);
    assert Natural(s[..2]) == 10 * DigitValue(s[0]) + DigitValue(s[1]);
    assert Natural(s[..3]) == 100 * DigitValue(s[0]) + 10 * DigitValue(s[1]) + DigitValue(s[2]);
  }

  /** Four digits, a point and two zeros, as the statement prints whole amounts: the value of the four digits. */
  lemma WholeCents(s: string)
    requires |s| == 7 && AllDigits(s[..4]) && s[4] == '.' && s[5] == '0' && s[6] == '0'
    ensures ParseDecimal(s) == Some(FourDigits(s[0], s[1], s[2], s[3]) as real)
  {
    var whole, frac := s[..4], s[5..];
    FracDigits(frac);
    forall j | 0 <= j < 4 ensures s[j] != '.' {
      assert IsDigit(whole[j]);
    }
    Natural4(whole);
    PointNumeral(s, 4);
  }

  lemma FracDigits(s: string)
    requires |s| == 2 && s[0] == '0' && s[1] == '0'
    ensures AllDigits(s) && Natural(s) == 0
  {
    assert s[..1][..0] == [];
    assert Natural(s[..1]) == 0;
  }

  /** The shape of a statement amount in the thousands: one digit, a comma, three digits, a point and two zeros. */
  predicate ThousandsShape(s: string) {
    && |s| == 8 && IsDigit(s[0]) && s[1] == ',' && IsDigit(s[2]) && IsDigit(s[3]) && IsDigit(s[4])
    && s[5] == '.' && s[6] == '0' && s[7] == '0'
  }

  /** Dropping the comma from such an amount leaves four digits, a point and two zeros. */
  lemma ThousandsUncomma(s: string)
    requires ThousandsShape(s)
    ensures RemoveAll(s, ',') == s[..1] + s[2..]
    ensures var t := s[..1] + s[2..];
      |t| == 7 && AllDigits(t[..4]) && t[4] == '.' && t[5] == '0' && t[6] == '0' &&
      ',' !in t && '-' !in t && Unpadded(t) &&
      t[0] == s[0] && t[1] == s[2] && t[2] == s[3] && t[3] == s[4]
  {
    var a, b := s[..1], s[2..];
    assert s == a + [','] + b;
    assert ',' !in a;
    assert ',' !in b by {
      forall k | 0 <= k < |b| ensures b[k] != ',' { assert b[k] == s[k + 2]; }
    }
    DropAt(a, b, ',');
    var t := a + b;
    assert forall k :: 0 <= k < |t| ==> t[k] == (if k == 0 then s[0] else s[k + 1]);
  }

  /** The value of an amount in the thousands, once its comma is dropped. */
  lemma ThousandsValue(s: string)
    requires ThousandsShape(s)
    ensures ParseDecimal(RemoveAll(s, ',')) ==
      Some(FourDigits(s[0], s[2], s[3], s[4]) as real)
  {
    var t := UncommaValue(s);
    assert t[0] == s[0] && t[1] == s[2] && t[2] == s[3] && t[3] == s[4];
  }

  lemma UncommaValue(s: string) returns (t: string)
    requires ThousandsShape(s)
    ensures t == RemoveAll(s, ',') && |t| == 7
    ensures t[0] == s[0] && t[1] == s[2] && t[2] == s[3] && t[3] == s[4]
    ensures ParseDecimal(t) == Some(FourDigits(t[0], t[1], t[2], t[3]) as real)
  {
    ThousandsUncomma(s);
    t := s[..1] + s[2..];
    WholeCents(t);
  }

  /** The two statement totals `"7,233.00"` and `"7,302.00"` have the thousands shape, with the values their digits spell. */
  lemma StatementShapes(s: string)
    requires s == "7,233.00" || s == "7,302.00"
    ensures ThousandsShape(s)
    ensures s == "7,233.00" ==> FourDigits(s[0], s[2], s[3], s[4]) == 7233
    ensures s == "7,302.00" ==> FourDigits(s[0], s[2], s[3], s[4]) == 7302
  {
  }

  /** `"0"`, the stand-in for an empty paid-out cell, reads as 0. */
  lemma ZeroNumeral()
    ensures ParseDecimal("0") == Some(0.0)
  {
    WholeNumeral("0");
    assert Natural("0") == 10 * Natural("") + 0;
  }

  lemma ExactCents(s: string)
    requires s == "7233.00"
    ensures ParseDecimal(s) == Some(7233.0)
  {
    assert AllDigits(s[..4]);
    WholeCents(s);
  }
}
