/**
 * The input normalisers the forms apply while the user types: the regular-expression `replace`
 * chains behind the Brazilian phone mask `(DD) DDDDD-DDDD`, the CPF mask `DDD.DDD.DDD-DD`, the
 * digit-free name field and the decimal (price, cost, salary) field. Each `replace` step is
 * modelled on any string, picking the match a JavaScript regular expression picks (the leftmost),
 * and the lemmas give the closed forms the chains produce.
 */
module Masks {
  import opened Wrappers
  import opened Seqs
  import opened Text

  /** `s[i..i + n]` is a run of `n` digits. */
  predicate RunAt(s: string, i: nat, n: nat) {
    i + n <= |s| && forall k :: i <= k < i + n ==> IsDigit(s[k])
  }

  /** The leftmost position at or after `from` where a run of `n` digits starts. */
  function FirstRun(s: string, n: nat, from: nat): (r: Option<nat>)
    ensures r.Some? ==> from <= r.value && RunAt(s, r.value, n)
    ensures r.Some? ==> forall j :: from <= j < r.value ==> !RunAt(s, j, n)
    ensures r.None? ==> forall j :: from <= j ==> !RunAt(s, j, n)
    decreases |s| - from
  {
    if from + n > |s| then None
    else if RunAt(s, from, n) then Some(from)
    else FirstRun(s, n, from + 1)
  }

  /** `.replace(/(\d{k})(\d)/, '$1' + sep + '$2')`: `sep` after the first `k` digits of the first run of `k + 1`. */
  function SplitFirstRun(s: string, k: nat, sep: char): string {
    match FirstRun(s, k + 1, 0)
    case None => s
    case Some(i) => s[..i + k] + [sep] + s[i + k..]
  }

  /** `.replace(/^(\d{2})(\d)/g, '($1) $2')`: the anchored pattern matches at most once, at the start. */
  function WrapAreaCode(s: string): string {
    if RunAt(s, 0, 3) then "(" + s[..2] + ") " + s[2..] else s
  }

  /** The length of the run of digits the string ends with. */
  function TrailingDigits(s: string): (n: nat)
    ensures n <= |s| && RunAt(s, |s| - n, n)
    ensures n < |s| ==> !IsDigit(s[|s| - n - 1])
    decreases |s|
  {
    if s == [] || !IsDigit(s[|s| - 1]) then 0 else TrailingDigits(s[..|s| - 1]) + 1
  }

  /**
   * `.replace(/(\d{3})(\d{1,2})$/, '$1-$2')`: a match is 4 or 5 digits ending the string; the
   * leftmost one is the 5 last characters when the final run of digits has at least 5, and the
   * 4 last when it has exactly 4.
   */
  function SplitTail(s: string): string {
    var n := TrailingDigits(s);
    if n >= 5 then s[..|s| - 2] + "-" + s[|s| - 2..]
    else if n == 4 then s[..|s| - 1] + "-" + s[|s| - 1..]
    else s
  }

  /** The phone mask: digits only, area code in parentheses, a hyphen after the next five digits, at most 15 characters. */
  function PhoneMask(v: string): string {
    Take(SplitFirstRun(WrapAreaCode(Digits(v)), 5, '-'), 15)
  }

  /** The CPF mask: digits only, dots after the third and sixth digit, the hyphen before the check digits, at most 14 characters. */
  function DocumentMask(v: string): string {
    Take(SplitTail(SplitFirstRun(SplitFirstRun(Digits(v), 3, '.'), 3, '.')), 14)
  }

  predicate AllDigits(s: string) {
    forall i :: 0 <= i < |s| ==> IsDigit(s[i])
  }

  function Min(a: nat, b: nat): nat {
    if a < b then a else b
  }

  /** What the phone mask makes of a string of digits. */
  function PhoneOfDigits(d: string): string
    requires AllDigits(d)
  {
    if |d| < 3 then d
    else if |d| < 8 then "(" + d[..2] + ") " + d[2..]
    else "(" + d[..2] + ") " + d[2..7] + "-" + d[7..Min(|d|, 11)]
  }

  lemma DigitsAreAllDigits(v: string)
    ensures AllDigits(Digits(v))
  {
  }

  /** The phone mask depends only on the digits typed, through the closed form above. */
  lemma PhoneMaskClosed(v: string)
    ensures AllDigits(Digits(v)) && PhoneMask(v) == PhoneOfDigits(Digits(v))
  {
    var d := Digits(v);
    DigitsAreAllDigits(v);
    if |d| < 3 {
      assert !RunAt(d, 0, 3);
      NoRunInShort(d, 6);
    } else {
      var s1 := "(" + d[..2] + ") " + d[2..];
      assert RunAt(d, 0, 3);
      assert WrapAreaCode(d) == s1;
      assert |s1| == |d| + 3;
      assert forall j :: 0 <= j < 5 ==> !RunAt(s1, j, 6) by {
        forall j | 0 <= j < 5
          ensures !RunAt(s1, j, 6)
        {
          if j < 4 {
            assert !IsDigit(s1[3]);
          } else {
            assert !IsDigit(s1[4]);
          }
        }
      }
      if |d| < 8 {
        NoRunInShort(s1[5..], 6);
        assert forall j :: 5 <= j ==> !RunAt(s1, j, 6);
        assert FirstRun(s1, 6, 0).None?;
      } else {
        assert RunAt(s1, 5, 6) by {
          assert forall k :: 5 <= k < 11 ==> s1[k] == d[k - 3];
        }
        assert FirstRun(s1, 6, 0) == Some(5);
        var s2 := s1[..10] + "-" + s1[10..];
        assert s1[..10] == "(" + d[..2] + ") " + d[2..7];
        assert s1[10..] == d[7..];
        assert Take(s2, 15) == "(" + d[..2] + ") " + d[2..7] + "-" + d[7..Min(|d|, 11)];
      }
    }
  }

  /** A string shorter than `n` holds no run of `n` digits. */
  lemma NoRunInShort(s: string, n: nat)
    requires |s| < n
    ensures forall j :: !RunAt(s, j, n)
  {
  }

  /** Digits are kept across a separator. */
  lemma DigitsAround(a: string, c: char, b: string)
    requires !IsDigit(c)
    ensures Digits(a + [c] + b) == Digits(a) + Digits(b)
  {
    FilterAppend(a + [c], b, IsDigit);
    FilterAppend(a, [c], IsDigit);
    assert Filter([c], IsDigit) == Filter([], IsDigit);
  }

  /** Digits between punctuation are kept, in order, and the punctuation goes. */
  lemma DigitsOfWrapped(a: string, b: string)
    requires AllDigits(a) && AllDigits(b)
    ensures Digits("(" + a + ") " + b) == a + b
  {
    DigitsOfDigits(a);
    DigitsOfDigits(b);
    assert "(" + a + ") " + b == [] + ['('] + (a + [')'] + ([] + [' '] + b));
    DigitsAround([], '(', a + [')'] + ([] + [' '] + b));
    DigitsAround(a, ')', [] + [' '] + b);
    DigitsAround([], ' ', b);
  }

  lemma DigitsOfHyphenated(a: string, b: string, c: string)
    requires AllDigits(a) && AllDigits(b) && AllDigits(c)
    ensures Digits("(" + a + ") " + b + "-" + c) == a + b + c
  {
    DigitsOfDigits(c);
    assert "(" + a + ") " + b + "-" + c == ("(" + a + ") " + b) + ['-'] + c;
    DigitsAround("(" + a + ") " + b, '-', c);
    DigitsOfWrapped(a, b);
  }

  /** The digits of the phone mask's output are the first eleven digits typed. */
  lemma PhoneMaskDigits(v: string)
    ensures Digits(PhoneMask(v)) == Take(Digits(v), 11)
  {
    PhoneMaskClosed(v);
    PhoneDigitsKept(Digits(v));
  }

  /** Formatting a string of digits as a phone keeps its first eleven digits and adds none. */
  lemma PhoneDigitsKept(d: string)
    requires AllDigits(d)
    ensures Digits(PhoneOfDigits(d)) == Take(d, 11)
  {
    if |d| < 3 {
      DigitsOfDigits(d);
    } else if |d| < 8 {
      DigitsOfWrapped(d[..2], d[2..]);
      assert d[..2] + d[2..] == d;
    } else {
      var m := Min(|d|, 11);
      DigitsOfHyphenated(d[..2], d[2..7], d[7..m]);
      assert d[..2] + d[2..7] + d[7..m] == d[..m];
    }
  }

  /** The output never exceeds the 15 characters of `(DD) DDDDD-DDDD`. */
  lemma PhoneMaskLength(v: string)
    ensures |PhoneMask(v)| <= 15
  {
    PhoneMaskClosed(v);
  }

  /** Eleven digits, however typed, give the full mobile number format. */
  lemma PhoneMaskEleven(v: string)
    requires |Digits(v)| == 11
    ensures var d := Digits(v);
      PhoneMask(v) == "(" + d[..2] + ") " + d[2..7] + "-" + d[7..]
  {
    PhoneMaskClosed(v);
  }

  /** The masked phone is blank exactly when no digit was typed. */
  lemma PhoneMaskBlankIff(v: string)
    ensures AllSpace(PhoneMask(v)) <==> Digits(v) == []
  {
    PhoneMaskClosed(v);
    var d := Digits(v);
    if d != [] {
      var r := PhoneMask(v);
      if |d| < 3 {
        assert r[0] == d[0];
      } else {
        assert r[0] == '(';
      }
      assert !IsSpace(r[0]);
    }
  }

  /** Masking a masked phone changes nothing. */
  lemma PhoneMaskIdempotent(v: string)
    ensures PhoneMask(PhoneMask(v)) == PhoneMask(v)
  {
    var d := Digits(v);
    PhoneMaskClosed(v);
    PhoneMaskClosed(PhoneMask(v));
    PhoneMaskDigits(v);
    var t := Take(d, 11);
    assert Digits(PhoneMask(v)) == t;
    if |d| > 11 {
      assert t[..2] == d[..2] && t[2..7] == d[2..7] && t[7..] == d[7..11];
    } else {
      assert t == d;
    }
  }

  /** What the CPF mask makes of a string of digits. */
  function DocumentOfDigits(d: string): string
    requires AllDigits(d)
  {
    var n := |d|;
    if n < 4 then d
    else if n < 7 then d[..3] + "." + d[3..]
    else if n < 10 then d[..3] + "." + d[3..6] + "." + d[6..]
    else if n == 10 then d[..3] + "." + d[3..6] + "." + d[6..9] + "-" + d[9..]
    else Take(d[..3] + "." + d[3..6] + "." + d[6..n - 2] + "-" + d[n - 2..], 14)
  }

  /** A string ending in a run of exactly `k` digits has `k` trailing digits. */
  lemma TrailingDigitsAre(s: string, k: nat)
    requires k <= |s| && RunAt(s, |s| - k, k)
    requires k < |s| ==> !IsDigit(s[|s| - k - 1])
    ensures TrailingDigits(s) == k
  {
  }

  /** The first dot of the CPF mask. */
  lemma FirstDot(d: string)
    requires AllDigits(d)
    ensures SplitFirstRun(d, 3, '.') == if |d| >= 4 then d[..3] + "." + d[3..] else d
  {
    if |d| >= 4 {
      assert RunAt(d, 0, 4);
    } else {
      NoRunInShort(d, 4);
    }
  }

  /** The second dot of the CPF mask: the first run of four digits now starts after the first dot. */
  lemma SecondDot(d: string)
    requires AllDigits(d) && |d| >= 4
    ensures var s1 := d[..3] + "." + d[3..];
      SplitFirstRun(s1, 3, '.') == if |d| >= 7 then d[..3] + "." + d[3..6] + "." + d[6..] else s1
  {
    var s1 := d[..3] + "." + d[3..];
    assert forall j :: 0 <= j < 4 ==> !RunAt(s1, j, 4) by {
      assert !IsDigit(s1[3]);
    }
    if |d| >= 7 {
      assert RunAt(s1, 4, 4) by {
        assert forall k :: 4 <= k < 8 ==> s1[k] == d[k - 1];
      }
      assert FirstRun(s1, 4, 0) == Some(4);
      assert s1[..7] == d[..3] + "." + d[3..6];
      assert s1[7..] == d[6..];
    } else {
      assert forall j :: 4 <= j ==> !RunAt(s1, j, 4);
      assert FirstRun(s1, 4, 0).None?;
    }
  }

  /** The CPF mask depends only on the digits typed, through the closed form above. */
  lemma DocumentMaskClosed(v: string)
    ensures AllDigits(Digits(v)) && DocumentMask(v) == DocumentOfDigits(Digits(v))
  {
    var d := Digits(v);
    var n := |d|;
    DigitsAreAllDigits(v);
    FirstDot(d);
    if n < 4 {
      TrailingDigitsAre(d, n);
    } else {
      SecondDot(d);
      if n < 7 {
        TrailingDigitsLessThan(d[..3] + "." + d[3..], 3);
      } else {
        HyphenAfterDots(d);
      }
    }
  }

  /** The hyphen step on a CPF that already has both dots. */
  lemma HyphenAfterDots(d: string)
    requires AllDigits(d) && |d| >= 7
    ensures Take(SplitTail(d[..3] + "." + d[3..6] + "." + d[6..]), 14) == DocumentOfDigits(d)
  {
    var n := |d|;
    var s2 := d[..3] + "." + d[3..6] + "." + d[6..];
    assert |s2| == n + 2;
    assert forall k :: n + 2 - (n - 6) <= k < n + 2 ==> s2[k] == d[k - 2];
    TrailingDigitsAre(s2, n - 6);
    if n >= 11 {
      assert s2[..|s2| - 2] == d[..3] + "." + d[3..6] + "." + d[6..n - 2];
      assert s2[|s2| - 2..] == d[n - 2..];
    } else if n == 10 {
      assert s2[..|s2| - 1] == d[..3] + "." + d[3..6] + "." + d[6..9];
      assert s2[|s2| - 1..] == d[9..];
    }
  }

  /** A non-digit at position `i` bounds the trailing run. */
  lemma TrailingDigitsLessThan(s: string, i: nat)
    requires i < |s| && !IsDigit(s[i])
    ensures TrailingDigits(s) <= |s| - i - 1
  {
  }

  /**
   * At most the 14 characters of `DDD.DDD.DDD-DD`, and eleven digits, however typed, give
   * exactly that format.
   */
  lemma DocumentMaskEleven(v: string)
    ensures |DocumentMask(v)| <= 14
    ensures var d := Digits(v);
      |d| == 11 ==> DocumentMask(v) == d[..3] + "." + d[3..6] + "." + d[6..9] + "-" + d[9..]
  {
    DocumentMaskClosed(v);
  }

  /**
   * Up to eleven digits, the CPF mask only adds punctuation: the digits are the ones typed.
   * Beyond eleven, the 14-character cut keeps eleven of them when twelve or thirteen were typed
   * and twelve when fourteen or more were.
   */
  lemma DocumentMaskDigits(v: string)
    ensures |Digits(v)| <= 11 ==> Digits(DocumentMask(v)) == Digits(v)
    ensures |Digits(v)| > 11 ==> Digits(DocumentMask(v)) == Digits(v)[..if |Digits(v)| >= 14 then 12 else 11]
  {
    DocumentMaskClosed(v);
    if |Digits(v)| <= 11 {
      DigitsOfDocument(Digits(v));
    } else {
      LongDocument(Digits(v));
    }
  }

  /**
   * Twelve or more digits do not fit `DDD.DDD.DDD-DD`: with twelve or thirteen the hyphen moves
   * right and the cut drops the digits after it, and with fourteen or more the cut falls before
   * the hyphen, so no hyphen is shown.
   */
  lemma DocumentMaskOverflow(v: string)
    ensures var d := Digits(v);
      && (12 <= |d| <= 13 ==> DocumentMask(v) == d[..3] + "." + d[3..6] + "." + d[6..|d| - 2] + "-" + d[|d| - 2..11])
      && (|d| >= 14 ==> DocumentMask(v) == d[..3] + "." + d[3..6] + "." + d[6..12])
  {
    DocumentMaskClosed(v);
    if |Digits(v)| >= 12 {
      LongDocument(Digits(v));
    }
  }

  /** The closed form on twelve or more digits, and the digits it keeps. */
  lemma LongDocument(d: string)
    requires AllDigits(d) && |d| >= 12
    ensures |d| <= 13 ==> DocumentOfDigits(d) == d[..3] + "." + d[3..6] + "." + d[6..|d| - 2] + "-" + d[|d| - 2..11]
    ensures |d| >= 14 ==> DocumentOfDigits(d) == d[..3] + "." + d[3..6] + "." + d[6..12]
    ensures Digits(DocumentOfDigits(d)) == d[..if |d| >= 14 then 12 else 11]
  {
    var n := |d|;
    var full := d[..3] + "." + d[3..6] + "." + d[6..n - 2] + "-" + d[n - 2..];
    assert DocumentOfDigits(d) == full[..14];
    if n >= 14 {
      var r := d[..3] + "." + d[3..6] + "." + d[6..12];
      assert full[..14] == r;
      DigitsOfTwoDots(d[..3], d[3..6], d[6..12]);
      assert d[..3] + d[3..6] + d[6..12] == d[..12];
    } else {
      var a := d[..3] + "." + d[3..6] + "." + d[6..n - 2];
      var r := a + "-" + d[n - 2..11];
      assert full[..14] == r;
      DigitsOfTwoDots(d[..3], d[3..6], d[6..n - 2]);
      DigitsOfSeparated(a, '-', d[n - 2..11]);
      assert a + "-" + d[n - 2..11] == a + ['-'] + d[n - 2..11];
      assert d[..3] + d[3..6] + d[6..n - 2] + d[n - 2..11] == d[..11];
    }
  }

  lemma DigitsOfDocument(d: string)
    requires AllDigits(d) && |d| <= 11
    ensures Digits(DocumentOfDigits(d)) == d
  {
    var n := |d|;
    if n < 4 {
      DigitsOfDigits(d);
    } else if n < 7 {
      assert DocumentOfDigits(d) == d[..3] + ['.'] + d[3..];
      DigitsOfDigits(d[..3]);
      DigitsOfSeparated(d[..3], '.', d[3..]);
      assert d[..3] + d[3..] == d;
    } else if n < 10 {
      DigitsOfTwoDots(d[..3], d[3..6], d[6..]);
      assert d[..3] + d[3..6] + d[6..] == d;
    } else {
      var k := n - 1 - (n - 10);
      DigitsOfTwoDots(d[..3], d[3..6], d[6..k]);
      DigitsOfSeparated(d[..3] + "." + d[3..6] + "." + d[6..k], '-', d[k..]);
      assert d[..3] + d[3..6] + d[6..k] + d[k..] == d;
    }
  }

  lemma DigitsOfSeparated(a: string, c: char, b: string)
    requires !IsDigit(c) && AllDigits(b)
    ensures Digits(a + [c] + b) == Digits(a) + b
  {
    DigitsAround(a, c, b);
    DigitsOfDigits(b);
  }

  lemma DigitsOfTwoDots(a: string, b: string, c: string)
    requires AllDigits(a) && AllDigits(b) && AllDigits(c)
    ensures Digits(a + "." + b + "." + c) == a + b + c
  {
    DigitsOfDigits(a);
    DigitsOfSeparated(a, '.', b);
    assert a + "." + b + "." + c == (a + ['.'] + b) + ['.'] + c;
    DigitsOfSeparated(a + ['.'] + b, '.', c);
  }

  /** The name normaliser: `.replace(/[0-9]/g, '')`. */
  function NameInput(v: string): (r: string)
    ensures forall i :: 0 <= i < |r| ==> !IsDigit(r[i])
    ensures Filter(v, IsNonDigit) == r
  {
    Filter(v, IsNonDigit)
  }

  predicate IsDot(c: char) {
    c == '.'
  }

  predicate IsDigitOrDot(c: char) {
    IsDigit(c) || c == '.'
  }

  function DotCount(s: string): nat {
    Count(s, IsDot)
  }

  /** `.replace(/(\..*)\./g, '$1')` on a string without line breaks: with two or more dots, the last one goes. */
  function DropLastDot(s: string): (r: string)
    ensures forall i :: 0 <= i < |r| ==> r[i] in s
    decreases |s|
  {
    if s == [] then s
    else
      var u, c := s[..|s| - 1], s[|s| - 1];
      if c == '.' then (if DotCount(u) > 0 then u else s)
      else DropLastDot(u) + [c]
  }

  /** `r` is `s` without the dot at `j`, and no dot follows it in `s`. */
  predicate DropsLastDotAt(s: string, j: int, r: string) {
    0 <= j < |s| && s[j] == '.' && '.' !in s[j + 1..] && r == s[..j] + s[j + 1..]
  }

  /**
   * Dropping the last dot keeps every digit, and removes one dot exactly when there were at
   * least two: a value with fewer than two dots is left as it is, and otherwise the dot that
   * goes is the last one.
   */
  lemma DropLastDotSpec(s: string)
    ensures Digits(DropLastDot(s)) == Digits(s)
    ensures DotCount(DropLastDot(s)) == if DotCount(s) >= 2 then DotCount(s) - 1 else DotCount(s)
    ensures DotCount(s) < 2 ==> DropLastDot(s) == s
    ensures DotCount(s) >= 2 ==> exists j :: DropsLastDotAt(s, j, DropLastDot(s))
  {
    DropLastDotCounts(s);
    DropLastDotWhich(s);
  }

  lemma {:induction false} DropLastDotCounts(s: string)
    ensures Digits(DropLastDot(s)) == Digits(s)
    ensures DotCount(DropLastDot(s)) == if DotCount(s) >= 2 then DotCount(s) - 1 else DotCount(s)
    decreases |s|
  {
    if s != [] {
      var u, c := s[..|s| - 1], s[|s| - 1];
      if c != '.' {
        DropLastDotCounts(u);
        var r := DropLastDot(u) + [c];
        assert r[..|r| - 1] == DropLastDot(u);
      }
    }
  }

  lemma {:induction false} DropLastDotWhich(s: string)
    ensures DotCount(s) < 2 ==> DropLastDot(s) == s
    ensures DotCount(s) >= 2 ==> exists j :: DropsLastDotAt(s, j, DropLastDot(s))
    decreases |s|
  {
    if s != [] {
      var u, c := s[..|s| - 1], s[|s| - 1];
      if c != '.' {
        assert DotCount(s) == DotCount(u);
        DropLastDotWhich(u);
        if DotCount(u) >= 2 {
          var j :| DropsLastDotAt(u, j, DropLastDot(u));
          assert s[j + 1..] == u[j + 1..] + [c];
          assert s[..j] + s[j + 1..] == u[..j] + u[j + 1..] + [c];
          assert DropsLastDotAt(s, j, DropLastDot(s));
        } else {
          assert s == u + [c];
        }
      } else if DotCount(u) > 0 {
        assert DropsLastDotAt(s, |s| - 1, DropLastDot(s));
      }
    }
  }

  /** The decimal normaliser: `.replace(/[^0-9.]/g, '').replace(/(\..*)\./g, '$1')`. */
  function DecimalInput(v: string): string {
    DropLastDot(Filter(v, IsDigitOrDot))
  }

  /**
   * The normalised value holds only digits and dots and keeps every digit typed. With fewer
   * than two dots typed it is exactly the typed digits and dots; otherwise the last dot typed is
   * the one removed.
   */
  lemma DecimalInputSpec(v: string)
    ensures forall i :: 0 <= i < |DecimalInput(v)| ==> IsDigitOrDot(DecimalInput(v)[i])
    ensures Digits(DecimalInput(v)) == Digits(v)
    ensures DotCount(DecimalInput(v)) == if DotCount(v) >= 2 then DotCount(v) - 1 else DotCount(v)
    ensures var f := Filter(v, IsDigitOrDot);
      && (DotCount(v) < 2 ==> DecimalInput(v) == f)
      && (DotCount(v) >= 2 ==> exists j :: DropsLastDotAt(f, j, DecimalInput(v)))
  {
    var f := Filter(v, IsDigitOrDot);
    DropLastDotSpec(f);
    FilterFilter(v, IsDigitOrDot, IsDigit);
    FilterCongruence(v, Both(IsDigitOrDot, IsDigit), IsDigit);
    FilterFilter(v, IsDigitOrDot, IsDot);
    FilterCongruence(v, Both(IsDigitOrDot, IsDot), IsDot);
    assert DotCount(f) == DotCount(v);
  }

  /** Typing one character anywhere into a normalised decimal field leaves at most one dot. */
  lemma DecimalKeepsOneDot(a: string, c: char, b: string)
    requires DotCount(a + b) <= 1
    ensures DotCount(DecimalInput(a + [c] + b)) <= 1
  {
    FilterAppend(a, b, IsDot);
    FilterAppend(a + [c], b, IsDot);
    FilterAppend(a, [c], IsDot);
    DecimalInputSpec(a + [c] + b);
  }
}
