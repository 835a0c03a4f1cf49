/** Strings: the case-insensitive substring test behind Django's
    `__icontains` lookups, and the decimal renderings used to build cache
    keys (`str(user.id)` and the zero-padded fields of `strftime('%Y%m%d')`). */
module Text {

  // ---------------------------------------------------------------------
  // Case-insensitive containment
  // ---------------------------------------------------------------------

  /** ASCII lower-casing; other characters are left alone (SQLite's `LIKE`
      folds ASCII letters only). */
  function Lower(c: char): char
  {
    if 'A' <= c <= 'Z' then (c as int + 32) as char else c
  }

  function LowerStr(s: string): (r: string)
    ensures |r| == |s|
    ensures forall i :: 0 <= i < |s| ==> r[i] == Lower(s[i])
  {
    seq(|s|, i requires 0 <= i < |s| => Lower(s[i]))
  }

  predicate OccursAt(hay: string, needle: string, i: int)
  {
    0 <= i && i + |needle| <= |hay| && hay[i..i + |needle|] == needle
  }

  predicate Contains(hay: string, needle: string)
  {
    exists i :: 0 <= i <= |hay| - |needle| && OccursAt(hay, needle, i)
  }

  /** `hay__icontains=needle`. */
  predicate IContains(hay: string, needle: string)
  {
    Contains(LowerStr(hay), LowerStr(needle))
  }

  /** Lower-casing twice is lower-casing once. */
  lemma LowerStrIdempotent(s: string)
    ensures LowerStr(LowerStr(s)) == LowerStr(s)
  {
  }

  /** An exact occurrence is also a case-insensitive one, and a search term
      differing only in the case of ASCII letters finds the same rows. */
  lemma {:induction false} IContainsCaseBlind(hay: string, needle: string)
    ensures Contains(hay, needle) ==> IContains(hay, needle)
    ensures IContains(hay, needle) <==> IContains(hay, LowerStr(needle))
  {
    LowerStrIdempotent(needle);
    if Contains(hay, needle) {
      var i :| 0 <= i <= |hay| - |needle| && OccursAt(hay, needle, i);
      assert LowerStr(hay)[i..i + |needle|] == LowerStr(needle);
      assert OccursAt(LowerStr(hay), LowerStr(needle), i);
    }
  }

  /** The empty search term is found in every string. */
  lemma EmptyTermAlwaysFound(hay: string)
    ensures IContains(hay, "")
  {
    assert OccursAt(LowerStr(hay), LowerStr(""), 0);
  }

  // ---------------------------------------------------------------------
  // Decimal digits
  // ---------------------------------------------------------------------

  predicate IsDigit(c: char)
  {
    '0' <= c <= '9'
  }

  predicate AllDigits(s: string)
  {
    forall i :: 0 <= i < |s| ==> IsDigit(s[i])
  }

  function Digit(n: nat): (c: char)
    requires n < 10
    ensures IsDigit(c)
  {
    ('0' as int + n) as char
  }

  function Pow10(n: nat): (p: nat)
    ensures p >= 1
  {
    if n == 0 then 1 else 10 * Pow10(n - 1)
  }

  /** `n` written in decimal with no leading zeros: Python's `str(n)`. */
  function DecimalString(n: nat): (s: string)
    ensures |s| >= 1
    ensures AllDigits(s)
  {
    if n < 10 then [Digit(n)] else DecimalString(n / 10) + [Digit(n % 10)]
  }

  /** The last `width` decimal digits of `n`, zero-padded on the left:
      `%04d`-style rendering as `strftime` does for `%Y`, `%m`, `%d`. */
  function Padded(n: nat, width: nat): (s: string)
    ensures |s| == width
    ensures AllDigits(s)
  {
    if width == 0 then [] else Padded(n / 10, width - 1) + [Digit(n % 10)]
  }

  /** Reads a string of digits back as a number. */
  function ParseDigits(s: string): nat
    requires AllDigits(s)
  {
    if s == [] then 0
    else 10 * ParseDigits(s[..|s| - 1]) + (s[|s| - 1] as int - '0' as int)
  }

  /** Padding to `width` digits loses nothing for a number below 10^width. */
  lemma {:induction false} ParsePadded(n: nat, width: nat)
    requires n < Pow10(width)
    ensures ParseDigits(Padded(n, width)) == n
  {
    if width > 0 {
      ParsePadded(n / 10, width - 1);
      var s := Padded(n, width);
      assert s[..|s| - 1] == Padded(n / 10, width - 1);
    }
  }

  /** `str(n)` is read back as `n`. */
  lemma {:induction false} ParseDecimal(n: nat)
    ensures ParseDigits(DecimalString(n)) == n
  {
    if n >= 10 {
      ParseDecimal(n / 10);
      var s := DecimalString(n);
      assert s[..|s| - 1] == DecimalString(n / 10);
    }
  }

  /** Different numbers have different renderings. */
  lemma DecimalStringInjective(m: nat, n: nat)
    requires DecimalString(m) == DecimalString(n)
    ensures m == n
  {
    ParseDecimal(m);
    ParseDecimal(n);
  }

  lemma PaddedInjective(m: nat, n: nat, width: nat)
    requires m < Pow10(width) && n < Pow10(width)
    requires Padded(m, width) == Padded(n, width)
    ensures m == n
  {
    ParsePadded(m, width);
    ParsePadded(n, width);
  }

  /** In `a + [sep] + x`, with `a` all digits and `sep` not a digit, the
      first non-digit sits exactly at index `|a|`. */
  lemma FirstNonDigitAt(a: string, sep: char, x: string)
    requires AllDigits(a) && !IsDigit(sep)
    ensures var l := a + [sep] + x;
      (forall i :: 0 <= i < |a| ==> IsDigit(l[i])) && !IsDigit(l[|a|]) && l[..|a|] == a
  {
  }

  /** If `a + [sep] + x == b + [sep] + y` where `a` and `b` are digit strings
      and `sep` is not a digit, then `a == b`: a digit run ended by a
      separator is read unambiguously. */
  lemma DigitRunDelimited(a: string, b: string, sep: char, x: string, y: string)
    requires AllDigits(a) && AllDigits(b) && !IsDigit(sep)
    requires a + [sep] + x == b + [sep] + y
    ensures a == b
  {
    FirstNonDigitAt(a, sep, x);
    FirstNonDigitAt(b, sep, y);
  }
}
