/** The two pieces of Python string behaviour the pipeline relies on when it
    derives file names: `str.replace` and `str(int)`. */
module PyStr {

  /** `pat` occurs in `s` starting at index `i`. */
  predicate OccursAt(s: string, pat: string, i: nat)
  {
    i + |pat| <= |s| && s[i..i + |pat|] == pat
  }

  /** `s.endswith(suffix)`. */
  predicate EndsWith(s: string, suffix: string)
  {
    |suffix| <= |s| && s[|s| - |suffix|..] == suffix
  }

  predicate Occurs(s: string, pat: string)
  {
    exists i: nat | i <= |s| :: OccursAt(s, pat, i)
  }

  /** No proper non-empty prefix of `pat` is also a suffix of it, so two
      occurrences of `pat` can never overlap (".npy" is such a pattern). */
  predicate NoBorder(pat: string)
  {
    forall k :: 0 < k < |pat| ==> pat[..k] != pat[|pat| - k..]
  }

  /** Python's `s.replace(pat, rep)` for a non-empty `pat`: scanning left to
      right, every non-overlapping occurrence of `pat` is replaced by `rep`. */
  function Replace(s: string, pat: string, rep: string): string
    requires |pat| > 0
    decreases |s|
  {
    if |s| < |pat| then s
    else if s[..|pat|] == pat then rep + Replace(s[|pat|..], pat, rep)
    else [s[0]] + Replace(s[1..], pat, rep)
  }

  lemma OccursShift(s: string, pat: string, i: nat)
    requires |s| > 0 && OccursAt(s[1..], pat, i)
    ensures OccursAt(s, pat, i + 1)
  {
    assert s[i + 1..i + 1 + |pat|] == s[1..][i..i + |pat|];
  }

  /** A string without an occurrence of the pattern is left untouched. */
  lemma {:induction false} ReplaceAbsent(s: string, pat: string, rep: string)
    requires |pat| > 0 && !Occurs(s, pat)
    ensures Replace(s, pat, rep) == s
    decreases |s|
  {
    if |s| >= |pat| {
      assert !OccursAt(s, pat, 0);
      AbsentInTail(s, pat);
      ReplaceAbsent(s[1..], pat, rep);
      assert s == [s[0]] + s[1..];
    }
  }

  /** An occurrence-free string stays occurrence-free without its first character. */
  lemma AbsentInTail(s: string, pat: string)
    requires |s| > 0 && !Occurs(s, pat)
    ensures !Occurs(s[1..], pat)
  {
    if Occurs(s[1..], pat) {
      var i: nat :| i <= |s[1..]| && OccursAt(s[1..], pat, i);
      OccursShift(s, pat, i);
    }
  }

  /** With a pattern that cannot overlap itself, `x + pat` does not start
      with `pat` unless `x` is empty or already contains `pat`. */
  lemma NoMatchAtFront(x: string, pat: string)
    requires |pat| > 0 && NoBorder(pat) && !Occurs(x, pat) && x != []
    ensures (x + pat)[..|pat|] != pat
  {
    var s := x + pat;
    if |x| >= |pat| {
      assert x[0..|pat|] == s[..|pat|];
      assert !OccursAt(x, pat, 0);
    } else {
      var k := |pat| - |x|;
      assert s[..|pat|][|x|..] == pat[..k];
      assert pat[..k] != pat[|pat| - k..];
    }
  }

  /** When the pattern cannot overlap itself and occurs nowhere in `x`, the
      single trailing occurrence in `x + pat` is the only one replaced:
      "a/b.npy" becomes "a/b.wav". */
  lemma {:induction false} ReplaceTrailing(x: string, pat: string, rep: string)
    requires |pat| > 0 && NoBorder(pat) && !Occurs(x, pat)
    ensures Replace(x + pat, pat, rep) == x + rep
    decreases |x|
  {
    var s := x + pat;
    if x == [] {
      assert s[..|pat|] == pat;
      assert s[|pat|..] == [];
    } else {
      NoMatchAtFront(x, pat);
      AbsentInTail(x, pat);
      ReplaceTrailing(x[1..], pat, rep);
      assert s[1..] == x[1..] + pat;
      assert Replace(s, pat, rep) == [s[0]] + Replace(s[1..], pat, rep);
    }
  }

  lemma NpyHasNoBorder()
    ensures NoBorder(".npy")
  {
    var p := ".npy";
    forall k | 0 < k < |p|
      ensures p[..k] != p[|p| - k..]
    {
      assert p[..k][0] == '.' != p[|p| - k..][0];
    }
  }

  /** The decimal digit character for `d`. */
  function DigitChar(d: nat): (c: char)
    requires d < 10
    ensures '0' <= c <= '9' && (c as int) - ('0' as int) == d
  {
    (('0' as int) + d) as char
  }

  predicate IsDigits(s: string)
  {
    forall i :: 0 <= i < |s| ==> '0' <= s[i] <= '9'
  }

  /** Python's `str(n)` for `n >= 0`: decimal digits without leading zeros. */
  function Digits(n: nat): (s: string)
    ensures |s| > 0 && IsDigits(s)
    ensures n > 0 ==> s[0] != '0'
    decreases n
  {
    if n < 10 then [DigitChar(n)] else Digits(n / 10) + [DigitChar(n % 10)]
  }

  /** Python's `str(n)` for any integer: a minus sign before the digits of
      `-n` when `n` is negative. */
  function IntToString(n: int): (s: string)
    ensures |s| > 0
    ensures n < 0 <==> s[0] == '-'
  {
    if n < 0 then "-" + Digits(-n) else Digits(n)
  }

  /** The value of a string of decimal digits (the reading `int(s)` gives). */
  function DigitsValue(s: string): nat
    requires IsDigits(s)
  {
    if s == [] then 0
    else DigitsValue(s[..|s| - 1]) * 10 + ((s[|s| - 1] as int) - ('0' as int))
  }

  /** `int(s)` for the strings `IntToString` produces. */
  function ParseInt(s: string): int
    requires |s| > 0 && (s[0] == '-' ==> IsDigits(s[1..])) && (s[0] != '-' ==> IsDigits(s))
  {
    if s[0] == '-' then 0 - DigitsValue(s[1..]) as int else DigitsValue(s)
  }

  lemma {:induction false} DigitsRoundTrip(n: nat)
    ensures DigitsValue(Digits(n)) == n
    decreases n
  {
    if n >= 10 {
      DigitsRoundTrip(n / 10);
      var s := Digits(n / 10) + [DigitChar(n % 10)];
      assert s[..|s| - 1] == Digits(n / 10);
    }
  }

  /** `int(str(n)) == n`: the decimal form of an integer determines it, so
      two different start frames never name the same variant file suffix. */
  lemma IntToStringRoundTrip(n: int)
    ensures ParseInt(IntToString(n)) == n
  {
    if n < 0 {
      DigitsRoundTrip(-n);
      assert IntToString(n)[1..] == Digits(-n);
    } else {
      DigitsRoundTrip(n);
    }
  }

  lemma IntToStringInjective(m: int, n: int)
    requires IntToString(m) == IntToString(n)
    ensures m == n
  {
    IntToStringRoundTrip(m);
    IntToStringRoundTrip(n);
  }
}
