/** Rendering of non-negative integers as strings of digits, as JavaScript
    does for a number inside a template literal (base 10) and for
    `Number.prototype.toString(36)`: lower-case digits, most significant
    first, no leading zeros. `Parse` reads such a string back. */
module Text {

  predicate IsDigitChar(c: char) {
    '0' <= c <= '9' || 'a' <= c <= 'z'
  }

  function DigitValue(c: char): nat {
    if '0' <= c <= '9' then c as int - '0' as int
    else if 'a' <= c <= 'z' then c as int - 'a' as int + 10
    else 0
  }

  function DigitChar(d: nat): (c: char)
    requires d < 36
    ensures IsDigitChar(c) && DigitValue(c) == d
  {
    if d < 10 then ('0' as int + d) as char else ('a' as int + d - 10) as char
  }

  /** The digits of `n` in the given base. */
  function Digits(n: nat, base: nat): (s: string)
    requires 2 <= base <= 36
    ensures |s| >= 1
    ensures forall i :: 0 <= i < |s| ==> IsDigitChar(s[i])
    ensures (s[0] == '0') == (n == 0)
    decreases n
  {
    if n < base then [DigitChar(n)]
    else DivMod(n, base); Digits(n / base, base) + [DigitChar(n % base)]
  }

  lemma DivMod(n: nat, base: nat)
    requires 2 <= base <= n
    ensures 1 <= n / base < n && n % base < base && n == n / base * base + n % base
  {
  }

  /** The value of a string of digits in the given base. */
  function Parse(s: string, base: nat): nat
    decreases |s|
  {
    if s == [] then 0 else Parse(s[..|s| - 1], base) * base + DigitValue(s[|s| - 1])
  }

  /** Reading back the digits of `n` gives `n`. */
  lemma {:induction false} ParseDigits(n: nat, base: nat)
    requires 2 <= base <= 36
    ensures Parse(Digits(n, base), base) == n
  {
    if n >= base {
      var s := Digits(n, base);
      DivMod(n, base);
      assert s[..|s| - 1] == Digits(n / base, base);
      ParseDigits(n / base, base);
    }
  }

  /** Different numbers have different digit strings. */
  lemma DigitsInjective(a: nat, b: nat, base: nat)
    requires 2 <= base <= 36
    requires Digits(a, base) == Digits(b, base)
    ensures a == b
  {
    ParseDigits(a, base);
    ParseDigits(b, base);
  }

  /** A string free of `sep`, followed by `sep`, is recovered uniquely from
      the concatenation: the first `sep` marks where it ends. */
  lemma SplitAtSeparator(a: string, b: string, c: string, d: string, sep: char)
    requires sep !in a && sep !in c
    requires a + [sep] + b == c + [sep] + d
    ensures a == c && b == d
  {
    var s := a + [sep] + b;
    assert s[|a|] == sep && s[|c|] == sep;
    assert forall i :: 0 <= i < |a| ==> s[i] == a[i] != sep;
    assert forall i :: 0 <= i < |c| ==> s[i] == c[i] != sep;
    assert a == s[..|a|];
    assert c == (c + [sep] + d)[..|c|];
    assert b == s[|a| + 1..];
    assert d == (c + [sep] + d)[|c| + 1..];
  }

  /** Two digit strings each followed by `sep` and a tail: equal
      concatenations mean equal numbers and equal tails. */
  lemma SplitDigits(m: nat, n: nat, base: nat, sep: char, b: string, d: string)
    requires 2 <= base <= 36 && !IsDigitChar(sep)
    requires Digits(m, base) + [sep] + b == Digits(n, base) + [sep] + d
    ensures m == n && b == d
  {
    SplitAtSeparator(Digits(m, base), b, Digits(n, base), d, sep);
    DigitsInjective(m, n, base);
  }

  lemma DropPrefix<T>(p: seq<T>, a: seq<T>, b: seq<T>)
    requires p + a == p + b
    ensures a == b
  {
    assert a == (p + a)[|p|..];
    assert b == (p + b)[|p|..];
  }

  lemma DropSuffix<T>(a: seq<T>, b: seq<T>, q: seq<T>)
    requires a + q == b + q
    ensures a == b
  {
    assert a == (a + q)[..|a + q| - |q|];
    assert b == (b + q)[..|b + q| - |q|];
  }
}
