/** Decimal numerals of natural numbers (as a template literal `${n}` writes them), and string search. */
module Strings {
  import opened Wrappers

  predicate IsDigit(c: char) {
    '0' <= c <= '9'
  }

  predicate AllDigits(s: string) {
    forall i :: 0 <= i < |s| ==> IsDigit(s[i])
  }

  function DigitChar(d: nat): (c: char)
    requires d < 10
    ensures IsDigit(c)
  {
    ('0' as int + d) as char
  }

  function DigitValue(c: char): (d: nat)
    requires IsDigit(c)
    ensures d < 10
  {
    c as int - '0' as int
  }

  /** The shortest decimal numeral of `n`. */
  function Show(n: nat): (s: string)
    ensures |s| > 0 && AllDigits(s)
  {
    if n < 10 then [DigitChar(n)] else Show(n / 10) + [DigitChar(n % 10)]
  }

  function ParseDigits(s: string): nat
    requires |s| > 0 && AllDigits(s)
  {
    if |s| == 1 then DigitValue(s[0])
    else ParseDigits(s[..|s| - 1]) * 10 + DigitValue(s[|s| - 1])
  }

  /** The number a numeral denotes; None for the empty string or a non-digit. */
  function Parse(s: string): Option<nat> {
    if |s| > 0 && AllDigits(s) then Some(ParseDigits(s)) else None
  }

  lemma {:induction false} ParseShow(n: nat)
    ensures Parse(Show(n)) == Some(n)
  {
    if n >= 10 {
      ParseShow(n / 10);
      var s := Show(n);
      assert s[..|s| - 1] == Show(n / 10);
    }
  }

  /** The position of the first `c` in `s`, if any. */
  function IndexOf(s: string, c: char): (r: Option<nat>)
    ensures r.Some? ==> r.value < |s| && s[r.value] == c && c !in s[..r.value]
    ensures r.None? ==> c !in s
  {
    if s == [] then None
    else if s[0] == c then Some(0)
    else
      var k := IndexOf(s[1..], c);
      if k.Some? then
        assert s[..k.value + 1] == [s[0]] + s[1..][..k.value];
        Some(k.value + 1)
      else None
  }

  lemma {:induction false} IndexOfFirst(a: string, c: char, b: string)
    requires c !in a
    ensures IndexOf(a + [c] + b, c) == Some(|a|)
  {
    if a != [] {
      assert (a + [c] + b)[1..] == a[1..] + [c] + b;
      assert a[0] in a;
      IndexOfFirst(a[1..], c, b);
    }
  }

  lemma DigitsHaveNoDash(s: string)
    requires AllDigits(s)
    ensures '-' !in s
  {
    forall i | 0 <= i < |s| ensures s[i] != '-' {
      assert IsDigit(s[i]);
    }
  }

  /** `s.replace(c, d)` with a one-character pattern: only the first `c` becomes `d`. */
  function ReplaceFirst(s: string, c: char, d: char): (r: string)
    ensures |r| == |s|
    ensures c !in s ==> r == s
    ensures c in s ==> exists k :: 0 <= k < |s| && s[k] == c && c !in s[..k] && r == s[..k] + [d] + s[k + 1..]
  {
    match IndexOf(s, c)
    case None => s
    case Some(k) => s[..k] + [d] + s[k + 1..]
  }
}
