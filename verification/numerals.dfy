/** Positional numerals for non-negative integers: the decimal text a JavaScript
    template literal produces for an integer, and the lower-case text of
    `Number.prototype.toString(16)`. */
module Numerals {

  /** The digit character for `d`: '0'..'9', then 'a'..'f'. */
  function DigitChar(d: nat): (c: char)
    requires d < 16
    ensures IsHexDigit(c) && DigitValue(c) == d
  {
    if d < 10 then ('0' as int + d) as char else ('a' as int + d - 10) as char
  }

  /** The value of a digit character; 0 for any other character. */
  function DigitValue(c: char): nat
  {
    if '0' <= c <= '9' then c as int - '0' as int
    else if 'a' <= c <= 'f' then c as int - 'a' as int + 10
    else 0
  }

  /** `c` is one of "0123456789abcdef". */
  predicate IsHexDigit(c: char)
  {
    '0' <= c <= '9' || 'a' <= c <= 'f'
  }

  /** `c` is one of the first `base` characters of "0123456789abcdef". */
  predicate IsDigitChar(c: char, base: nat)
  {
    IsHexDigit(c) && DigitValue(c) < base
  }

  predicate IsNumeral(s: string, base: nat)
  {
    forall i | 0 <= i < |s| :: IsDigitChar(s[i], base)
  }

  /** The number a string of digits denotes, most significant digit first. */
  function Value(s: string, base: nat): nat
  {
    if |s| == 0 then 0 else Value(s[..|s| - 1], base) * base + DigitValue(s[|s| - 1])
  }

  function Pow(b: nat, k: nat): nat
  {
    if k == 0 then 1 else b * Pow(b, k - 1)
  }

  /** The shortest numeral for `n` in `base`: non-empty, digits only, no leading
      zero except for zero itself, and it denotes `n`. */
  function Render(n: nat, base: nat): (s: string)
    requires 2 <= base <= 16
    ensures |s| >= 1 && IsNumeral(s, base)
    ensures s[0] == '0' <==> n == 0
    ensures n == 0 ==> s == "0"
    ensures Value(s, base) == n
    decreases n
  {
    if n < base then
      SingleDigit(n, base);
      [DigitChar(n)]
    else
      DivideByBase(n, base);
      var prefix := Render(n / base, base);
      AppendDigit(prefix, n / base, n % base, base);
      prefix + [DigitChar(n % base)]
  }

  lemma DivideByBase(n: nat, base: nat)
    requires 2 <= base <= n
    ensures 0 < n / base < n && n % base < base && (n / base) * base + n % base == n
  {
  }

  /** A number below the base is written with one digit. */
  lemma SingleDigit(n: nat, base: nat)
    requires 2 <= base <= 16 && n < base
    ensures var s := [DigitChar(n)];
      IsNumeral(s, base) && (s[0] == '0' <==> n == 0) && (n == 0 ==> s == "0") && Value(s, base) == n
  {
    var s := [DigitChar(n)];
    assert s[..0] == [];
  }

  /** Appending the digit `d` to the numeral for `q` gives the numeral for `q * base + d`. */
  lemma AppendDigit(prefix: string, q: nat, d: nat, base: nat)
    requires 2 <= base <= 16 && 0 < q && d < base
    requires |prefix| >= 1 && IsNumeral(prefix, base) && prefix[0] != '0'
    requires Value(prefix, base) == q
    ensures var s := prefix + [DigitChar(d)];
      IsNumeral(s, base) && s[0] != '0' && Value(s, base) == q * base + d
  {
    var s := prefix + [DigitChar(d)];
    forall i | 0 <= i < |s|
      ensures IsDigitChar(s[i], base)
    {
      if i < |prefix| {
        assert s[i] == prefix[i];
      }
    }
    assert s[..|s| - 1] == prefix;
  }

  /** Decimal text of a natural number. */
  function Decimal(n: nat): (s: string)
    ensures |s| >= 1 && IsNumeral(s, 10) && Value(s, 10) == n
  {
    Render(n, 10)
  }

  /** Lower-case hexadecimal text of a natural number. */
  function Hex(n: nat): (s: string)
    ensures |s| >= 1 && IsNumeral(s, 16) && Value(s, 16) == n
  {
    Render(n, 16)
  }

  /** Decimal text of an integer, with a leading '-' when negative. */
  function IntText(i: int): (s: string)
    ensures i >= 0 ==> s == Decimal(i)
    ensures i < 0 ==> s == "-" + Decimal(-i)
  {
    if i < 0 then "-" + Decimal(-i) else Decimal(i)
  }

  /** Distinct integers have distinct decimal texts. */
  lemma IntTextInjective(a: int, b: int)
    ensures IntText(a) == IntText(b) ==> a == b
  {
    if IntText(a) == IntText(b) {
      var s := IntText(a);
      assert IsDigitChar(Decimal(if a < 0 then -a else a)[0], 10);
      assert IsDigitChar(Decimal(if b < 0 then -b else b)[0], 10);
      if a < 0 && b < 0 {
        assert Decimal(-a) == s[1..] == Decimal(-b);
        RenderInjective(-a, -b, 10);
      } else if a >= 0 && b >= 0 {
        RenderInjective(a, b, 10);
      }
    }
  }

  /** Distinct numbers render differently, so rendered numbers can serve as keys. */
  lemma RenderInjective(a: nat, b: nat, base: nat)
    requires 2 <= base <= 16
    ensures Render(a, base) == Render(b, base) ==> a == b
  {
  }

  /** A number below `base^k` needs at most `k` digits. */
  lemma {:induction false} RenderLength(n: nat, base: nat, k: nat)
    requires 2 <= base <= 16 && 1 <= k
    requires n < Pow(base, k)
    ensures |Render(n, base)| <= k
    decreases k
  {
    if n >= base {
      var p := Pow(base, k - 1);
      assert Pow(base, k) == base * p;
      assert (n / base) * base <= n;
      assert n / base < p;
      RenderLength(n / base, base, k - 1);
    }
  }
}
